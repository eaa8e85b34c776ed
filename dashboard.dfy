/** `useDashboard`: the dashboard summary's data/loading/error machine. It
    loads on mount and again whenever the shared `refreshKey` changes. A 401
    reported by the HTTP client is silent: no error, no alert, data kept. */
module DashboardHook {
  import opened Wrappers
  import opened Domain

  /** How `GET /dashboard` ended:
      - a response that came back, with its status, its `data` (absent as
        `None`) and its `message`;
      - an `AxiosError`, with the response status when there was a response;
      - something thrown that is not an `Error` at all. */
  datatype DashboardOutcome =
    | DashboardResponse(status: int, payload: Option<Dashboard>, message: Option<string>)
    | ClientError(responseStatus: Option<int>, errorMessage: string)
    | NonErrorThrown

  const FailureAlert := ErrorAlert("Something went wrong!", "Please retry again later")

  /** The three state fields of the hook. */
  datatype DashboardState = DashboardState(data: Option<Dashboard>, loading: bool, error: Option<string>)

  /** The client reported a 401: the run ends quietly. */
  predicate IsSilentUnauthorized(o: DashboardOutcome) {
    o.ClientError? && o.responseStatus == Some(401)
  }

  /** The error text the `catch` stores: the `Error`'s message (`new Error(undefined)`
      has the empty message), or "An error occurred" for anything else thrown. */
  function ErrorText(o: DashboardOutcome): string
    requires !(o.DashboardResponse? && o.status == 200)
  {
    match o
    case DashboardResponse(_, _, message) => message.GetOr("")
    case ClientError(_, message) => message
    case NonErrorThrown => "An error occurred"
  }

  /** The state after one complete run that started from `s`, and the alert
      it raised. A run starts by setting loading on and clearing the error. */
  function RunResult(s: DashboardState, o: DashboardOutcome): (r: (DashboardState, Option<Alert>))
    ensures !r.0.loading
    ensures o.DashboardResponse? && o.status == 200 ==>
      r.0.data == o.payload && r.0.error == None && r.1 == None
    ensures IsSilentUnauthorized(o) ==> r.0.data == s.data && r.0.error == None && r.1 == None
    ensures !(o.DashboardResponse? && o.status == 200) && !IsSilentUnauthorized(o) ==>
      r.0.data == s.data && r.0.error == Some(ErrorText(o)) && r.1 == Some(FailureAlert)
  {
    if o.DashboardResponse? && o.status == 200 then
      (DashboardState(o.payload, false, None), None)
    else if IsSilentUnauthorized(o) then
      (DashboardState(s.data, false, None), None)
    else
      (DashboardState(s.data, false, Some(ErrorText(o))), Some(FailureAlert))
  }

  /** Failures never clear data that an earlier run loaded. */
  lemma FailureKeepsData(s: DashboardState, o: DashboardOutcome)
    requires !(o.DashboardResponse? && o.status == 200)
    ensures RunResult(s, o).0.data == s.data
  {
  }

  /** The 401 exemption covers only the client's error: a 401 that arrives
      as an ordinary response is rethrown as a plain `Error` and reported.
      With the client's default `validateStatus`, which rejects every status
      outside 2xx, a 401 always arrives as a client error, so the second
      case needs a client configured to resolve it. */
  lemma UnauthorizedResponseIsReported(s: DashboardState, payload: Option<Dashboard>, message: Option<string>)
    ensures RunResult(s, ClientError(Some(401), "Request failed")).1 == None
    ensures RunResult(s, DashboardResponse(401, payload, message)).1 == Some(FailureAlert)
    ensures RunResult(s, DashboardResponse(401, payload, message)).0.error == Some(message.GetOr(""))
  {
  }

  /** An error set by one run is cleared by the next run unless that one fails too. */
  lemma ErrorClearedBySuccess(s: DashboardState, o1: DashboardOutcome, o2: DashboardOutcome)
    requires (o2.DashboardResponse? && o2.status == 200) || IsSilentUnauthorized(o2)
    ensures RunResult(RunResult(s, o1).0, o2).0.error == None
  {
  }

  class UseDashboard {
    var data: Option<Dashboard>
    var loading: bool
    var error: Option<string>
    /** The `refreshKey` the effect last ran with; `None` before mount. */
    var observedKey: Option<int>

    function State(): DashboardState
      reads this
    {
      DashboardState(data, loading, error)
    }

    constructor ()
      ensures data == None && loading && error == None && observedKey == None
    {
      data := None;
      loading := true;
      error := None;
      observedKey := None;
    }

    /** `fetchDashboardData` from start to `finally`. */
    method FetchDashboardData(o: DashboardOutcome) returns (alert: Option<Alert>)
      modifies this`data, this`loading, this`error
      ensures (State(), alert) == RunResult(old(State()), o)
    {
      loading := true;
      error := None;
      if o.DashboardResponse? && o.status == 200 {
        data := o.payload;
        alert := None;
      } else if o.ClientError? && o.responseStatus == Some(401) {
        alert := None;
      } else {
        error := Some(ErrorText(o));
        alert := Some(FailureAlert);
      }
      loading := false;
    }

    /** The effect after a render: it runs on mount and whenever `refreshKey`
        differs from the value of its previous run. */
    method OnRender(refreshKey: int, o: DashboardOutcome) returns (ran: bool, alert: Option<Alert>)
      modifies this
      ensures ran <==> old(observedKey) != Some(refreshKey)
      ensures observedKey == Some(refreshKey)
      ensures ran ==> (State(), alert) == RunResult(old(State()), o)
      ensures !ran ==> State() == old(State()) && alert == None
    {
      ran := observedKey != Some(refreshKey);
      if ran {
        alert := FetchDashboardData(o);
        observedKey := Some(refreshKey);
      } else {
        alert := None;
      }
    }
  }
}
