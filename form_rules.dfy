/** What the inventory modals share: the "not blank" rule of the item-master
    field, the case-insensitive option filter of the warehouse select, the
    callbacks a modal makes, and how a response's `message` turns into
    alert text. */
module FormRules {
  import opened Wrappers
  import opened Text
  import opened Domain

  /** The item-master validator: it rejects `!value` (absent or "") and a value
      that trims to nothing. */
  predicate NonBlank(value: Option<string>) {
    value.Some? && value.value != "" && Trim(value.value) != ""
  }

  /** Accepted exactly when some character is not whitespace. */
  lemma NonBlankMeaning(value: Option<string>)
    ensures NonBlank(value) <==> value.Some? && exists i :: 0 <= i < |value.value| && !IsWhitespace(value.value[i])
  {
  }

  /** The `label` of a select option: a string, or anything else (a node). */
  datatype OptionLabel = StringLabel(text: string) | NodeLabel

  /** `filterOption`: the lower-cased label includes the lower-cased input;
      a label that is not a string never matches. */
  predicate FilterOption(input: string, optionLabel: OptionLabel) {
    match optionLabel
    case StringLabel(text) => Contains(ToLower(text), ToLower(input))
    case NodeLabel => false
  }

  lemma FilterOptionProperties(input: string, optionLabel: OptionLabel)
    ensures optionLabel.NodeLabel? ==> !FilterOption(input, optionLabel)
    ensures optionLabel.StringLabel? && input == "" ==> FilterOption(input, optionLabel)
    ensures optionLabel.StringLabel? && input == optionLabel.text ==> FilterOption(input, optionLabel)
  {
    if optionLabel.StringLabel? && input == "" {
      assert OccursAt(ToLower(optionLabel.text), ToLower(input), 0);
    }
    if optionLabel.StringLabel? && input == optionLabel.text {
      assert OccursAt(ToLower(optionLabel.text), ToLower(input), 0);
    }
  }

  /** The filter ignores the case of what is typed. */
  lemma FilterOptionIgnoresCase(input: string, optionLabel: OptionLabel)
    ensures FilterOption(ToUpper(input), optionLabel) == FilterOption(input, optionLabel)
    ensures FilterOption(ToLower(input), optionLabel) == FilterOption(input, optionLabel)
  {
    assert ToLower(ToUpper(input)) == ToLower(input);
    assert ToLower(ToLower(input)) == ToLower(input);
  }

  /** The callbacks a modal calls, in order. */
  datatype ModalCallback = CallOnCancel | CallOnSuccess

  /** A successful submit closes through `onCancel` and then calls
      `onSuccess` when it was given. */
  function SuccessCallbacks(hasOnSuccess: bool): (cs: seq<ModalCallback>)
    ensures |cs| >= 1 && cs[0] == CallOnCancel
    ensures CallOnSuccess in cs <==> hasOnSuccess
    ensures hasOnSuccess ==> cs == [CallOnCancel, CallOnSuccess]
  {
    if hasOnSuccess then [CallOnCancel, CallOnSuccess] else [CallOnCancel]
  }

  /** The `message` of a response body: absent, a string, or an object
      carrying its own `message`. */
  datatype ResponseMessage = NoMessage | TextMessage(text: string) | NestedMessage(inner: Option<string>)

  /** `data.message` used as alert text: a string shows as itself, an absent
      one shows nothing, an object shows as "[object Object]". */
  function MessageText(m: ResponseMessage): string {
    match m
    case NoMessage => ""
    case TextMessage(t) => t
    case NestedMessage(_) => "[object Object]"
  }

  /** `data.message.message`: reading it off an absent message throws a
      `TypeError`; a string has no such property. */
  function NestedMessageField(m: ResponseMessage): (r: Result<Option<string>>)
    ensures r.Failure? <==> m.NoMessage?
    ensures m.TextMessage? ==> r == Success(None)
    ensures m.NestedMessage? ==> r == Success(m.inner)
  {
    match m
    case NoMessage => Failure("TypeError")
    case TextMessage(_) => Success(None)
    case NestedMessage(inner) => Success(inner)
  }

  /** `data.message.message || fallback`, the text of the error dialog in the
      older modals: the fallback for a plain string message (the usual case),
      and a `TypeError` when there is no message. */
  function NestedMessageOr(m: ResponseMessage, fallback: string): (r: Result<string>)
    ensures r.Failure? <==> m.NoMessage?
    ensures m.TextMessage? ==> r == Success(fallback)
  {
    match NestedMessageField(m)
    case Failure(e) => Failure(e)
    case Success(inner) => Success(OrDefault(inner, fallback))
  }

  /** How the request of a submit ended: a response with its status and
      message, an `AxiosError` carrying `response.data.message` when the
      server sent one, or anything else thrown on the way. */
  datatype PostOutcome =
    | PostResponse(status: int, message: ResponseMessage)
    | PostClientError(serverMessage: Option<string>)
    | PostOtherError

  /** What a submit did besides the request: the dialog it showed, whether it
      reset the form, and the callbacks it made. */
  datatype SubmitEffects = SubmitEffects(alert: Option<Alert>, formReset: bool, callbacks: seq<ModalCallback>)

  const GenericFailureAlert := ErrorAlert("Something went wrong!", "Please try again later")
}
