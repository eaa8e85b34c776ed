/** `AuthProvider` and `useAuth`: the session held in React state (`user`,
    `token`, `loading`), restored from `localStorage` on mount, set by
    `login`, cleared by `logout`, and a route guard that mirrors the edge
    middleware on the client. Navigation (`router.push`) is returned as the
    path pushed. */
module AuthContext {
  import opened Wrappers
  import opened Text
  import opened AuthUtils
  import Middleware

  /** The decoded token payload kept as the user. `email` is read by the
      layout although the `User` interface does not declare it. */
  datatype User = User(id: string, username: string, name: string, role: string, email: Option<string>)

  /** `isAuthenticated = !!token`: the same presence test the middleware
      makes on the cookie, so an empty token counts as logged out. */
  predicate IsAuthenticated(token: Option<string>) {
    token.Some? && token.value != ""
  }

  lemma IsAuthenticatedMatchesCookieTest(token: Option<string>)
    ensures IsAuthenticated(token) <==> Middleware.HasToken(token)
    ensures !IsAuthenticated(Some(""))
  {
  }

  /** The route guard's navigation: nothing while loading; otherwise a
      visitor is sent to `/login` from any other page and a signed-in user is
      sent from `/login` to `/inventory`. */
  function GuardNavigation(loading: bool, token: Option<string>, pathname: string): (push: Option<string>)
    ensures loading ==> push == None
    ensures !loading ==>
      (push == Some("/login") <==> !IsAuthenticated(token) && pathname != "/login")
    ensures !loading ==>
      (push == Some("/inventory") <==> IsAuthenticated(token) && pathname == "/login")
    ensures push.Some? ==> push.value != pathname
  {
    if loading then None
    else if !IsAuthenticated(token) && pathname != "/login" then Some("/login")
    else if IsAuthenticated(token) && pathname == "/login" then Some("/inventory")
    else None
  }

  /** Once loaded, the client guard and the edge middleware send every page
      request the same way, whenever the state token and the cookie agree
      on whether there is a session. */
  lemma GuardAgreesWithMiddleware(stateToken: Option<string>, cookie: Option<string>, pathname: string)
    requires !Middleware.IsPassThrough(pathname)
    requires IsAuthenticated(stateToken) == Middleware.HasToken(cookie)
    ensures GuardNavigation(false, stateToken, pathname)
      == (match Middleware.Decide(pathname, cookie)
          case Redirect(target) => Some(target)
          case Next => None)
  {
  }

  /** A token that comes back empty from a successful login lands on
      `/inventory` and is sent straight back to `/login`. */
  lemma LoginLanding(t: string)
    ensures GuardNavigation(false, Some(t), "/inventory") == (if t == "" then Some("/login") else None)
  {
  }

  /** What the mount effect leaves: the state token and user, and storage. */
  datatype Restored = Restored(token: Option<string>, user: Option<User>, storage: map<string, string>)

  /** Both keys are stored with non-empty values. */
  predicate HasStoredSession(storage: map<string, string>) {
    TokenKey in storage && storage[TokenKey] != "" && UserKey in storage && storage[UserKey] != ""
  }

  /** The mount effect, from the initial state (no token, no user).
      `parseUser` stands for `JSON.parse`, a `Failure` when it throws. The
      token is set before the user is parsed, so a parse failure removes
      both keys from storage but leaves the token in state. */
  function RestoreFromStorage(storage: map<string, string>, parseUser: string -> Result<User>): (r: Restored)
    ensures r.token.Some? <==> HasStoredSession(storage)
    ensures r.token.Some? ==> r.token == Some(storage[TokenKey])
    ensures r.user.Some? ==> r.token.Some? && parseUser(storage[UserKey]) == Success(r.user.value)
    ensures r.storage == storage || r.storage == storage - {TokenKey, UserKey}
    ensures r.storage != storage ==> r.token.Some? && r.user.None?
  {
    if HasStoredSession(storage) then
      match parseUser(storage[UserKey])
      case Success(u) => Restored(Some(storage[TokenKey]), Some(u), storage)
      case Failure(_) => Restored(Some(storage[TokenKey]), None, storage - {TokenKey, UserKey})
    else Restored(None, None, storage)
  }

  /** A stored user that does not parse leaves a session that is
      authenticated in this page but gone after the next reload. */
  lemma ParseFailureSessionLastsOneLoad(storage: map<string, string>, parseUser: string -> Result<User>)
    requires HasStoredSession(storage) && parseUser(storage[UserKey]).Failure?
    ensures IsAuthenticated(RestoreFromStorage(storage, parseUser).token)
    ensures RestoreFromStorage(storage, parseUser).user.None?
    ensures RestoreFromStorage(RestoreFromStorage(storage, parseUser).storage, parseUser).token.None?
  {
  }

  /** A good session restores to the same state on every reload. */
  lemma RestoreIsStable(storage: map<string, string>, parseUser: string -> Result<User>)
    requires HasStoredSession(storage) && parseUser(storage[UserKey]).Success?
    ensures RestoreFromStorage(RestoreFromStorage(storage, parseUser).storage, parseUser)
      == RestoreFromStorage(storage, parseUser)
    ensures RestoreFromStorage(storage, parseUser).user == Some(parseUser(storage[UserKey]).value)
  {
  }

  /** How `POST /auth/login` ended: a response with its status, `data.error`
      and `data.access_token`, or a thrown client error with its message. */
  datatype LoginOutcome =
    | LoginResponse(status: int, error: Option<string>, accessToken: Option<string>)
    | LoginRequestFailed(message: string)

  /** `login` either resolves or rejects with an error message. */
  datatype LoginResult = LoginSucceeded | LoginThrew(message: string)

  /** The message of the `Error` thrown for a status other than 200. */
  function RefusalMessage(error: Option<string>): (m: string)
    ensures m != ""
    ensures error.Some? && error.value != "" ==> m == error.value
    ensures error.None? || error.value == "" ==> m == "Login failed"
  {
    OrDefault(error, "Login failed")
  }

  const NoProviderMessage := "useAuth must be used within an AuthProvider"

  class AuthProvider {
    var user: Option<User>
    var token: Option<string>
    var loading: bool
    const browser: BrowserState

    constructor (browser: BrowserState)
      ensures user == None && token == None && loading
      ensures this.browser == browser
    {
      user := None;
      token := None;
      loading := true;
      this.browser := browser;
    }

    /** The mount effect, which runs on the freshly created provider. */
    method RestoreOnMount(parseUser: string -> Result<User>)
      requires token == None && user == None
      modifies this, browser`storage
      ensures Restored(token, user, browser.storage) == RestoreFromStorage(old(browser.storage), parseUser)
      ensures !loading
    {
      var storage := browser.storage;
      if TokenKey in storage && storage[TokenKey] != "" && UserKey in storage && storage[UserKey] != "" {
        token := Some(storage[TokenKey]);
        match parseUser(storage[UserKey]) {
          case Success(u) =>
            user := Some(u);
          case Failure(_) =>
            browser.RemoveItem(TokenKey);
            browser.RemoveItem(UserKey);
            assert browser.storage == storage - {TokenKey, UserKey};
        }
      }
      loading := false;
    }

    /** The guard effect after a render on `pathname`. */
    method Guard(pathname: string) returns (push: Option<string>)
      ensures push == GuardNavigation(loading, token, pathname)
    {
      push := GuardNavigation(loading, token, pathname);
    }

    function IsAuthenticatedNow(): bool
      reads this
    {
      IsAuthenticated(token)
    }

    /** `login`. `decodeUser` stands for `JSON.parse(atob(part))` on the
        token's middle part, a `Failure` with the thrown message when either
        throws. A missing `access_token` is stored as the text "undefined"
        before `split` throws on it. */
    method Login(o: LoginOutcome, decodeUser: string -> Result<User>, encodeUser: User -> string)
      returns (result: LoginResult, push: Option<string>)
      modifies this`token, this`user, browser
      ensures !(o.LoginResponse? && o.status == 200) ==>
        token == old(token) && user == old(user)
        && browser.storage == old(browser.storage) && browser.cookies == old(browser.cookies)
        && push == None
      ensures o.LoginResponse? && o.status != 200 ==> result == LoginThrew(RefusalMessage(o.error))
      ensures o.LoginRequestFailed? ==> result == LoginThrew(o.message)
      ensures o.LoginResponse? && o.status == 200 && o.accessToken.None? ==>
        token == None && user == old(user) && result == LoginThrew("TypeError") && push == None
        && browser.storage == old(browser.storage)[TokenKey := "undefined"]
        && browser.cookies == old(browser.cookies)[TokenKey := "undefined"]
      ensures o.LoginResponse? && o.status == 200 && o.accessToken.Some? ==>
        token == o.accessToken && browser.cookies == old(browser.cookies)[TokenKey := o.accessToken.value]
      ensures (o.LoginResponse? && o.status == 200 && o.accessToken.Some?
               && |Split(o.accessToken.value, '.')| >= 2
               && decodeUser(Split(o.accessToken.value, '.')[1]).Failure?) ==>
        (result == LoginThrew(decodeUser(Split(o.accessToken.value, '.')[1]).error)
         && user == old(user) && push == None
         && browser.storage == old(browser.storage)[TokenKey := o.accessToken.value])
      ensures (o.LoginResponse? && o.status == 200 && o.accessToken.Some?
               && (|Split(o.accessToken.value, '.')| < 2
                   || decodeUser(Split(o.accessToken.value, '.')[1]).Success?)) ==>
        result == LoginSucceeded
      ensures result == LoginSucceeded <==> push == Some("/inventory")
      ensures result == LoginSucceeded ==>
        o.LoginResponse? && o.status == 200 && o.accessToken.Some?
        && var parts := Split(o.accessToken.value, '.');
        (if |parts| >= 2 then
           decodeUser(parts[1]).Success? && user == Some(decodeUser(parts[1]).value)
           && browser.storage == old(browser.storage)[TokenKey := o.accessToken.value]
                                                     [UserKey := encodeUser(decodeUser(parts[1]).value)]
         else
           user == old(user) && browser.storage == old(browser.storage)[TokenKey := o.accessToken.value])
    {
      match o {
        case LoginRequestFailed(message) =>
          result, push := LoginThrew(message), None;
        case LoginResponse(status, error, accessToken) =>
          if status != 200 {
            result, push := LoginThrew(RefusalMessage(error)), None;
            return;
          }
          token := accessToken;
          var stored := if accessToken.Some? then accessToken.value else "undefined";
          browser.SetItem(TokenKey, stored);
          browser.SetCookie(TokenKey, stored);
          if accessToken.None? {
            result, push := LoginThrew("TypeError"), None;
            return;
          }
          var parts := Split(accessToken.value, '.');
          if |parts| >= 2 {
            match decodeUser(parts[1]) {
              case Failure(e) =>
                result, push := LoginThrew(e), None;
                return;
              case Success(u) =>
                user := Some(u);
                browser.SetItem(UserKey, encodeUser(u));
            }
          }
          result, push := LoginSucceeded, Some("/inventory");
      }
    }

    /** `logout`: the state, storage and cookie are cleared as
        `clearAuthData` does, and the page goes to `/login`. */
    method Logout() returns (push: Option<string>)
      modifies this`token, this`user, browser
      ensures token == None && user == None && !IsAuthenticated(token)
      ensures browser.storage == old(browser.storage) - {TokenKey, UserKey}
      ensures browser.cookies == old(browser.cookies) - {TokenKey}
      ensures push == Some("/login")
    {
      token := None;
      user := None;
      browser.ClearAuthData();
      push := Some("/login");
    }
  }

  /** `useAuth`: the provider's value, or the error it throws outside one. */
  function UseAuth(context: Option<AuthProvider>): (r: Result<AuthProvider>)
    ensures r.Success? <==> context.Some?
    ensures r.Success? ==> r.value == context.value
    ensures r.Failure? ==> r.error == NoProviderMessage
  {
    match context
    case Some(p) => Success(p)
    case None => Failure(NoProviderMessage)
  }

  /** After a logout the stored session cannot be restored. */
  lemma LoggedOutStorageRestoresNothing(storage: map<string, string>, parseUser: string -> Result<User>)
    ensures RestoreFromStorage(storage - {TokenKey, UserKey}, parseUser) == Restored(None, None, storage - {TokenKey, UserKey})
  {
  }
}
