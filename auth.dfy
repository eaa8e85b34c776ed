/** The shared auth helpers: `isValidToken`, a client-side check of a JWT's
    shape and expiry (without the signature), and `clearAuthData`, which
    forgets the session kept in the browser. */
module AuthUtils {
  import opened Wrappers
  import opened Text

  /** What `JSON.parse(atob(part))` yields for the middle part of a token:
      `null`, an object (with its `exp` claim when that is a number), or any
      other JSON value. */
  datatype Claims = NullClaims | ClaimsObject(exp: Option<int>) | OtherJson

  /** `Math.floor(Date.now() / 1000)` for a clock reading in milliseconds. */
  function CurrentSecond(nowMs: int): int {
    nowMs / 1000
  }

  /** `payload.exp` is truthy: present and not 0. */
  predicate HasExpiry(c: Claims) {
    c.ClaimsObject? && c.exp.Some? && c.exp.value != 0
  }

  /** The expiry test: `exp` is truthy and lies before the current second. */
  predicate Expired(c: Claims, nowMs: int) {
    match c
    case ClaimsObject(Some(exp)) => exp != 0 && exp < CurrentSecond(nowMs)
    case _ => false
  }

  /** `isValidToken`. `decode` stands for `JSON.parse(atob(…))`, `None` when
      either throws; reading `exp` off `null` throws as well. Every throw
      makes the answer `false`. */
  function IsValidToken(token: string, decode: string -> Option<Claims>, nowMs: int): (ok: bool)
    ensures ok ==> |Split(token, '.')| == 3 && CountChar(token, '.') == 2
    ensures ok <==>
      |Split(token, '.')| == 3
      && decode(Split(token, '.')[1]).Some?
      && !decode(Split(token, '.')[1]).value.NullClaims?
      && !Expired(decode(Split(token, '.')[1]).value, nowMs)
  {
    var parts := Split(token, '.');
    if |parts| != 3 then false
    else match decode(parts[1])
      case None => false
      case Some(NullClaims) => false
      case Some(ClaimsObject(exp)) => !(exp.Some? && exp.value != 0 && exp.value < CurrentSecond(nowMs))
      case Some(OtherJson) => true
  }

  /** The expiry check is inclusive: a token whose `exp` is the current
      second still passes, although section 4.1.4 of RFC 7519 requires the
      current time to be before `exp`. One second later it fails. */
  lemma ExpiryAtCurrentSecondAccepted(token: string, decode: string -> Option<Claims>, nowMs: int)
    requires |Split(token, '.')| == 3
    requires decode(Split(token, '.')[1]) == Some(ClaimsObject(Some(CurrentSecond(nowMs))))
    requires CurrentSecond(nowMs) != 0
    ensures IsValidToken(token, decode, nowMs)
    ensures !IsValidToken(token, decode, nowMs + 1000)
  {
    assert CurrentSecond(nowMs + 1000) == CurrentSecond(nowMs) + 1;
  }

  /** Without an `exp` (or with `exp` 0) a well-formed token never expires. */
  lemma NoExpiryNeverExpires(token: string, decode: string -> Option<Claims>, nowMs: int, laterMs: int)
    requires IsValidToken(token, decode, nowMs)
    requires !HasExpiry(decode(Split(token, '.')[1]).value)
    ensures IsValidToken(token, decode, laterMs)
  {
  }

  /** Validity only goes away with time: a token valid now was valid before. */
  lemma ValidityIsMonotone(token: string, decode: string -> Option<Claims>, earlierMs: int, nowMs: int)
    requires earlierMs <= nowMs
    requires IsValidToken(token, decode, nowMs)
    ensures IsValidToken(token, decode, earlierMs)
  {
    assert CurrentSecond(earlierMs) <= CurrentSecond(nowMs);
  }

  /** Three parts means exactly two dots: the compact serialization of
      section 7.1 of RFC 7515. A token with more or fewer dots is rejected
      whatever it decodes to. */
  lemma ThreePartsMeansTwoDots(token: string, decode: string -> Option<Claims>, nowMs: int)
    ensures |Split(token, '.')| == 3 <==> CountChar(token, '.') == 2
    ensures CountChar(token, '.') != 2 ==> !IsValidToken(token, decode, nowMs)
  {
  }

  const TokenKey := "access_token"
  const UserKey := "user"

  /** The browser's session state: `localStorage` and the cookies of the
      site, each a map from name to value. */
  class BrowserState {
    var storage: map<string, string>
    var cookies: map<string, string>

    constructor (storage0: map<string, string>, cookies0: map<string, string>)
      ensures storage == storage0 && cookies == cookies0
    {
      storage := storage0;
      cookies := cookies0;
    }

    /** `clearAuthData`: both storage keys go, and the token cookie expires
        (`max-age=0`). Nothing else changes. */
    method ClearAuthData()
      modifies this
      ensures storage == old(storage) - {TokenKey, UserKey}
      ensures cookies == old(cookies) - {TokenKey}
      ensures TokenKey !in storage && UserKey !in storage && TokenKey !in cookies
    {
      storage := storage - {TokenKey, UserKey};
      cookies := cookies - {TokenKey};
    }

    method SetItem(key: string, value: string)
      modifies this`storage
      ensures storage == old(storage)[key := value]
    {
      storage := storage[key := value];
    }

    method RemoveItem(key: string)
      modifies this`storage
      ensures storage == old(storage) - {key}
    {
      storage := storage - {key};
    }

    /** Writing `document.cookie` with a positive `max-age`. */
    method SetCookie(name: string, value: string)
      modifies this`cookies
      ensures cookies == old(cookies)[name := value]
    {
      cookies := cookies[name := value];
    }
  }
}
