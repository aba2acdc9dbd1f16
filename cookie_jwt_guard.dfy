/**
 * The cookie-aware JWT guard. Before the token is verified, the guard looks for
 * the access-token cookie (signed or plain, depending on the cookie-signing
 * switch) and, when the request carries no `Authorization` header, injects the
 * cookie token as a bearer header. Token verification itself is the JWT
 * library's and is outside the model; `HandleRequest` maps its verdict to the
 * user or to an authentication error.
 */
module CookieJwtGuard {
  import opened Wrappers
  import opened JsMap
  import CookieConfig

  type Cookies = seq<Entry<string, string>>

  /** The result of the framework's `unsignCookie`. */
  datatype Unsigned = Unsigned(valid: bool, value: string)

  datatype TokenSelection = Selected(token: Option<string>) | TamperedSignature

  const TamperedMessage: string := "Invalid cookie signature detected. Possible tampering attempt."

  predicate Truthy(s: Option<string>)
  {
    s.Some? && s.value != ""
  }

  /** `rawRequest.cookies || request.cookies || null` */
  function FindCookies(raw: Option<Cookies>, parsed: Option<Cookies>): (r: Option<Cookies>)
    ensures raw.Some? ==> r == raw
    ensures raw.None? ==> r == parsed
    ensures r.None? <==> raw.None? && parsed.None?
    ensures r == raw || r == parsed
    ensures raw == Some([]) ==> r == Some([])
  {
    if raw.Some? then raw else parsed
  }

  /**
   * The cookie token: with signing on and an unsigner available, a present signed
   * cookie must carry a valid signature (an invalid one is rejected as tampering);
   * otherwise the plain cookie value is taken.
   */
  function SelectCookieToken(cookies: Option<Cookies>, signing: bool, unsign: Option<string -> Option<Unsigned>>): (r: TokenSelection)
    ensures cookies.None? ==> r == Selected(None)
    ensures cookies.Some? && !(signing && unsign.Some?) ==> r == Selected(Get(cookies.value, CookieConfig.AccessTokenName))
    ensures cookies.Some? && signing && unsign.Some? ==>
      (r == TamperedSignature <==>
        var signed := Get(cookies.value, CookieConfig.AccessTokenName);
        Truthy(signed) && unsign.value(signed.value).Some? && !unsign.value(signed.value).value.valid)
    ensures r.Selected? && r.token.Some? && cookies.Some? && signing && unsign.Some? ==>
      var signed := Get(cookies.value, CookieConfig.AccessTokenName);
      Truthy(signed) && unsign.value(signed.value) == Some(Unsigned(true, r.token.value))
  {
    if cookies.Some? && signing && unsign.Some? then
      var signed := Get(cookies.value, CookieConfig.AccessTokenName);
      if Truthy(signed) then
        var unsigned := unsign.value(signed.value);
        if unsigned.Some? && !unsigned.value.valid then TamperedSignature
        else if unsigned.Some? then Selected(Some(unsigned.value.value))
        else Selected(None)
      else Selected(None)
    else if cookies.Some? then Selected(Get(cookies.value, CookieConfig.AccessTokenName))
    else Selected(None)
  }

  /** Cookie signing is off, so the plain cookie value is what the guard takes, whatever the unsigner. */
  lemma SigningOffTakesPlainCookie(cookies: Cookies, unsign: Option<string -> Option<Unsigned>>)
    ensures SelectCookieToken(Some(cookies), CookieConfig.EnableCookieSigning, unsign)
         == Selected(Get(cookies, CookieConfig.AccessTokenName))
  {
  }

  /** The `Authorization` header after the cookie step: a cookie token fills in a missing header only. */
  function InjectedAuthorization(header: Option<string>, cookieToken: Option<string>): (r: Option<string>)
    ensures Truthy(header) ==> r == header
    ensures !Truthy(header) && Truthy(cookieToken) ==> r == Some("Bearer " + cookieToken.value)
    ensures !Truthy(cookieToken) ==> r == header
  {
    if Truthy(cookieToken) && !Truthy(header) then Some("Bearer " + cookieToken.value) else header
  }

  /** The request headers the guard reads and writes. */
  class RequestHeaders {
    var authorization: Option<string>

    constructor(authorization: Option<string>)
      ensures this.authorization == authorization
    {
      this.authorization := authorization;
    }
  }

  datatype GuardStep = DelegateToJwt | Reject(message: string)

  /**
   * `canActivate` up to the hand-over to the JWT guard: either the request is
   * rejected for a tampered cookie, leaving the headers alone, or the
   * `Authorization` header is filled from the cookie when missing and the JWT
   * guard decides.
   */
  method CanActivate(request: RequestHeaders, rawCookies: Option<Cookies>, requestCookies: Option<Cookies>,
                     unsign: Option<string -> Option<Unsigned>>)
    returns (step: GuardStep)
    modifies request
    ensures var sel := SelectCookieToken(FindCookies(rawCookies, requestCookies), CookieConfig.EnableCookieSigning, unsign);
      if sel.TamperedSignature? then step == Reject(TamperedMessage) && request.authorization == old(request.authorization)
      else step == DelegateToJwt && request.authorization == InjectedAuthorization(old(request.authorization), sel.token)
  {
    var cookies := FindCookies(rawCookies, requestCookies);
    var selection := SelectCookieToken(cookies, CookieConfig.EnableCookieSigning, unsign);
    if selection.TamperedSignature? {
      return Reject(TamperedMessage);
    }
    var cookieToken := selection.token;
    if Truthy(cookieToken) && !Truthy(request.authorization) {
      request.authorization := Some("Bearer " + cookieToken.value);
    }
    step := DelegateToJwt;
  }

  const ExpiredMessage: string := "Access token has expired. Please refresh your token."
  const InvalidMessage: string := "Invalid access token."
  const RequiredMessage: string := "Authentication required."

  datatype AuthFailure<E> = Unauthorized(message: string) | Rethrown(error: E)

  datatype Verdict<U, E> = Authenticated(user: U) | Failed(failure: AuthFailure<E>)

  /**
   * `handleRequest`: the user passes when there is no error and a user; otherwise an
   * expired or malformed token gets its fixed message, ahead of any error given,
   * and failing that the error is rethrown or a generic authentication error raised.
   */
  function HandleRequest<U, E>(err: Option<E>, user: Option<U>, infoName: Option<string>): (v: Verdict<U, E>)
    ensures v.Authenticated? <==> err.None? && user.Some?
    ensures v.Authenticated? ==> v.user == user.value
    ensures !v.Authenticated? && infoName == Some("TokenExpiredError") ==> v == Failed(Unauthorized(ExpiredMessage))
    ensures !v.Authenticated? && infoName == Some("JsonWebTokenError") ==> v == Failed(Unauthorized(InvalidMessage))
    ensures !v.Authenticated? && infoName != Some("TokenExpiredError") && infoName != Some("JsonWebTokenError") ==>
      v == Failed(if err.Some? then Rethrown(err.value) else Unauthorized(RequiredMessage))
  {
    if err.Some? || user.None? then
      if infoName == Some("TokenExpiredError") then Failed(Unauthorized(ExpiredMessage))
      else if infoName == Some("JsonWebTokenError") then Failed(Unauthorized(InvalidMessage))
      else Failed(if err.Some? then Rethrown(err.value) else Unauthorized(RequiredMessage))
    else Authenticated(user.value)
  }
}
