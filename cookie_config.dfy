/**
 * Cookie settings: the switch that lets a client ask for cookie mode through a
 * header, and the per-frontend cookie name derived from the request origin's
 * host name (URL parsing itself is outside the model: the parsed host name,
 * or its absence when parsing fails, is an input).
 */
module CookieConfig {
  import opened Wrappers
  import opened JsMap
  import opened JsValue
  import opened Strings

  const AccessTokenName: string := "access_token"
  const RefreshTokenName: string := "refresh_token"
  const UseCookiesHeader: string := "x-use-cookies"
  const UseCookiesHeaderUpper: string := "X-USE-COOKIES"
  /** Cookie signing is switched off: the JWT is signed already. */
  const EnableCookieSigning: bool := false
  const MainDomain: string := "lead-schem.ru"

  /** `headers[name]`, `undefined` when absent. */
  function Header(headers: seq<Entry<string, Value>>, name: string): Value
  {
    Get(headers, name).GetOr(Undefined)
  }

  /** `shouldUseCookies`: the first truthy of the lower- and upper-case header must be the string `'true'`. */
  function ShouldUseCookies(headers: seq<Entry<string, Value>>): (r: bool)
    ensures Truthy(Header(headers, UseCookiesHeader)) ==> (r <==> Header(headers, UseCookiesHeader) == Str("true"))
    ensures !Truthy(Header(headers, UseCookiesHeader)) ==> (r <==> Header(headers, UseCookiesHeaderUpper) == Str("true"))
  {
    Or(Header(headers, UseCookiesHeader), Header(headers, UseCookiesHeaderUpper)) == Str("true")
  }

  /** A truthy lower-case header decides alone: the upper-case one is not consulted. */
  lemma LowerCaseHeaderWins(headers: seq<Entry<string, Value>>, other: Value)
    requires Truthy(Header(headers, UseCookiesHeader))
    ensures ShouldUseCookies(Set(headers, UseCookiesHeaderUpper, other)) == ShouldUseCookies(headers)
  {
    assert UseCookiesHeader != UseCookiesHeaderUpper;
    SetGetOther(headers, UseCookiesHeaderUpper, other, UseCookiesHeader);
  }

  /**
   * `getCookieName`: no origin gives the base name; the main domain gets the
   * `_masters` suffix; any other dotted host name gets its first label as suffix;
   * a single-label host name, or an origin that does not parse, gives the base name.
   */
  function GetCookieName(baseName: string, origin: Option<string>, hostname: Option<string>): (r: string)
    ensures origin.None? || origin == Some("") || hostname.None? ==> r == baseName
    ensures origin.Some? && origin != Some("") && hostname == Some(MainDomain) ==> r == baseName + "_masters"
    ensures origin.Some? && origin != Some("") && hostname.Some? && hostname != Some(MainDomain) ==>
      if '.' in hostname.value then
        exists k :: 0 <= k < |hostname.value| && hostname.value[k] == '.' && '.' !in hostname.value[..k]
          && r == baseName + "_" + hostname.value[..k]
      else r == baseName
  {
    if origin.None? || origin.value == "" then baseName
    else if hostname.None? then baseName
    else if hostname.value == MainDomain then baseName + "_masters"
    else
      var parts := Split(hostname.value, '.');
      SplitCount(hostname.value, '.');
      SplitFirst(hostname.value, '.');
      if |parts| >= 2 then baseName + "_" + parts[0] else baseName
  }

  /** A frontend on a subdomain gets that subdomain as the cookie-name suffix. */
  lemma SubdomainCookieName(baseName: string, origin: string, host: string)
    requires origin == "https://core.lead-schem.ru" && host == "core.lead-schem.ru"
    ensures GetCookieName(baseName, Some(origin), Some(host)) == baseName + "_core"
  {
    assert host[0] != MainDomain[0];
    assert host[..4] == "core";
    FirstLabelCookieName(baseName, origin, host, 4);
    assert baseName + "_" + "core" == baseName + "_core";
  }

  /** A dotted host name other than the main domain contributes its first label. */
  lemma FirstLabelCookieName(baseName: string, origin: string, host: string, k: nat)
    requires origin != "" && host != MainDomain
    requires k < |host| && host[k] == '.' && '.' !in host[..k]
    ensures GetCookieName(baseName, Some(origin), Some(host)) == baseName + "_" + host[..k]
  {
    FirstLabelAt(host, k);
  }

  /** A host name without a dot keeps the base name. */
  lemma BareHostCookieName(baseName: string)
    ensures GetCookieName(baseName, Some("http://localhost:3000"), Some("localhost")) == baseName
  {
    SplitCount("localhost", '.');
  }

  lemma FirstLabelAt(s: string, k: nat)
    requires k < |s| && s[k] == '.' && '.' !in s[..k]
    ensures |Split(s, '.')| >= 2 && Split(s, '.')[0] == s[..k]
  {
    SplitFirst(s, '.');
    SplitCount(s, '.');
    assert s[k] in s;
  }
}
