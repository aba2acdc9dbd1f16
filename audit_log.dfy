/**
 * The audit interceptor's decision: every request that is not a `GET`, and
 * every `GET` under the analytics or finance-report prefixes, is audited. One
 * decision, taken before the handler runs, governs both the access record and
 * the failure record.
 */
module AuditLog {
  import opened Strings

  const AuditPaths: seq<string> := ["/api/v1/analytics", "/api/v1/reports/finance"]

  /** `auditPaths.some(path => url.startsWith(path))` */
  function UnderAuditPath(paths: seq<string>, url: string): (r: bool)
    ensures r <==> exists i :: 0 <= i < |paths| && StartsWith(url, paths[i])
  {
    if paths == [] then false else StartsWith(url, paths[0]) || UnderAuditPath(paths[1..], url)
  }

  /** `shouldAuditRequest` */
  function ShouldAuditRequest(httpMethod: string, url: string): (r: bool)
    ensures httpMethod != "GET" ==> r
    ensures httpMethod == "GET" ==>
      (r <==> StartsWith(url, "/api/v1/analytics") || StartsWith(url, "/api/v1/reports/finance"))
  {
    assert |AuditPaths| == 2 && AuditPaths[0] == "/api/v1/analytics" && AuditPaths[1] == "/api/v1/reports/finance";
    UnderAuditPath(AuditPaths, url) || httpMethod != "GET"
  }

  /** The records `intercept` writes for one request. */
  datatype AuditRecords = AuditRecords(accessLogged: bool, failureLogged: bool)

  /** `intercept`: the access record and, when the handler fails, the failure record, both under one decision. */
  function Intercept(httpMethod: string, url: string, handlerFailed: bool): (r: AuditRecords)
    ensures r.accessLogged <==> ShouldAuditRequest(httpMethod, url)
    ensures r.failureLogged <==> handlerFailed && r.accessLogged
  {
    var shouldAudit := ShouldAuditRequest(httpMethod, url);
    AuditRecords(shouldAudit, handlerFailed && shouldAudit)
  }

  /** The match is a plain prefix test: a sibling report is not audited, a longer segment is. */
  lemma PrefixExamples()
    ensures !ShouldAuditRequest("GET", "/api/v1/reports/orders")
    ensures ShouldAuditRequest("GET", "/api/v1/analyticsX")
    ensures ShouldAuditRequest("POST", "/api/v1/reports/orders")
  {
    assert "/api/v1/analyticsX"[..|"/api/v1/analytics"|] == "/api/v1/analytics";
    var orders := "/api/v1/reports/orders";
    assert orders[9] != "/api/v1/analytics"[9];
    assert orders[16] != "/api/v1/reports/finance"[16];
  }
}
