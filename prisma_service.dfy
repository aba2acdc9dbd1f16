/**
 * The database client set-up: the connection URL gets the pool and keep-alive
 * parameters unless it already sets a connection limit, and every query's
 * duration is classified into a log level by a middleware that otherwise passes
 * the query's outcome through untouched.
 */
module PrismaService {
  import opened Wrappers
  import opened Strings

  const ConnectionParams: seq<string> := [
    "connection_limit=50",
    "pool_timeout=30",
    "connect_timeout=10",
    "socket_timeout=120",
    "keepalives=1",
    "keepalives_idle=30",
    "keepalives_interval=10",
    "keepalives_count=3"
  ]

  /** The connection URL handed to the client: `DATABASE_URL || ''`, enhanced when it sets no limit. */
  function EnhancedUrl(databaseUrl: Option<string>): (r: string)
    ensures var url := databaseUrl.GetOr("");
      Contains(url, "connection_limit") ==> r == url
    ensures var url := databaseUrl.GetOr("");
      !Contains(url, "connection_limit") ==>
        r == url + (if Contains(url, "?") then "&" else "?") + Join(ConnectionParams, "&")
    ensures Contains(r, "connection_limit")
  {
    var url := databaseUrl.GetOr("");
    var hasParams := Contains(url, "?");
    var needsParams := !Contains(url, "connection_limit");
    if needsParams then
      var r := url + (if hasParams then "&" else "?") + Join(ConnectionParams, "&");
      AppendedLimit(url, if hasParams then "&" else "?");
      r
    else url
  }

  lemma AppendedLimit(url: string, sep: string)
    requires |sep| == 1
    ensures Contains(url + sep + Join(ConnectionParams, "&"), "connection_limit")
  {
    var tail := Join(ConnectionParams, "&");
    assert tail == ConnectionParams[0] + "&" + Join(ConnectionParams[1..], "&");
    var s := url + sep + tail;
    var i := |url| + 1;
    assert s[i..] == tail;
    assert tail[..16] == "connection_limit";
    assert StartsWith(s[i..], "connection_limit");
  }

  /** Enhancing is idempotent: an enhanced URL is left as it is. */
  lemma EnhancedUrlIdempotent(databaseUrl: Option<string>)
    ensures EnhancedUrl(Some(EnhancedUrl(databaseUrl))) == EnhancedUrl(databaseUrl)
  {
  }

  const VerySlowMs: int := 5000
  const SlowMs: int := 2000
  const LongMs: int := 1000

  datatype LogLevel = Silent | LogInfo | LogWarn | LogError
  {
    function Rank(): nat
    {
      match this
      case Silent => 0
      case LogInfo => 1
      case LogWarn => 2
      case LogError => 3
    }
  }

  /** The if-chain over a query's duration: the first threshold exceeded decides. */
  function ClassifyDuration(durationMs: int): (level: LogLevel)
    ensures level == LogError <==> durationMs > VerySlowMs
    ensures level == LogWarn <==> SlowMs < durationMs <= VerySlowMs
    ensures level == LogInfo <==> LongMs < durationMs <= SlowMs
    ensures level == Silent <==> durationMs <= LongMs
  {
    if durationMs > VerySlowMs then LogError
    else if durationMs > SlowMs then LogWarn
    else if durationMs > LongMs then LogInfo
    else Silent
  }

  /** A slower query is never logged at a lower level. */
  lemma ClassifyMonotone(a: int, b: int)
    requires a <= b
    ensures ClassifyDuration(a).Rank() <= ClassifyDuration(b).Rank()
  {
  }

  datatype Outcome<T, E> = Returned(result: T) | Threw(error: E)

  /** What the middleware logs: a duration class on success, a failure record on error. */
  datatype QueryLog = Classified(level: LogLevel) | FailedAfter(durationMs: int)

  /** The query middleware: the outcome of `next` comes back unchanged, with a log record beside it. */
  function Middleware<T, E>(next: Outcome<T, E>, durationMs: int): (r: (Outcome<T, E>, QueryLog))
    ensures r.0 == next
    ensures next.Returned? ==> r.1 == Classified(ClassifyDuration(durationMs))
    ensures next.Threw? ==> r.1 == FailedAfter(durationMs)
  {
    match next
    case Returned(_) => (next, Classified(ClassifyDuration(durationMs)))
    case Threw(_) => (next, FailedAfter(durationMs))
  }
}
