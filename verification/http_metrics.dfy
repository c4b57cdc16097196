/** The server's request instrumentation: route labels for the request
    duration histogram, the response writer wrapper that remembers the
    status code, and the clamp on the metrics poll interval. Timing and the
    histogram itself are not modelled; an observation records the labels a
    request is counted under. */
module HttpMetrics {
  import opened Wrappers
  import Text
  import Numeric

  /** The only labels a request can be recorded under. */
  const Labels: set<string> := {"/", "/queues", "/queue/jobs", "/queue/:name", "/job/detail", "/metrics", "/health", "/ready"}

  /** Paths that are their own label. */
  const ExactRoutes: set<string> := {"/", "/queues", "/queue/jobs", "/job/detail", "/metrics"}

  /** normalizePath: the label a request path is counted under, and
      whether it is counted at all. */
  function NormalizePath(path: string): (r: (string, bool))
    ensures r.1 <==> r.0 in Labels
    ensures !r.1 ==> r.0 == ""
  {
    if path == "/" then ("/", true)
    else if path == "/queues" then ("/queues", true)
    else if path == "/queue/jobs" then ("/queue/jobs", true)
    else if Text.HasPrefix(path, "/queue/") then ("/queue/:name", true)
    else if path == "/job/detail" then ("/job/detail", true)
    else if path == "/metrics" then ("/metrics", true)
    else if path == "/health" || path == "/healthz" then ("/health", true)
    else if path == "/ready" || path == "/readyz" then ("/ready", true)
    else ("", false)
  }

  /** A path is counted exactly when it is an exact route, one of the
      health or readiness aliases, or starts with `/queue/`. */
  lemma NormalizePathCounts(path: string)
    ensures NormalizePath(path).1 <==>
              path in ExactRoutes || path in {"/health", "/healthz", "/ready", "/readyz"} || Text.HasPrefix(path, "/queue/")
  {
  }

  /** The exact routes are their own labels; `/queue/jobs` is matched
      before the prefix rule and keeps its own label. */
  lemma ExactRoutesKeepTheirLabel(path: string)
    requires path in ExactRoutes
    ensures NormalizePath(path) == (path, true)
  {
    if path == "/job/detail" || path == "/metrics" {
      NotUnderQueue(path);
    }
  }

  lemma NotUnderQueue(path: string)
    requires |path| >= 2 && path[1] != 'q'
    ensures !Text.HasPrefix(path, "/queue/")
  {
    if |path| >= 7 {
      assert path[..7][1] == path[1];
    }
  }

  /** Every other `/queue/...` path collapses to one label. */
  lemma QueuePathsCollapse(path: string)
    requires Text.HasPrefix(path, "/queue/") && path != "/queue/jobs"
    ensures NormalizePath(path) == ("/queue/:name", true)
  {
    assert path[6] == path[..7][6] == '/';
  }

  /** The health and readiness aliases share a label. */
  lemma AliasesShareLabel()
    ensures NormalizePath("/health") == NormalizePath("/healthz") == ("/health", true)
    ensures NormalizePath("/ready") == NormalizePath("/readyz") == ("/ready", true)
  {
  }

  /** A label is mapped to itself, so normalising twice changes nothing. */
  lemma NormalizePathIdempotent(path: string)
    requires NormalizePath(path).1
    ensures NormalizePath(NormalizePath(path).0) == NormalizePath(path)
  {
    var route := NormalizePath(path).0;
    if route == "/queue/:name" {
      QueuePathsCollapse(route);
    }
  }

  /** statusRecorder: forwards every status code to the wrapped writer and
      remembers the last one; until a code is written it holds 200. */
  class StatusRecorder {
    var status: int
    /** The codes forwarded to the wrapped writer, in order. */
    var forwarded: seq<int>

    /** The remembered status is the last code written, or 200. */
    ghost predicate Valid()
      reads this
    {
      status == if forwarded == [] then 200 else forwarded[|forwarded| - 1]
    }

    constructor ()
      ensures status == 200 && forwarded == [] && Valid()
    {
      status := 200;
      forwarded := [];
    }

    method WriteHeader(code: int)
      requires Valid()
      modifies this
      ensures status == code && forwarded == old(forwarded) + [code] && Valid()
    {
      status := code;
      forwarded := forwarded + [code];
    }
  }

  /** The status a handler leaves: the last code it wrote, or 200. */
  function FinalStatus(codes: seq<int>): int {
    if codes == [] then 200 else codes[|codes| - 1]
  }

  /** The labels one request is recorded under. */
  datatype Observation = Observation(verb: string, route: string, status: string)

  /** withHTTPMetrics around a handler that writes `codes` in order: the
      request is observed exactly when its path normalises, under the
      normalised label and the recorder's final status in decimal. */
  method InstrumentRequest(httpMethod: string, path: string, codes: seq<int>) returns (obs: Option<Observation>)
    ensures obs.Some? <==> NormalizePath(path).1
    ensures obs.Some? ==> obs.value == Observation(httpMethod, NormalizePath(path).0, Numeric.FormatInt(FinalStatus(codes)))
  {
    var rec := new StatusRecorder();
    for i := 0 to |codes|
      invariant rec.Valid() && rec.forwarded == codes[..i]
    {
      rec.WriteHeader(codes[i]);
      assert codes[..i + 1] == codes[..i] + [codes[i]];
    }
    assert codes[..|codes|] == codes;
    var (route, ok) := NormalizePath(path);
    if ok {
      obs := Some(Observation(httpMethod, route, Numeric.FormatInt(rec.status)));
    } else {
      obs := None;
    }
  }

  /** The background poller's interval: at least one second, and the
      configured value whenever that is already at least one. */
  method PollSeconds(configured: int) returns (seconds: int)
    ensures seconds >= 1
    ensures configured >= 1 ==> seconds == configured
    ensures configured < 1 ==> seconds == 1
  {
    seconds := configured;
    if seconds < 1 {
      seconds := 1;
    }
  }
}
