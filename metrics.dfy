/**
 * Per-endpoint request metrics (src/middleware/metrics.py): the counters
 * and the bounded buffer of response times kept by `MetricsCollector`, and
 * the reports computed from them.
 *
 * Response times are real numbers of seconds; the collector's lock is not
 * modelled.
 */
module Metrics {
  import opened Wrappers

  /** `d.get(key, 0)` on a counter map; reading never inserts the key. */
  function Get(m: map<string, nat>, key: string): nat {
    if key in m then m[key] else 0
  }

  /** `d.get(key, [])` on the buffers. */
  function Samples(m: map<string, seq<real>>, key: string): seq<real> {
    if key in m then m[key] else []
  }

  /** A status code counts as a success from 200 up to 399. */
  predicate IsSuccess(statusCode: int) {
    200 <= statusCode < 400
  }

  /** The buffer after one `append` and at most one `pop(0)`. */
  function Sampled(times: seq<real>, t: real, maxSamples: nat): seq<real> {
    var appended := times + [t];
    if |appended| > maxSamples then appended[1..] else appended
  }

  /**
   * A buffer within the bound stays within it and ends with the new time:
   * it is the most recent part of the old buffer followed by the new time,
   * in order, and it loses its oldest time only when it was full.
   */
  lemma SampledSpec(times: seq<real>, t: real, maxSamples: nat)
    requires |times| <= maxSamples && maxSamples > 0
    ensures var r := Sampled(times, t, maxSamples);
      && |r| <= maxSamples
      && |r| == (if |times| == maxSamples then maxSamples else |times| + 1)
      && r == (times + [t])[|times| + 1 - |r|..]
      && r[|r| - 1] == t
  {
  }

  // ---------------------------------------------------------------------
  // Sorting and statistics of the buffer

  /** `x` put into its place in an ascending sequence. */
  function Insert(x: real, s: seq<real>): (r: seq<real>)
    ensures |r| == |s| + 1
  {
    if s == [] then [x]
    else if x <= s[0] then [x] + s
    else [s[0]] + Insert(x, s[1..])
  }

  /** `sorted(times)`. */
  function Sort(s: seq<real>): (r: seq<real>)
    ensures |r| == |s|
  {
    if s == [] then [] else Insert(s[0], Sort(s[1..]))
  }

  predicate Ascending(s: seq<real>) {
    forall i, j :: 0 <= i <= j < |s| ==> s[i] <= s[j]
  }

  lemma {:induction false} InsertSpec(x: real, s: seq<real>)
    requires Ascending(s)
    ensures Ascending(Insert(x, s))
    ensures multiset(Insert(x, s)) == multiset(s) + multiset{x}
  {
    InsertPermutes(x, s);
    InsertAscending(x, s);
  }

  lemma {:induction false} InsertPermutes(x: real, s: seq<real>)
    ensures multiset(Insert(x, s)) == multiset(s) + multiset{x}
  {
    if s != [] && x > s[0] {
      InsertPermutes(x, s[1..]);
      assert s == [s[0]] + s[1..];
    }
  }

  lemma {:induction false} InsertAscending(x: real, s: seq<real>)
    requires Ascending(s)
    ensures Ascending(Insert(x, s))
  {
    if s != [] && x > s[0] {
      var rest := s[1..];
      InsertAscending(x, rest);
      InsertPermutes(x, rest);
      var r := Insert(x, rest);
      forall k | 0 <= k < |r|
        ensures s[0] <= r[k]
      {
        assert r[k] in multiset(r);
        assert r[k] == x || r[k] in multiset(rest);
        if r[k] != x {
          var j :| 0 <= j < |rest| && rest[j] == r[k];
          assert s[j + 1] == r[k];
        }
      }
      assert Insert(x, s) == [s[0]] + r;
    }
  }

  /** The sorted times are ascending and are the same times. */
  lemma {:induction false} SortSpec(s: seq<real>)
    ensures Ascending(Sort(s))
    ensures multiset(Sort(s)) == multiset(s)
  {
    if s != [] {
      SortSpec(s[1..]);
      InsertSpec(s[0], Sort(s[1..]));
      assert s == [s[0]] + s[1..];
    }
  }

  function Sum(s: seq<real>): real {
    if s == [] then 0.0 else Sum(s[..|s| - 1]) + s[|s| - 1]
  }

  /** `min(times)`. */
  function Min(s: seq<real>): real
    requires s != []
  {
    if |s| == 1 then s[0]
    else
      var rest := Min(s[1..]);
      if s[0] <= rest then s[0] else rest
  }

  /** `max(times)`. */
  function Max(s: seq<real>): real
    requires s != []
  {
    if |s| == 1 then s[0]
    else
      var rest := Max(s[1..]);
      if s[0] >= rest then s[0] else rest
  }

  /** The minimum and the maximum bound every time. */
  lemma {:induction false} MinMaxBound(s: seq<real>)
    requires s != []
    ensures forall x :: x in s ==> Min(s) <= x <= Max(s)
    ensures Min(s) in s && Max(s) in s
  {
    if |s| > 1 {
      MinMaxBound(s[1..]);
      assert forall x :: x in s <==> x == s[0] || x in s[1..];
    }
  }

  /** `int(n * p / 100)`: the index of the p-th percentile of n sorted samples. */
  function PercentileIndex(n: nat, p: nat): nat {
    n * p / 100
  }

  /** Each percentile index lies inside the samples, and a higher percentile never has a lower index. */
  lemma PercentileIndexSpec(n: nat, p: nat, q: nat)
    requires n > 0 && p <= q < 100
    ensures PercentileIndex(n, p) <= PercentileIndex(n, q) < n
  {
    assert n * p <= n * q by {
      MultiplyMonotone(n, p, q);
    }
    assert n * q < n * 100 by {
      MultiplyMonotone(n, q, 99);
    }
  }

  lemma MultiplyMonotone(n: nat, p: nat, q: nat)
    requires p <= q
    ensures n * p <= n * q
  {
  }

  // ---------------------------------------------------------------------
  // Reports

  /** What `_get_endpoint_metrics` returns. */
  datatype EndpointReport = EndpointReport(
    endpoint: string,
    requestCount: nat,
    successCount: nat,
    errorCount: nat,
    successRate: real,
    avgResponseTime: real,
    minResponseTime: real,
    maxResponseTime: real,
    p50ResponseTime: real,
    p95ResponseTime: real,
    p99ResponseTime: real)

  /** The report on one endpoint, from its buffer and its three counters. */
  function Report(endpoint: string, times: seq<real>, requests: nat, successes: nat, errors: nat): EndpointReport {
    if times == [] then EndpointReport(endpoint, requests, successes, errors, 0.0, 0.0, 0.0, 0.0, 0.0, 0.0, 0.0)
    else
      var sorted := Sort(times);
      var n := |sorted|;
      EndpointReport(endpoint, requests, successes, errors,
        if requests > 0 then successes as real / requests as real else 0.0,
        Sum(times) / n as real,
        Min(times),
        Max(times),
        sorted[PercentileIndex(n, 50)],
        sorted[PercentileIndex(n, 95)],
        sorted[PercentileIndex(n, 99)])
  }

  /** An endpoint without samples reports its counters and zero for every rate and time. */
  lemma ReportWithoutSamples(endpoint: string, requests: nat, successes: nat, errors: nat)
    ensures Report(endpoint, [], requests, successes, errors)
         == EndpointReport(endpoint, requests, successes, errors, 0.0, 0.0, 0.0, 0.0, 0.0, 0.0, 0.0)
  {
  }

  /**
   * With samples, the percentiles are recorded times, in order between the
   * fastest and the slowest; the mean is the sum over the count; the
   * success rate is the share of successes, and zero when nothing was
   * counted.
   */
  lemma ReportSpec(endpoint: string, times: seq<real>, requests: nat, successes: nat, errors: nat)
    requires times != []
    ensures var r := Report(endpoint, times, requests, successes, errors);
      && r.endpoint == endpoint && r.requestCount == requests
      && r.successCount == successes && r.errorCount == errors
      && r.successRate == (if requests > 0 then successes as real / requests as real else 0.0)
      && r.avgResponseTime == Sum(times) / |times| as real
      && r.p50ResponseTime in times && r.p95ResponseTime in times && r.p99ResponseTime in times
      && r.minResponseTime <= r.p50ResponseTime <= r.p95ResponseTime <= r.p99ResponseTime <= r.maxResponseTime
  {
    var sorted := Sort(times);
    var n := |sorted|;
    var i50, i95, i99 := PercentileIndex(n, 50), PercentileIndex(n, 95), PercentileIndex(n, 99);
    PercentileIndexSpec(n, 50, 95);
    PercentileIndexSpec(n, 95, 99);
    SortedPicks(times, i50, i95, i99);
    MinMaxBound(times);
    var r := Report(endpoint, times, requests, successes, errors);
    assert r.p50ResponseTime == sorted[i50] && r.p95ResponseTime == sorted[i95] && r.p99ResponseTime == sorted[i99];
  }

  /** Entries picked from the sorted times at ascending indices are times, in ascending order. */
  lemma SortedPicks(times: seq<real>, i: nat, j: nat, k: nat)
    requires i <= j <= k < |times|
    ensures var sorted := Sort(times);
      && sorted[i] in times && sorted[j] in times && sorted[k] in times
      && sorted[i] <= sorted[j] <= sorted[k]
  {
    var sorted := Sort(times);
    SortSpec(times);
    assert sorted[i] in multiset(sorted) && sorted[j] in multiset(sorted) && sorted[k] in multiset(sorted);
  }

  /** `summary` in `_get_all_metrics`. */
  datatype Summary = Summary(totalRequests: nat, totalSuccess: nat, totalErrors: nat, overallSuccessRate: real)

  /** `sum(m.values())`, added over the given keys; keys absent from the map count 0. */
  ghost function TotalOver(m: map<string, nat>, keys: set<string>): nat
    decreases keys
  {
    if keys == {} then 0
    else
      var k :| k in keys;
      Get(m, k) + TotalOver(m, keys - {k})
  }

  /** The total does not depend on which key is taken first. */
  lemma {:induction false} TotalOverAny(m: map<string, nat>, keys: set<string>, x: string)
    requires x in keys
    ensures TotalOver(m, keys) == Get(m, x) + TotalOver(m, keys - {x})
    decreases keys
  {
    var k :| k in keys && TotalOver(m, keys) == Get(m, k) + TotalOver(m, keys - {k});
    if k != x {
      TotalOverAny(m, keys - {k}, x);
      TotalOverAny(m, keys - {x}, k);
      assert keys - {k} - {x} == keys - {x} - {k};
    }
  }

  /** Adding keys the map does not hold leaves the total unchanged. */
  lemma {:induction false} TotalOverExtra(m: map<string, nat>, keys: set<string>)
    requires m.Keys <= keys
    ensures TotalOver(m, keys) == TotalOver(m, m.Keys)
    decreases keys
  {
    if keys != m.Keys {
      var x :| x in keys && x !in m;
      TotalOverAny(m, keys, x);
      TotalOverExtra(m, keys - {x});
    }
  }

  /** Totals over the same keys add up pointwise. */
  lemma {:induction false} TotalOverSum(a: map<string, nat>, b: map<string, nat>, c: map<string, nat>, keys: set<string>)
    requires forall k :: k in keys ==> Get(a, k) == Get(b, k) + Get(c, k)
    ensures TotalOver(a, keys) == TotalOver(b, keys) + TotalOver(c, keys)
    decreases keys
  {
    if keys != {} {
      var k :| k in keys;
      TotalOverAny(a, keys, k);
      TotalOverAny(b, keys, k);
      TotalOverAny(c, keys, k);
      TotalOverSum(a, b, c, keys - {k});
    }
  }

  /** `sum(m.values())`, one key at a time. */
  method SumValues(m: map<string, nat>) returns (total: nat)
    ensures total == TotalOver(m, m.Keys)
  {
    total := 0;
    var pending := m.Keys;
    while pending != {}
      invariant pending <= m.Keys
      invariant total + TotalOver(m, pending) == TotalOver(m, m.Keys)
      decreases pending
    {
      var k :| k in pending;
      TotalOverAny(m, pending, k);
      total := total + m[k];
      pending := pending - {k};
    }
  }

  /** What `_get_all_metrics` returns. */
  datatype AllReport = AllReport(endpoints: map<string, EndpointReport>, summary: Summary)

  /** The answer of `get_metrics`: one endpoint's report, or the report over all endpoints. */
  datatype MetricsView = EndpointView(report: EndpointReport) | AllView(all: AllReport)

  // ---------------------------------------------------------------------
  // The collector

  /**
   * The collector's four maps agree: each endpoint's requests are its
   * successes and errors; only counted endpoints have buffers or success
   * and error counters, and a buffer is never empty nor longer than the
   * sample bound.
   */
  predicate Consistent(responseTimes: map<string, seq<real>>, requestCounts: map<string, nat>,
                       successCounts: map<string, nat>, errorCounts: map<string, nat>, maxSamples: nat) {
    && maxSamples > 0
    && responseTimes.Keys == requestCounts.Keys
    && successCounts.Keys <= requestCounts.Keys
    && errorCounts.Keys <= requestCounts.Keys
    && (forall e :: e in requestCounts ==> requestCounts[e] == Get(successCounts, e) + Get(errorCounts, e))
    && (forall e :: e in responseTimes ==> 0 < |responseTimes[e]| <= maxSamples)
  }

  /** The buffer map after `record_request`. */
  function RecordedTimes(responseTimes: map<string, seq<real>>, maxSamples: nat, endpoint: string, responseTime: real)
    : map<string, seq<real>>
  {
    responseTimes[endpoint := Sampled(Samples(responseTimes, endpoint), responseTime, maxSamples)]
  }

  /** A counter map after one increment of the endpoint's entry: `d[endpoint] += 1` on a defaultdict. */
  function Incremented(counts: map<string, nat>, endpoint: string): map<string, nat> {
    counts[endpoint := Get(counts, endpoint) + 1]
  }

  /**
   * Recording keeps the maps consistent: the endpoint's requests and
   * exactly one of its successes or errors go up by one, and its buffer
   * stays within the bound.
   */
  lemma RecordedConsistent(responseTimes: map<string, seq<real>>, requestCounts: map<string, nat>,
                           successCounts: map<string, nat>, errorCounts: map<string, nat>, maxSamples: nat,
                           endpoint: string, responseTime: real, success: bool)
    requires Consistent(responseTimes, requestCounts, successCounts, errorCounts, maxSamples)
    ensures Consistent(RecordedTimes(responseTimes, maxSamples, endpoint, responseTime),
                       Incremented(requestCounts, endpoint),
                       if success then Incremented(successCounts, endpoint) else successCounts,
                       if success then errorCounts else Incremented(errorCounts, endpoint),
                       maxSamples)
  {
    RecordedBuffers(responseTimes, requestCounts, maxSamples, endpoint, responseTime);
    RecordedCounts(requestCounts, successCounts, errorCounts, endpoint, success);
  }

  lemma RecordedBuffers(responseTimes: map<string, seq<real>>, requestCounts: map<string, nat>, maxSamples: nat,
                        endpoint: string, responseTime: real)
    requires maxSamples > 0 && responseTimes.Keys == requestCounts.Keys
    requires forall e :: e in responseTimes ==> 0 < |responseTimes[e]| <= maxSamples
    ensures var rt := RecordedTimes(responseTimes, maxSamples, endpoint, responseTime);
      && rt.Keys == Incremented(requestCounts, endpoint).Keys
      && forall e :: e in rt ==> 0 < |rt[e]| <= maxSamples
  {
    SampledSpec(Samples(responseTimes, endpoint), responseTime, maxSamples);
  }

  lemma RecordedCounts(requestCounts: map<string, nat>, successCounts: map<string, nat>, errorCounts: map<string, nat>,
                       endpoint: string, success: bool)
    requires successCounts.Keys <= requestCounts.Keys && errorCounts.Keys <= requestCounts.Keys
    requires forall e :: e in requestCounts ==> requestCounts[e] == Get(successCounts, e) + Get(errorCounts, e)
    ensures var rc := Incremented(requestCounts, endpoint);
      var sc := if success then Incremented(successCounts, endpoint) else successCounts;
      var ec := if success then errorCounts else Incremented(errorCounts, endpoint);
      && sc.Keys <= rc.Keys && ec.Keys <= rc.Keys
      && forall e :: e in rc ==> rc[e] == Get(sc, e) + Get(ec, e)
  {
    var rc := Incremented(requestCounts, endpoint);
    var sc := if success then Incremented(successCounts, endpoint) else successCounts;
    var ec := if success then errorCounts else Incremented(errorCounts, endpoint);
    forall e | e in rc
      ensures rc[e] == Get(sc, e) + Get(ec, e)
    {
      if e == endpoint {
        if endpoint !in requestCounts {
          assert endpoint !in successCounts && endpoint !in errorCounts;
        }
      } else {
        assert e in requestCounts;
      }
    }
  }


  /** `MetricsCollector`. */
  class MetricsCollector {
    var responseTimes: map<string, seq<real>>
    var requestCounts: map<string, nat>
    var successCounts: map<string, nat>
    var errorCounts: map<string, nat>
    const windowSize: nat
    const maxSamples: nat

    /**
     * Each endpoint's requests are its successes and errors; only counted
     * endpoints have buffers or success and error counters, and a buffer is
     * never empty nor longer than the sample bound.
     */
    ghost predicate Valid()
      reads this
    {
      maxSamples == 1000 && Consistent(responseTimes, requestCounts, successCounts, errorCounts, maxSamples)
    }

    constructor()
      ensures Valid()
      ensures responseTimes == map[] && requestCounts == map[] && successCounts == map[] && errorCounts == map[]
      ensures windowSize == 3600 && maxSamples == 1000
    {
      responseTimes := map[];
      requestCounts := map[];
      successCounts := map[];
      errorCounts := map[];
      windowSize := 3600;
      maxSamples := 1000;
    }

    /** `record_request`. */
    method RecordRequest(endpoint: string, responseTime: real, statusCode: int)
      requires Valid()
      modifies this
      ensures Valid()
      ensures responseTimes == RecordedTimes(old(responseTimes), maxSamples, endpoint, responseTime)
      ensures requestCounts == Incremented(old(requestCounts), endpoint)
      ensures successCounts == if IsSuccess(statusCode) then Incremented(old(successCounts), endpoint) else old(successCounts)
      ensures errorCounts == if IsSuccess(statusCode) then old(errorCounts) else Incremented(old(errorCounts), endpoint)
    {
      RecordedConsistent(responseTimes, requestCounts, successCounts, errorCounts, maxSamples,
                         endpoint, responseTime, IsSuccess(statusCode));
      var times := Samples(responseTimes, endpoint);
      times := times + [responseTime];
      if |times| > maxSamples {
        times := times[1..];
      }
      responseTimes := responseTimes[endpoint := times];
      requestCounts := Incremented(requestCounts, endpoint);
      if IsSuccess(statusCode) {
        successCounts := Incremented(successCounts, endpoint);
      } else {
        errorCounts := Incremented(errorCounts, endpoint);
      }
    }

    /** `_get_endpoint_metrics`: a read that inserts nothing. */
    function EndpointMetrics(endpoint: string): EndpointReport
      reads this
    {
      Report(endpoint, Samples(responseTimes, endpoint), Get(requestCounts, endpoint),
             Get(successCounts, endpoint), Get(errorCounts, endpoint))
    }

    /**
     * A counted endpoint reports requests equal to successes plus errors,
     * and an endpoint never seen reports zero for everything.
     */
    lemma EndpointMetricsCounts(endpoint: string)
      requires Valid()
      ensures var r := EndpointMetrics(endpoint);
        && r.requestCount == r.successCount + r.errorCount
        && (endpoint !in requestCounts ==> r == EndpointReport(endpoint, 0, 0, 0, 0.0, 0.0, 0.0, 0.0, 0.0, 0.0, 0.0))
    {
    }

    /** `_get_all_metrics`: a report for every counted endpoint and the totals over all of them. */
    method GetAllMetrics() returns (r: AllReport)
      ensures r.endpoints == map e | e in requestCounts :: EndpointMetrics(e)
      ensures r.summary.totalRequests == TotalOver(requestCounts, requestCounts.Keys)
      ensures r.summary.totalSuccess == TotalOver(successCounts, successCounts.Keys)
      ensures r.summary.totalErrors == TotalOver(errorCounts, errorCounts.Keys)
      ensures r.summary.overallSuccessRate ==
        if r.summary.totalRequests > 0 then r.summary.totalSuccess as real / r.summary.totalRequests as real else 0.0
    {
      var totalRequests := SumValues(requestCounts);
      var totalSuccess := SumValues(successCounts);
      var totalErrors := SumValues(errorCounts);
      var rate := if totalRequests > 0 then totalSuccess as real / totalRequests as real else 0.0;
      r := AllReport(map e | e in requestCounts :: EndpointMetrics(e), Summary(totalRequests, totalSuccess, totalErrors, rate));
    }

    /**
     * `get_metrics`: the report of the named endpoint, or, when no name or
     * an empty one is given, the report over all endpoints.
     */
    method GetMetrics(endpoint: Option<string>) returns (r: MetricsView)
      ensures r.EndpointView? <==> endpoint.Some? && endpoint.value != ""
      ensures r.EndpointView? ==> r.report == EndpointMetrics(endpoint.value)
      ensures r.AllView? ==> r.all.endpoints == map e | e in requestCounts :: EndpointMetrics(e)
      ensures r.AllView? ==> r.all.summary.totalRequests == TotalOver(requestCounts, requestCounts.Keys)
      ensures r.AllView? ==> r.all.summary.totalSuccess == TotalOver(successCounts, successCounts.Keys)
      ensures r.AllView? ==> r.all.summary.totalErrors == TotalOver(errorCounts, errorCounts.Keys)
      ensures r.AllView? ==>
        r.all.summary.overallSuccessRate ==
          if r.all.summary.totalRequests > 0 then r.all.summary.totalSuccess as real / r.all.summary.totalRequests as real else 0.0
    {
      if endpoint.Some? && endpoint.value != "" {
        r := EndpointView(EndpointMetrics(endpoint.value));
      } else {
        var all := GetAllMetrics();
        r := AllView(all);
      }
    }

    /** The totals also add up: all requests are all successes plus all errors. */
    lemma TotalsAddUp()
      requires Valid()
      ensures TotalOver(requestCounts, requestCounts.Keys)
           == TotalOver(successCounts, successCounts.Keys) + TotalOver(errorCounts, errorCounts.Keys)
    {
      TotalOverSum(requestCounts, successCounts, errorCounts, requestCounts.Keys);
      TotalOverExtra(successCounts, requestCounts.Keys);
      TotalOverExtra(errorCounts, requestCounts.Keys);
    }

    /** `reset`. */
    method Reset()
      requires Valid()
      modifies this
      ensures Valid()
      ensures responseTimes == map[] && requestCounts == map[] && successCounts == map[] && errorCounts == map[]
    {
      responseTimes := map[];
      requestCounts := map[];
      successCounts := map[];
      errorCounts := map[];
    }
  }

  /** Paths the metrics middleware does not record. */
  predicate Unrecorded(path: string) {
    path in ["/", "/docs", "/openapi.json", "/redoc", "/metrics"]
  }

  /**
   * `metrics_middleware`: the handler's status code is recorded with the
   * elapsed time; a handler that raised (`None`) is recorded as a 500.
   */
  method MetricsMiddleware(collector: MetricsCollector, path: string, handled: Option<int>, responseTime: real)
    requires collector.Valid()
    modifies collector
    ensures collector.Valid()
    ensures Unrecorded(path) ==>
      (collector.requestCounts == old(collector.requestCounts)
       && collector.responseTimes == old(collector.responseTimes)
       && collector.successCounts == old(collector.successCounts) && collector.errorCounts == old(collector.errorCounts))
    ensures !Unrecorded(path) ==>
      var statusCode := if handled.Some? then handled.value else 500;
      && collector.responseTimes == RecordedTimes(old(collector.responseTimes), collector.maxSamples, path, responseTime)
      && collector.requestCounts == Incremented(old(collector.requestCounts), path)
      && collector.successCounts == (if IsSuccess(statusCode) then Incremented(old(collector.successCounts), path) else old(collector.successCounts))
      && collector.errorCounts == (if IsSuccess(statusCode) then old(collector.errorCounts) else Incremented(old(collector.errorCounts), path))
  {
    if Unrecorded(path) {
      return;
    }
    var statusCode := if handled.Some? then handled.value else 500;
    collector.RecordRequest(path, responseTime, statusCode);
  }
}
