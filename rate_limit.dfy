/**
 * The in-memory sliding-window rate limiter (src/middleware/rate_limit.py):
 * rate strings, the per-client request log of `SimpleRateLimiter`, the
 * client address of a request and the limit each path gets.
 *
 * `time.time()` is a parameter `now`, in seconds, as a real number.
 */
module RateLimit {
  import opened Wrappers
  import opened Text

  // ---------------------------------------------------------------------
  // Rate strings

  /** The window, in seconds, of a lower-cased period name; an unknown name means a minute. */
  function UnitWindow(period: string): (w: nat)
    ensures w in {1, 60, 3600, 86400}
  {
    if period == "second" || period == "sec" then 1
    else if period == "minute" || period == "min" then 60
    else if period == "hour" || period == "hr" then 3600
    else if period == "day" then 86400
    else 60
  }

  /**
   * `_parse_rate_limit`: "N/period" gives N requests per period. A count
   * that `int()` rejects, or a text without "/", gives 100 per minute.
   */
  function ParseRateLimit(rateLimit: string): (int, nat) {
    var parts := Split(rateLimit, '/');
    match ParseInt(parts[0])
    case None => (100, 60)
    case Some(maxRequests) =>
      if |parts| < 2 then (100, 60) else (maxRequests, UnitWindow(Lower(parts[1])))
  }

  /** The window is always one of the four known lengths. */
  lemma ParseRateLimitWindow(rateLimit: string)
    ensures ParseRateLimit(rateLimit).1 in {1, 60, 3600, 86400}
    ensures IndexOf(rateLimit, '/').None? ==> ParseRateLimit(rateLimit) == (100, 60)
    ensures ParseInt(Split(rateLimit, '/')[0]).None? ==> ParseRateLimit(rateLimit) == (100, 60)
  {
  }

  /** The first separator after a head that has none is the one right after the head. */
  lemma {:induction false} IndexOfAfter(head: string, sep: char, rest: string)
    requires sep !in head
    ensures IndexOf(head + [sep] + rest, sep) == Some(|head|)
  {
    if head != [] {
      IndexOfAfter(head[1..], sep, rest);
      assert (head + [sep] + rest)[1..] == head[1..] + [sep] + rest;
    }
  }

  /** Splitting "head/rest" at its only separator gives the head and the rest. */
  lemma SplitOnce(head: string, sep: char, rest: string)
    requires sep !in head && sep !in rest
    ensures Split(head + [sep] + rest, sep) == [head, rest]
  {
    var s := head + [sep] + rest;
    IndexOfAfter(head, sep, rest);
    assert s[..|head|] == head;
    assert s[|head| + 1..] == rest;
  }

  /** A number written in decimal has no '/'. */
  lemma DigitsHaveNoSlash(n: nat)
    ensures '/' !in NatToString(n)
  {
    var digits := NatToString(n);
    forall i | 0 <= i < |digits| ensures digits[i] != '/' {
      assert IsDigit(digits[i]);
    }
  }

  /** "N/period" with N written in decimal reads back as N requests per that period's window. */
  lemma ParseRateLimitOf(n: nat, period: string)
    requires '/' !in period
    ensures ParseRateLimit(NatToString(n) + "/" + period) == (n, UnitWindow(Lower(period)))
  {
    var digits := NatToString(n);
    DigitsHaveNoSlash(n);
    SplitOnce(digits, '/', period);
    assert digits + "/" + period == digits + ['/'] + period;
    ParseIntToString(n);
    assert IntToString(n) == digits;
  }

  /** The three limits the middleware uses. */
  lemma MiddlewareLimits()
    ensures ParseRateLimit("10/minute") == (10, 60)
    ensures ParseRateLimit("5/minute") == (5, 60)
    ensures ParseRateLimit("100/minute") == (100, 60)
  {
    LimitTexts();
    LowerMinute();
    ParseRateLimitOf(10, "minute");
    ParseRateLimitOf(5, "minute");
    ParseRateLimitOf(100, "minute");
  }

  lemma LimitTexts()
    ensures "10/minute" == NatToString(10) + "/" + "minute"
    ensures "5/minute" == NatToString(5) + "/" + "minute"
    ensures "100/minute" == NatToString(100) + "/" + "minute"
  {
    assert NatToString(10) == "10";
  }

  lemma LowerMinute()
    ensures Lower("minute") == "minute"
  {
    var m := "minute";
    assert forall i :: 0 <= i < |m| ==> 'a' <= m[i] <= 'z';
  }

  // ---------------------------------------------------------------------
  // The request log

  /** One logged request: `(timestamp, endpoint)`. */
  datatype Entry = Entry(ts: real, endpoint: string)

  /** The entries newer than the cutoff, in their order: `[(ts, ep) for ts, ep in es if ts > cutoff]`. */
  function Recent(es: seq<Entry>, cutoff: real): (r: seq<Entry>)
    ensures |r| <= |es|
  {
    if es == [] then []
    else (if es[0].ts > cutoff then [es[0]] else []) + Recent(es[1..], cutoff)
  }

  /** Exactly the entries newer than the cutoff are kept. */
  lemma {:induction false} RecentMembers(es: seq<Entry>, cutoff: real)
    ensures forall e :: e in Recent(es, cutoff) <==> e in es && e.ts > cutoff
  {
    if es != [] {
      RecentMembers(es[1..], cutoff);
      assert forall e :: e in es <==> e == es[0] || e in es[1..];
    }
  }

  /** Dropping entries at a cutoff and then at a later one is dropping them at the later one. */
  lemma {:induction false} RecentTwice(es: seq<Entry>, early: real, late: real)
    requires early <= late
    ensures Recent(Recent(es, early), late) == Recent(es, late)
  {
    if es != [] {
      RecentTwice(es[1..], early, late);
      var head := if es[0].ts > early then [es[0]] else [];
      RecentAppend(head, Recent(es[1..], early), late);
    }
  }

  lemma {:induction false} RecentAppend(a: seq<Entry>, b: seq<Entry>, cutoff: real)
    ensures Recent(a + b, cutoff) == Recent(a, cutoff) + Recent(b, cutoff)
  {
    if a != [] {
      RecentAppend(a[1..], b, cutoff);
      var head := if a[0].ts > cutoff then [a[0]] else [];
      assert (a + b)[0] == a[0] && (a + b)[1..] == a[1..] + b;
      assert Recent(a + b, cutoff) == head + Recent(a[1..] + b, cutoff);
      assert Recent(a, cutoff) == head + Recent(a[1..], cutoff);
    } else {
      assert a + b == b;
    }
  }

  /** The entries for one endpoint newer than the cutoff: `endpoint_requests`. */
  function Matching(es: seq<Entry>, endpoint: string, cutoff: real): (r: seq<Entry>)
    ensures |r| <= |es|
  {
    if es == [] then []
    else (if es[0].endpoint == endpoint && es[0].ts > cutoff then [es[0]] else []) + Matching(es[1..], endpoint, cutoff)
  }

  /** Exactly the entries for the endpoint newer than the cutoff are counted. */
  lemma {:induction false} MatchingMembers(es: seq<Entry>, endpoint: string, cutoff: real)
    ensures forall e :: e in Matching(es, endpoint, cutoff) <==> e in es && e.endpoint == endpoint && e.ts > cutoff
  {
    if es != [] {
      MatchingMembers(es[1..], endpoint, cutoff);
      assert forall e :: e in es <==> e == es[0] || e in es[1..];
    }
  }

  lemma {:induction false} MatchingAppend(a: seq<Entry>, b: seq<Entry>, endpoint: string, cutoff: real)
    ensures Matching(a + b, endpoint, cutoff) == Matching(a, endpoint, cutoff) + Matching(b, endpoint, cutoff)
  {
    if a != [] {
      MatchingAppend(a[1..], b, endpoint, cutoff);
      var head := if a[0].endpoint == endpoint && a[0].ts > cutoff then [a[0]] else [];
      assert (a + b)[0] == a[0] && (a + b)[1..] == a[1..] + b;
      assert Matching(a + b, endpoint, cutoff) == head + Matching(a[1..] + b, endpoint, cutoff);
      assert Matching(a, endpoint, cutoff) == head + Matching(a[1..], endpoint, cutoff);
    } else {
      assert a + b == b;
    }
  }

  /** `min(ts for ts, _ in es)`. */
  function Oldest(es: seq<Entry>): real
    requires es != []
  {
    if |es| == 1 then es[0].ts
    else
      var rest := Oldest(es[1..]);
      if es[0].ts <= rest then es[0].ts else rest
  }

  /** The oldest timestamp is one of the entries' and no entry is older. */
  lemma {:induction false} OldestSpec(es: seq<Entry>)
    requires es != []
    ensures exists e :: e in es && e.ts == Oldest(es)
    ensures forall e :: e in es ==> Oldest(es) <= e.ts
  {
    if |es| == 1 {
      assert es[0] in es;
    } else {
      OldestSpec(es[1..]);
      assert forall e :: e in es <==> e == es[0] || e in es[1..];
      if es[0].ts <= Oldest(es[1..]) {
        assert es[0] in es;
      } else {
        var e :| e in es[1..] && e.ts == Oldest(es[1..]);
        assert e in es;
      }
    }
  }

  /** Python's `int()` on a float: truncation toward zero. */
  function Truncate(x: real): (n: int)
    ensures x >= 0.0 ==> n == x.Floor
    ensures x < 0.0 ==> n <= 0 && n as real - 1.0 < x <= n as real
  {
    if x >= 0.0 then x.Floor else -((-x).Floor)
  }

  /** What `is_allowed` answers. */
  datatype Decision =
    | Allowed
      // `(True, 0)`
    | Limited(retryAfter: int)
      // `(False, retry_after)`
    | NoOldest
      // a limit of 0 or less with no logged request: `min()` of nothing raises ValueError

  /**
   * The answer for a client whose log has already lost the entries outside
   * the window: allowed while fewer than `maxRequests` entries for this
   * endpoint lie inside the window, otherwise limited until the oldest of
   * them leaves it.
   */
  function Decide(es: seq<Entry>, endpoint: string, maxRequests: int, window: nat, now: real): Decision {
    var inWindow := Matching(es, endpoint, now - window as real);
    if |inWindow| >= maxRequests then
      if inWindow == [] then NoOldest
      else Limited(Truncate(window as real - (now - Oldest(inWindow))) + 1)
    else Allowed
  }

  /**
   * A request is allowed exactly when fewer than `maxRequests` requests to
   * the same endpoint lie inside the window; `min()` fails only for a
   * limit of 0 or less.
   */
  lemma DecideSpec(es: seq<Entry>, endpoint: string, maxRequests: int, window: nat, now: real)
    ensures var d := Decide(es, endpoint, maxRequests, window, now);
      var inWindow := Matching(es, endpoint, now - window as real);
      && (d.Allowed? <==> |inWindow| < maxRequests)
      && (d.NoOldest? <==> maxRequests <= 0 && inWindow == [])
      && (d.Limited? <==> |inWindow| >= maxRequests && inWindow != [])
  {
  }

  /**
   * A limited request is told to come back after at least one second, and
   * after exactly the whole seconds it takes for the oldest request in the
   * window to leave it: `retry_after` seconds later that request has left
   * the window, and one second earlier it still lay inside the window or
   * on its edge (on the edge exactly when the wait is a whole number).
   */
  lemma RetryAfterSpec(es: seq<Entry>, endpoint: string, maxRequests: int, window: nat, now: real)
    requires Decide(es, endpoint, maxRequests, window, now).Limited?
    ensures var retry := Decide(es, endpoint, maxRequests, window, now).retryAfter;
      var oldest := Oldest(Matching(es, endpoint, now - window as real));
      && retry >= 1
      && oldest <= (now + retry as real) - window as real
      && oldest >= (now + (retry - 1) as real) - window as real
  {
    var inWindow := Matching(es, endpoint, now - window as real);
    MatchingMembers(es, endpoint, now - window as real);
    var oldest := Oldest(inWindow);
    OldestSpec(inWindow);
    assert oldest > now - window as real;
    var x := window as real - (now - oldest);
    assert x > 0.0;
    assert Decide(es, endpoint, maxRequests, window, now).retryAfter == x.Floor + 1;
  }

  /** The log a client has after one call, and the answer it gets. */
  function Admit(es: seq<Entry>, endpoint: string, maxRequests: int, window: nat, now: real): (seq<Entry>, Decision) {
    var kept := Recent(es, now - window as real);
    var d := Decide(kept, endpoint, maxRequests, window, now);
    (if d.Allowed? then kept + [Entry(now, endpoint)] else kept, d)
  }

  /** The answers to a client's calls to one endpoint at the given times. */
  function Run(es: seq<Entry>, endpoint: string, maxRequests: int, window: nat, times: seq<real>): seq<Decision>
    decreases |times|
  {
    if times == [] then []
    else
      var (next, d) := Admit(es, endpoint, maxRequests, window, times[0]);
      [d] + Run(next, endpoint, maxRequests, window, times[1..])
  }

  /** A client's logged requests to one endpoint, whatever their age. */
  function Mine(es: seq<Entry>, endpoint: string): seq<Entry> {
    if es == [] then []
    else (if es[0].endpoint == endpoint then [es[0]] else []) + Mine(es[1..], endpoint)
  }

  lemma {:induction false} MineMembers(es: seq<Entry>, endpoint: string)
    ensures forall e :: e in Mine(es, endpoint) <==> e in es && e.endpoint == endpoint
  {
    if es != [] {
      MineMembers(es[1..], endpoint);
      assert forall e :: e in es <==> e == es[0] || e in es[1..];
    }
  }

  /** When every request to the endpoint is newer than the cutoff, the window holds all of them. */
  lemma {:induction false} MatchingIsMine(es: seq<Entry>, endpoint: string, cutoff: real)
    requires forall e :: e in es && e.endpoint == endpoint ==> e.ts > cutoff
    ensures Matching(es, endpoint, cutoff) == Mine(es, endpoint)
  {
    if es != [] {
      MatchingIsMine(es[1..], endpoint, cutoff);
    }
  }

  /** ... and dropping the older entries loses none of them. */
  lemma {:induction false} MineOfRecent(es: seq<Entry>, endpoint: string, cutoff: real)
    requires forall e :: e in es && e.endpoint == endpoint ==> e.ts > cutoff
    ensures Mine(Recent(es, cutoff), endpoint) == Mine(es, endpoint)
  {
    if es != [] {
      MineOfRecent(es[1..], endpoint, cutoff);
      var head := if es[0].ts > cutoff then [es[0]] else [];
      MineAppend(head, Recent(es[1..], cutoff), endpoint);
    }
  }

  lemma {:induction false} MineAppend(a: seq<Entry>, b: seq<Entry>, endpoint: string)
    ensures Mine(a + b, endpoint) == Mine(a, endpoint) + Mine(b, endpoint)
  {
    if a != [] {
      MineAppend(a[1..], b, endpoint);
      var head := if a[0].endpoint == endpoint then [a[0]] else [];
      assert (a + b)[0] == a[0] && (a + b)[1..] == a[1..] + b;
      assert Mine(a + b, endpoint) == head + Mine(a[1..] + b, endpoint);
      assert Mine(a, endpoint) == head + Mine(a[1..], endpoint);
    } else {
      assert a + b == b;
    }
  }

  /**
   * Calls to one endpoint from a client with no earlier call to it, all
   * made within one window of the first call: the first `maxRequests` are
   * allowed and every later one is limited. Requests to other endpoints in
   * the log do not count.
   */
  lemma FirstCallsAllowed(es: seq<Entry>, endpoint: string, maxRequests: int, window: nat, times: seq<real>)
    requires forall e :: e in es ==> e.endpoint != endpoint
    requires forall i :: 0 <= i < |times| ==> times[0] <= times[i] < times[0] + window as real
    ensures |Run(es, endpoint, maxRequests, window, times)| == |times|
    ensures forall i :: 0 <= i < |times| ==>
      (Run(es, endpoint, maxRequests, window, times)[i].Allowed? <==> i < maxRequests)
  {
    if times != [] {
      MineMembers(es, endpoint);
      if Mine(es, endpoint) != [] {
        assert Mine(es, endpoint)[0] in Mine(es, endpoint);
      }
      RunFrom(es, endpoint, maxRequests, window, times, times[0]);
    }
  }

  /**
   * One call, while the requests to the endpoint all lie inside the window:
   * it is allowed exactly when they number fewer than `maxRequests`, and
   * an allowed call adds one request to them.
   */
  lemma AdmitCounts(es: seq<Entry>, endpoint: string, maxRequests: int, window: nat, now: real, start: real)
    requires forall e :: e in es && e.endpoint == endpoint ==> e.ts >= start
    requires start <= now < start + window as real
    ensures var outcome := Admit(es, endpoint, maxRequests, window, now);
      && (outcome.1.Allowed? <==> |Mine(es, endpoint)| < maxRequests)
      && |Mine(outcome.0, endpoint)| == |Mine(es, endpoint)| + (if outcome.1.Allowed? then 1 else 0)
      && (forall e :: e in outcome.0 && e.endpoint == endpoint ==> e.ts >= start)
  {
    var cutoff := now - window as real;
    var kept := Recent(es, cutoff);
    KeptInWindow(es, endpoint, cutoff, start);
    DecideSpec(kept, endpoint, maxRequests, window, now);
    var d := Decide(kept, endpoint, maxRequests, window, now);
    if d.Allowed? {
      AppendMine(kept, endpoint, now, start);
    }
  }

  /** Dropping what lies before the window keeps every request to the endpoint, and they are the ones counted. */
  lemma KeptInWindow(es: seq<Entry>, endpoint: string, cutoff: real, start: real)
    requires forall e :: e in es && e.endpoint == endpoint ==> e.ts >= start
    requires cutoff < start
    ensures Mine(Recent(es, cutoff), endpoint) == Mine(es, endpoint)
    ensures Matching(Recent(es, cutoff), endpoint, cutoff) == Mine(es, endpoint)
    ensures forall e :: e in Recent(es, cutoff) && e.endpoint == endpoint ==> e.ts >= start
  {
    MineOfRecent(es, endpoint, cutoff);
    RecentMembers(es, cutoff);
    MatchingIsMine(Recent(es, cutoff), endpoint, cutoff);
  }

  /** Appending a request to the endpoint adds one to its requests. */
  lemma AppendMine(es: seq<Entry>, endpoint: string, now: real, start: real)
    requires forall e :: e in es && e.endpoint == endpoint ==> e.ts >= start
    requires start <= now
    ensures |Mine(es + [Entry(now, endpoint)], endpoint)| == |Mine(es, endpoint)| + 1
    ensures forall e :: e in es + [Entry(now, endpoint)] && e.endpoint == endpoint ==> e.ts >= start
  {
    var x := Entry(now, endpoint);
    MineAppend(es, [x], endpoint);
    assert Mine([x], endpoint) == [x] + Mine([x][1..], endpoint);
    assert forall e :: e in es + [x] ==> e in es || e == x;
  }


  /**
   * The induction behind FirstCallsAllowed: while every request to the
   * endpoint dates from `start` or later and every call comes before
   * `start` plus the window, the i-th call is allowed exactly when the
   * earlier requests to the endpoint and the i allowed ones before it
   * number fewer than `maxRequests`.
   */
  lemma {:induction false} RunFrom(es: seq<Entry>, endpoint: string, maxRequests: int, window: nat,
                                   times: seq<real>, start: real)
    requires forall e :: e in es && e.endpoint == endpoint ==> e.ts >= start
    requires forall i :: 0 <= i < |times| ==> start <= times[i] < start + window as real
    ensures |Run(es, endpoint, maxRequests, window, times)| == |times|
    ensures forall i :: 0 <= i < |times| ==>
      (Run(es, endpoint, maxRequests, window, times)[i].Allowed? <==> |Mine(es, endpoint)| + i < maxRequests)
    decreases |times|
  {
    if times != [] {
      var (next, d) := Admit(es, endpoint, maxRequests, window, times[0]);
      AdmitCounts(es, endpoint, maxRequests, window, times[0], start);
      RunFrom(next, endpoint, maxRequests, window, times[1..], start);
      assert Run(es, endpoint, maxRequests, window, times) == [d] + Run(next, endpoint, maxRequests, window, times[1..]);
    }
  }

  // ---------------------------------------------------------------------
  // The limiter

  /** A client's log, or none: `self.requests.get(client_ip, [])`. */
  function LogOf(requests: map<string, seq<Entry>>, client: string): seq<Entry> {
    if client in requests then requests[client] else []
  }

  /** Every client's log without the entries at or before the cutoff; clients left with nothing are removed. */
  function Swept(requests: map<string, seq<Entry>>, cutoff: real): map<string, seq<Entry>> {
    map c | c in requests && Recent(requests[c], cutoff) != [] :: Recent(requests[c], cutoff)
  }

  /**
   * A sweep keeps exactly the entries newer than the cutoff, client by
   * client, and leaves no client with an empty log.
   */
  lemma SweptSpec(requests: map<string, seq<Entry>>, cutoff: real, client: string)
    ensures forall e :: e in LogOf(Swept(requests, cutoff), client) <==> e in LogOf(requests, client) && e.ts > cutoff
    ensures client in Swept(requests, cutoff) ==> client in requests && Swept(requests, cutoff)[client] != []
  {
    if client in requests {
      RecentMembers(requests[client], cutoff);
    }
  }

  /** The requests after `_cleanup_old_entries`: swept a minute back, at most once per interval. */
  function AfterCleanup(requests: map<string, seq<Entry>>, lastCleanup: real, interval: real, now: real): map<string, seq<Entry>> {
    if now - lastCleanup < interval then requests else Swept(requests, now - 60.0)
  }

  /**
   * For a window of a minute or less the cleanup changes nothing that a
   * decision looks at: what lies inside the window is the same with or
   * without it.
   */
  lemma CleanupKeepsWindow(requests: map<string, seq<Entry>>, lastCleanup: real, interval: real, now: real,
                           client: string, window: nat)
    requires window <= 60
    ensures Recent(LogOf(AfterCleanup(requests, lastCleanup, interval, now), client), now - window as real)
         == Recent(LogOf(requests, client), now - window as real)
  {
    if now - lastCleanup >= interval && client in requests {
      RecentTwice(requests[client], now - 60.0, now - window as real);
      if client !in Swept(requests, now - 60.0) {
        assert Recent(requests[client], now - 60.0) == [];
      }
    }
  }

  /**
   * For longer windows it does: one request logged at time 0 under a
   * limit of one per hour blocks a second request at time 300, unless a
   * cleanup is due, which forgets the first.
   */
  lemma CleanupForgetsLongerWindows()
    ensures var log := [Entry(0.0, "/api")];
      && Admit(log, "/api", 1, 3600, 300.0).1.Limited?
      && Admit(LogOf(AfterCleanup(map["client" := log], 0.0, 300.0, 300.0), "client"), "/api", 1, 3600, 300.0).1 == Allowed
  {
    var log := [Entry(0.0, "/api")];
    assert Recent(log, 300.0 - 3600.0) == log;
    assert Matching(log, "/api", 300.0 - 3600.0) == log;
    assert Recent(log, 240.0) == [];
    assert Swept(map["client" := log], 240.0) == map[];
  }

  /** `SimpleRateLimiter`: the request log of every client, cleaned at most every five minutes. */
  class SimpleRateLimiter {
    /** client address to `(timestamp, endpoint)` entries, oldest first */
    var requests: map<string, seq<Entry>>
    const cleanupInterval: real
    var lastCleanup: real

    constructor(now: real)
      ensures requests == map[] && cleanupInterval == 300.0 && lastCleanup == now
    {
      requests := map[];
      cleanupInterval := 300.0;
      lastCleanup := now;
    }

    /** `_cleanup_old_entries`. */
    method CleanupOldEntries(now: real)
      modifies this
      ensures requests == AfterCleanup(old(requests), old(lastCleanup), cleanupInterval, now)
      ensures lastCleanup == (if now - old(lastCleanup) < cleanupInterval then old(lastCleanup) else now)
    {
      if now - lastCleanup < cleanupInterval {
        return;
      }
      var cutoff := now - 60.0;
      var pending := requests.Keys;
      while pending != {}
        invariant pending <= old(requests).Keys
        invariant forall c :: c in requests ==> c in old(requests)
        invariant forall c :: c in pending ==> c in requests && requests[c] == old(requests)[c]
        invariant forall c :: c in old(requests) && c !in pending ==>
          (c in requests <==> Recent(old(requests)[c], cutoff) != [])
        invariant forall c :: c in old(requests) && c !in pending && c in requests ==>
          requests[c] == Recent(old(requests)[c], cutoff)
        decreases pending
      {
        var c :| c in pending;
        requests := requests[c := Recent(requests[c], cutoff)];
        if requests[c] == [] {
          requests := requests - {c};
        }
        pending := pending - {c};
      }
      lastCleanup := now;
    }

    /**
     * `is_allowed`: the cleanup, then the client's log loses the entries
     * outside the window, and an allowed request is appended to it. Every
     * other client's log is left as the cleanup left it.
     */
    method IsAllowed(clientIp: string, endpoint: string, rateLimit: string, now: real) returns (d: Decision)
      modifies this
      ensures var swept := AfterCleanup(old(requests), old(lastCleanup), cleanupInterval, now);
        var outcome := Admit(LogOf(swept, clientIp), endpoint, ParseRateLimit(rateLimit).0, ParseRateLimit(rateLimit).1, now);
        d == outcome.1 && requests == swept[clientIp := outcome.0]
      ensures lastCleanup == (if now - old(lastCleanup) < cleanupInterval then old(lastCleanup) else now)
    {
      CleanupOldEntries(now);
      var (maxRequests, windowSeconds) := ParseRateLimit(rateLimit);
      d := FileRequest(clientIp, endpoint, maxRequests, windowSeconds, now);
    }

    /** The part of `is_allowed` after the cleanup and the parsing of the limit. */
    method FileRequest(clientIp: string, endpoint: string, maxRequests: int, windowSeconds: nat, now: real) returns (d: Decision)
      modifies this
      ensures var outcome := Admit(LogOf(old(requests), clientIp), endpoint, maxRequests, windowSeconds, now);
        d == outcome.1 && requests == old(requests)[clientIp := outcome.0]
      ensures lastCleanup == old(lastCleanup)
    {
      var cutoff := now - windowSeconds as real;
      if clientIp !in requests {
        requests := requests[clientIp := []];
      }
      var kept := Recent(requests[clientIp], cutoff);
      assert kept == Recent(LogOf(old(requests), clientIp), cutoff);
      requests := requests[clientIp := kept];
      d := Check(kept, endpoint, maxRequests, windowSeconds, now, cutoff);
      if d.Allowed? {
        requests := requests[clientIp := kept + [Entry(now, endpoint)]];
      }
    }

    /** The endpoint's requests inside the window, and the answer they give. */
    static method Check(kept: seq<Entry>, endpoint: string, maxRequests: int, windowSeconds: nat, now: real, cutoff: real)
        returns (d: Decision)
      requires cutoff == now - windowSeconds as real
      ensures d == Decide(kept, endpoint, maxRequests, windowSeconds, now)
    {
      var endpointRequests := Matching(kept, endpoint, cutoff);
      if |endpointRequests| >= maxRequests {
        if endpointRequests == [] {
          return NoOldest;
        }
        var oldest := Oldest(endpointRequests);
        return Limited(Truncate(windowSeconds as real - (now - oldest)) + 1);
      }
      return Allowed;
    }
  }

  // ---------------------------------------------------------------------
  // The middleware

  /**
   * What the middleware reads of a request. Starlette matches header names
   * without regard to case by keeping them lower-cased, both as received
   * and as looked up; `headers` holds them in that lower-cased form.
   */
  datatype Request = Request(path: string, client: Option<string>, headers: map<string, string>)

  /** `headers.get(name)` taken as true: present and non-empty. */
  predicate HasHeader(r: Request, name: string) {
    name in r.headers && r.headers[name] != ""
  }

  /** `get_remote_address`: the connection's host, else the first X-Forwarded-For item, else X-Real-IP. */
  function RemoteAddress(r: Request): string {
    if r.client.Some? then r.client.value
    else if HasHeader(r, "x-forwarded-for") then Trim(Split(r.headers["x-forwarded-for"], ',')[0])
    else if HasHeader(r, "x-real-ip") then r.headers["x-real-ip"]
    else "unknown"
  }

  /**
   * Behind a proxy, the client is the first address of the X-Forwarded-For
   * list, without its surrounding spaces, and X-Real-IP is then not read;
   * a request with neither header nor host is "unknown".
   */
  lemma ForwardedForFirst(path: string, first: string, rest: string, headers: map<string, string>)
    requires ',' !in first
    requires "x-forwarded-for" in headers && headers["x-forwarded-for"] == first + "," + rest
    ensures RemoteAddress(Request(path, None, headers)) == Trim(first)
    ensures RemoteAddress(Request(path, None, map[])) == "unknown"
  {
    IndexOfAfter(first, ',', rest);
    var f := first + "," + rest;
    assert f == first + [','] + rest;
    assert f[..|first|] == first;
  }

  /** The key the limiter files a request under: an empty address counts as "unknown". */
  function ClientKey(r: Request): string {
    var ip := RemoteAddress(r);
    if ip == "" then "unknown" else ip
  }

  /** Paths the middleware never limits. */
  predicate Exempt(path: string) {
    path in ["/", "/docs", "/openapi.json", "/redoc"]
  }

  predicate IsAnalysisPath(path: string) {
    Contains(path, "/analyze/color") || Contains(path, "/analyze/face") || Contains(path, "/analyze/body") || Contains(path, "/shape")
  }

  predicate IsGenerationPath(path: string) {
    Contains(path, "/try-on") || Contains(path, "/generate")
  }

  /** The limit of a path: analysis first, then generation, then the default. */
  function LimitFor(path: string): string {
    if IsAnalysisPath(path) then "10/minute"
    else if IsGenerationPath(path) then "5/minute"
    else "100/minute"
  }

  /**
   * Analysis paths get 10 requests a minute even when they also look like
   * generation paths, generation paths 5 and all others 100; every limit
   * admits at least one request per minute.
   */
  lemma LimitForSpec(path: string)
    ensures IsAnalysisPath(path) ==> ParseRateLimit(LimitFor(path)) == (10, 60)
    ensures !IsAnalysisPath(path) && IsGenerationPath(path) ==> ParseRateLimit(LimitFor(path)) == (5, 60)
    ensures !IsAnalysisPath(path) && !IsGenerationPath(path) ==> ParseRateLimit(LimitFor(path)) == (100, 60)
    ensures ParseRateLimit(LimitFor(path)).0 >= 5
  {
    MiddlewareLimits();
  }

  /** The middleware's answer: the request goes on, or a 429 with the seconds to wait and the limit. */
  datatype Response = Forwarded | TooManyRequests(retryAfter: int, message: string)

  /**
   * `rate_limit_middleware`: exempt paths pass untouched; any other request
   * is filed under its client and path with the path's limit, and a
   * limited one is answered with status 429.
   */
  method RateLimitMiddleware(limiter: SimpleRateLimiter, request: Request, now: real) returns (response: Response)
    modifies limiter
    ensures Exempt(request.path) ==>
      (response == Forwarded && limiter.requests == old(limiter.requests)
       && limiter.lastCleanup == old(limiter.lastCleanup))
    ensures !Exempt(request.path) ==>
      var limit := LimitFor(request.path);
      var swept := AfterCleanup(old(limiter.requests), old(limiter.lastCleanup), limiter.cleanupInterval, now);
      var outcome := Admit(LogOf(swept, ClientKey(request)), request.path, ParseRateLimit(limit).0, ParseRateLimit(limit).1, now);
      && !outcome.1.NoOldest?
      && response == (if outcome.1.Allowed? then Forwarded else TooManyRequests(outcome.1.retryAfter, "Too many requests. Limit: " + limit))
      && limiter.requests == swept[ClientKey(request) := outcome.0]
    ensures !Exempt(request.path) ==>
      limiter.lastCleanup == (if now - old(limiter.lastCleanup) < limiter.cleanupInterval then old(limiter.lastCleanup) else now)
  {
    if Exempt(request.path) {
      return Forwarded;
    }
    var clientIp := RemoteAddress(request);
    if clientIp == "" {
      clientIp := "unknown";
    }
    var endpointPath := request.path;
    var limit: string;
    if IsAnalysisPath(endpointPath) {
      limit := "10/minute";
    } else if IsGenerationPath(endpointPath) {
      limit := "5/minute";
    } else {
      limit := "100/minute";
    }
    LimitForSpec(endpointPath);
    var d := limiter.IsAllowed(clientIp, endpointPath, limit, now);
    DecideSpecAt(LogOf(AfterCleanup(old(limiter.requests), old(limiter.lastCleanup), limiter.cleanupInterval, now), clientIp),
                 endpointPath, ParseRateLimit(limit).0, ParseRateLimit(limit).1, now);
    if !d.Allowed? {
      return TooManyRequests(d.retryAfter, "Too many requests. Limit: " + limit);
    }
    return Forwarded;
  }

  /** With a positive limit, `min()` always has a request to look at. */
  lemma DecideSpecAt(es: seq<Entry>, endpoint: string, maxRequests: int, window: nat, now: real)
    requires maxRequests > 0
    ensures !Admit(es, endpoint, maxRequests, window, now).1.NoOldest?
  {
    DecideSpec(Recent(es, now - window as real), endpoint, maxRequests, window, now);
  }
}
