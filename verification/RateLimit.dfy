/** Counters with an expiry: fixed-window limits and login lockout. */
module RateProtocol {
  import opened Basics

  /** A counter key; it is gone from `expires` on. */
  datatype Counter = Counter(count: nat, expires: Time)

  datatype RateState = RateState(
    buckets: map<(string, int), Counter>,
    failures: map<string, Counter>,
    locks: map<string, Time>)

  datatype LoginPolicy = LoginPolicy(threshold: nat, lockFor: Time)

  /** The shipped settings. */
  const DEFAULT_POLICY := LoginPolicy(5, 15 * MINUTE)

  datatype Verdict = Admitted | Limited(retryAfter: int)

  const EMPTY := RateState(map[], map[], map[])

  /** `int(time.time())`. */
  function Seconds(now: Time): int {
    now / SECOND
  }

  /** Increment; a key at 1 gets its expiry. */
  function Bump(c: Option<Counter>, now: Time, ttl: Time): Counter {
    var count := if c.Some? && now < c.value.expires then c.value.count + 1 else 1;
    Counter(count, if count == 1 then now + ttl else c.value.expires)
  }

  function Stored<K, V>(m: map<K, V>, k: K): Option<V> {
    if k in m then Some(m[k]) else None
  }

  function Hit(s: RateState, key: string, limit: int, window: int, now: Time): (RateState, Verdict)
    requires window > 0
  {
    var bucket := (key, Seconds(now) / window);
    var c := Bump(Stored(s.buckets, bucket), now, window * SECOND);
    (s.(buckets := s.buckets[bucket := c]),
     if c.count > limit then Limited(window - Seconds(now) % window) else Admitted)
  }

  function RecordLoginFailure(s: RateState, p: LoginPolicy, email: string, now: Time): RateState {
    var c := Bump(Stored(s.failures, email), now, p.lockFor);
    s.(failures := s.failures[email := c],
       locks := if c.count >= p.threshold then s.locks[email := now + p.lockFor] else s.locks)
  }

  predicate Locked(s: RateState, email: string, now: Time) {
    email in s.locks && now < s.locks[email]
  }

  function ClearLoginFailures(s: RateState, email: string): RateState {
    s.(failures := s.failures - {email}, locks := s.locks - {email})
  }
}

module RateLimit {
  import opened Basics
  import opened RateProtocol

  class RateLimiter {
    var buckets: map<(string, int), Counter>
    var failures: map<string, Counter>
    var locks: map<string, Time>
    const policy: LoginPolicy

    constructor (policy: LoginPolicy)
      ensures State() == EMPTY && this.policy == policy
    {
      this.policy := policy;
      buckets, failures, locks := map[], map[], map[];
    }

    function State(): RateState
      reads this
    {
      RateState(buckets, failures, locks)
    }

    /** INCR, then EXPIRE on the first hit of the bucket. */
    method Hit(key: string, limit: int, window: int, now: Time) returns (verdict: Verdict)
      requires window > 0
      modifies this
      ensures (State(), verdict) == RateProtocol.Hit(old(State()), key, limit, window, now)
    {
      var seconds := now / SECOND;
      var bucket := (key, seconds / window);
      var count := 1;
      if bucket in buckets && now < buckets[bucket].expires {
        count := buckets[bucket].count + 1;
      }
      if count == 1 {
        buckets := buckets[bucket := Counter(1, now + window * SECOND)];
      } else {
        buckets := buckets[bucket := Counter(count, buckets[bucket].expires)];
      }
      verdict := if count > limit then Limited(window - seconds % window) else Admitted;
    }

    method RecordLoginFailure(email: string, now: Time)
      modifies this
      ensures State() == RateProtocol.RecordLoginFailure(old(State()), policy, email, now)
    {
      var count := 1;
      if email in failures && now < failures[email].expires {
        count := failures[email].count + 1;
      }
      if count == 1 {
        failures := failures[email := Counter(1, now + policy.lockFor)];
      } else {
        failures := failures[email := Counter(count, failures[email].expires)];
      }
      if count >= policy.threshold {
        locks := locks[email := now + policy.lockFor];
      }
    }

    method AssertNotLocked(email: string, now: Time) returns (ok: bool)
      ensures ok == !Locked(State(), email, now)
    {
      ok := !(email in locks && now < locks[email]);
    }

    method ClearLoginFailures(email: string)
      modifies this
      ensures State() == RateProtocol.ClearLoginFailures(old(State()), email)
    {
      failures := failures - {email};
      locks := locks - {email};
    }
  }
}

/** What a fixed window admits. */
module RateBounds {
  import opened Basics
  import opened RateProtocol

  datatype Call = Call(key: string, limit: int, window: int, now: Time)

  predicate Calls(calls: seq<Call>) {
    forall i :: 0 <= i < |calls| ==> calls[i].window > 0
  }

  /** The store after a run of calls. */
  function After(calls: seq<Call>): RateState
    requires Calls(calls)
  {
    if calls == [] then EMPTY
    else
      var c := calls[|calls| - 1];
      Hit(After(calls[..|calls| - 1]), c.key, c.limit, c.window, c.now).0
  }

  predicate AdmittedAt(calls: seq<Call>, i: nat)
    requires Calls(calls) && i < |calls|
  {
    var c := calls[i];
    Hit(After(calls[..i]), c.key, c.limit, c.window, c.now).1.Admitted?
  }

  /** The aligned window a call falls in. */
  function WindowOf(c: Call): int
    requires c.window > 0
  {
    Seconds(c.now) / c.window
  }

  /** Every call for `key` has this limit and window. */
  predicate Uniform(calls: seq<Call>, key: string, limit: int, window: int) {
    && window > 0
    && forall i :: 0 <= i < |calls| && calls[i].key == key ==> calls[i].limit == limit && calls[i].window == window
  }

  /** How many of the calls were for `key` in the aligned window `n`. */
  function CallsIn(calls: seq<Call>, key: string, n: int): nat
    requires Calls(calls)
  {
    if calls == [] then 0
    else
      var c := calls[|calls| - 1];
      CallsIn(calls[..|calls| - 1], key, n) + (if c.key == key && WindowOf(c) == n then 1 else 0)
  }

  /** How many of those were admitted. */
  function AdmittedIn(calls: seq<Call>, key: string, n: int): nat
    requires Calls(calls)
  {
    if calls == [] then 0
    else
      var c := calls[|calls| - 1];
      AdmittedIn(calls[..|calls| - 1], key, n)
      + (if c.key == key && WindowOf(c) == n && AdmittedAt(calls, |calls| - 1) then 1 else 0)
  }

  /** How many calls for `key` were admitted from `from` on and before `until`. */
  function AdmittedBetween(calls: seq<Call>, key: string, from: Time, until: Time): nat
    requires Calls(calls)
  {
    if calls == [] then 0
    else
      var c := calls[|calls| - 1];
      AdmittedBetween(calls[..|calls| - 1], key, from, until)
      + (if c.key == key && from <= c.now < until && AdmittedAt(calls, |calls| - 1) then 1 else 0)
  }

  /** The aligned window of an instant. */
  lemma WindowBounds(now: Time, window: int)
    requires window > 0
    ensures var n := Seconds(now) / window; n * window * SECOND <= now < (n + 1) * window * SECOND
  {
    var seconds := Seconds(now);
    var n := seconds / window;
    assert seconds == n * window + seconds % window;
    assert (n + 1) * window == n * window + window;
    assert n * window <= seconds && seconds + 1 <= (n + 1) * window;
  }

  /** A bucket counts the calls of its window, and is not gone before the window ends. */
  lemma {:induction false} BucketCounts(calls: seq<Call>, key: string, limit: int, window: int, n: int)
    requires Calls(calls) && Uniform(calls, key, limit, window)
    ensures var c := Stored(After(calls).buckets, (key, n));
      if c.None? then CallsIn(calls, key, n) == 0
      else c.value.count == CallsIn(calls, key, n) > 0 && c.value.expires >= (n + 1) * window * SECOND
  {
    if calls != [] {
      var before, c := calls[..|calls| - 1], calls[|calls| - 1];
      assert Uniform(before, key, limit, window);
      BucketCounts(before, key, limit, window, n);
      if c.key == key && WindowOf(c) == n {
        WindowBounds(c.now, window);
        assert (n + 1) * window == n * window + window;
      }
    }
  }

  /** A call is admitted exactly when fewer than `limit` earlier calls for its key fell in its aligned window. */
  lemma AdmittedExactly(calls: seq<Call>, i: nat, limit: int, window: int)
    requires Calls(calls) && i < |calls| && Uniform(calls, calls[i].key, limit, window)
    ensures AdmittedAt(calls, i) <==> CallsIn(calls[..i], calls[i].key, WindowOf(calls[i])) < limit
  {
    var c := calls[i];
    assert Uniform(calls[..i], c.key, limit, window);
    BucketCounts(calls[..i], c.key, limit, window, WindowOf(c));
    WindowBounds(c.now, window);
  }

  /** An aligned window admits its first `limit` calls and no other. */
  lemma {:induction false} WindowBound(calls: seq<Call>, key: string, limit: int, window: int, n: int)
    requires Calls(calls) && Uniform(calls, key, limit, window) && limit >= 0
    ensures AdmittedIn(calls, key, n) == if CallsIn(calls, key, n) <= limit then CallsIn(calls, key, n) else limit
  {
    if calls != [] {
      var before, c := calls[..|calls| - 1], calls[|calls| - 1];
      assert Uniform(before, key, limit, window);
      WindowBound(before, key, limit, window, n);
      if c.key == key && WindowOf(c) == n {
        AdmittedExactly(calls, |calls| - 1, limit, window);
      }
    }
  }

  /** A refusal says in how many seconds the next window begins. */
  lemma RetryExactly(s: RateState, key: string, limit: int, window: int, now: Time)
    requires window > 0
    ensures var verdict := Hit(s, key, limit, window, now).1;
      verdict.Limited? ==> 1 <= verdict.retryAfter <= window && (now / SECOND + verdict.retryAfter) % window == 0
  {
    var seconds := now / SECOND;
    assert seconds + (window - seconds % window) == (seconds / window + 1) * window;
    Multiple(seconds / window + 1, window);
  }

  lemma Multiple(n: int, window: int)
    requires window > 0
    ensures n * window % window == 0
  {
    var q, r := n * window / window, n * window % window;
    assert (n - q) * window == r;
    if n != q {
      NotLess(n - q, window);
    }
  }

  lemma NotNegative(d: nat, window: nat)
    ensures d * window >= 0
  {
  }

  lemma NotLess(k: int, window: int)
    requires k != 0 && window > 0
    ensures k * window >= window || k * window <= -window
  {
    if k >= 1 {
      NotNegative(k - 1, window);
      assert k * window == (k - 1) * window + window;
    } else {
      NotNegative(-k - 1, window);
      assert -k * window == (-k - 1) * window + window;
    }
  }

  lemma Product(a: int, b: int, window: int)
    requires a <= b && window > 0
    ensures a * window * SECOND <= b * window * SECOND
    ensures (a - 1) * window * SECOND == a * window * SECOND - window * SECOND
  {
    assert (b - a) * window >= 0;
  }

  lemma WindowsMeeting(from: Time, now: Time, window: int)
    requires window > 0 && from <= now < from + window * SECOND
    ensures var n := Seconds(from) / window; n <= Seconds(now) / window <= n + 1
  {
    var n, m := Seconds(from) / window, Seconds(now) / window;
    WindowBounds(from, window);
    WindowBounds(now, window);
    if m >= n + 2 {
      Product(n + 2, m, window);
    } else if m < n {
      Product(m + 1, n, window);
    }
  }

  lemma {:induction false} BetweenWindows(calls: seq<Call>, key: string, limit: int, window: int, from: Time)
    requires Calls(calls) && Uniform(calls, key, limit, window)
    ensures var n := Seconds(from) / window;
      AdmittedBetween(calls, key, from, from + window * SECOND)
        <= AdmittedIn(calls, key, n) + AdmittedIn(calls, key, n + 1)
  {
    if calls != [] {
      var before, c := calls[..|calls| - 1], calls[|calls| - 1];
      assert Uniform(before, key, limit, window);
      BetweenWindows(before, key, limit, window, from);
      if c.key == key && from <= c.now < from + window * SECOND {
        WindowsMeeting(from, c.now, window);
      }
    }
  }

  /** Any interval of a window's length admits at most twice the limit. */
  lemma IntervalBound(calls: seq<Call>, key: string, limit: int, window: int, from: Time)
    requires Calls(calls) && Uniform(calls, key, limit, window) && limit >= 0
    ensures AdmittedBetween(calls, key, from, from + window * SECOND) <= 2 * limit
  {
    var n := Seconds(from) / window;
    BetweenWindows(calls, key, limit, window, from);
    WindowBound(calls, key, limit, window, n);
    WindowBound(calls, key, limit, window, n + 1);
  }

  // ----- twice the limit is reached -----

  function Burst(limit: int, window: int, now: Time, n: nat): seq<Call> {
    seq(n, i => Call("k", limit, window, now))
  }

  lemma OneMoreCall(front: seq<Call>, c: Call, key: string, index: int)
    requires Calls(front) && c.window > 0
    ensures Calls(front + [c])
    ensures CallsIn(front + [c], key, index)
      == CallsIn(front, key, index) + (if c.key == key && WindowOf(c) == index then 1 else 0)
  {
    assert (front + [c])[..|front|] == front;
  }

  lemma {:induction false} BurstCounts(before: seq<Call>, limit: int, window: int, now: Time, n: nat, index: int)
    requires window > 0 && Calls(before)
    ensures Calls(before + Burst(limit, window, now, n))
    ensures CallsIn(before + Burst(limit, window, now, n), "k", index)
      == CallsIn(before, "k", index) + (if Seconds(now) / window == index then n else 0)
  {
    var calls := before + Burst(limit, window, now, n);
    if n == 0 {
      assert calls == before;
    } else {
      var front, c := before + Burst(limit, window, now, n - 1), Call("k", limit, window, now);
      BurstCounts(before, limit, window, now, n - 1, index);
      OneMoreCall(front, c, "k", index);
      assert calls == front + [c];
    }
  }

  /** Calls that all fall between `from` and `until`, and in window 0 or 1. */
  lemma {:induction false} AllBetween(calls: seq<Call>, from: Time, until: Time)
    requires Calls(calls)
    requires forall i :: 0 <= i < |calls| ==>
      calls[i].key == "k" && from <= calls[i].now < until && 0 <= WindowOf(calls[i]) <= 1
    ensures AdmittedBetween(calls, "k", from, until) == AdmittedIn(calls, "k", 0) + AdmittedIn(calls, "k", 1)
  {
    if calls != [] {
      AllBetween(calls[..|calls| - 1], from, until);
    }
  }

  /** The last nanosecond of window 0, and the first of window 1. */
  lemma Boundary(window: int)
    requires window > 0
    ensures Seconds(window * SECOND - 1) / window == 0 && Seconds(window * SECOND) / window == 1
  {
    assert Seconds(window * SECOND - 1) == window - 1;
    assert Seconds(window * SECOND) == window;
  }

  function TwoBursts(limit: nat, window: int): seq<Call> {
    var from := window * SECOND - 1;
    Burst(limit, window, from, limit) + Burst(limit, window, from + 1, limit)
  }

  lemma TwoBurstsCount(limit: nat, window: int)
    requires window > 0
    ensures var calls := TwoBursts(limit, window);
      Calls(calls) && CallsIn(calls, "k", 0) == limit && CallsIn(calls, "k", 1) == limit
  {
    var from := window * SECOND - 1;
    Boundary(window);
    FirstBurst(limit, window, from, 0);
    FirstBurst(limit, window, from, 1);
    BurstCounts(Burst(limit, window, from, limit), limit, window, from + 1, limit, 0);
    BurstCounts(Burst(limit, window, from, limit), limit, window, from + 1, limit, 1);
  }

  lemma FirstBurst(limit: nat, window: int, now: Time, index: int)
    requires window > 0
    ensures var calls := Burst(limit, window, now, limit);
      Calls(calls) && CallsIn(calls, "k", index) == if Seconds(now) / window == index then limit else 0
  {
    assert [] + Burst(limit, window, now, limit) == Burst(limit, window, now, limit);
    BurstCounts([], limit, window, now, limit, index);
  }

  lemma TwoBurstsBetween(limit: nat, window: int)
    requires window > 0
    ensures var from, calls := window * SECOND - 1, TwoBursts(limit, window);
      Calls(calls)
      && AdmittedBetween(calls, "k", from, from + 2) == AdmittedIn(calls, "k", 0) + AdmittedIn(calls, "k", 1)
  {
    Boundary(window);
    AllBetween(TwoBursts(limit, window), window * SECOND - 1, window * SECOND + 1);
  }

  /** The window is fixed, not sliding: for every limit and window, twice the limit is admitted within two nanoseconds
      across a boundary. */
  lemma NotASlidingWindow(limit: nat, window: int)
    requires window > 0
    ensures var from, calls := window * SECOND - 1, TwoBursts(limit, window);
      && Calls(calls) && Uniform(calls, "k", limit, window)
      && AdmittedBetween(calls, "k", from, from + 2) == 2 * limit
  {
    TwoBurstsCount(limit, window);
    TwoBurstsBetween(limit, window);
    WindowBound(TwoBursts(limit, window), "k", limit, window, 0);
    WindowBound(TwoBursts(limit, window), "k", limit, window, 1);
  }
}
