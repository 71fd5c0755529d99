/** How many wrong passwords a login lockout lets through. */
module LoginBounds {
  import opened Basics
  import opened RateProtocol
  import opened OperatorProtocol

  /** A login attempt, against the table of users as it then is. */
  datatype Attempt = Attempt(users: seq<User>, credentials: Credentials, now: Time)

  function After(p: LoginPolicy, attempts: seq<Attempt>): RateState {
    if attempts == [] then EMPTY
    else
      var a := attempts[|attempts| - 1];
      Authenticate(a.users, After(p, attempts[..|attempts| - 1]), p, a.credentials, a.now).0
  }

  /** A recorded failure, and the counter after it. */
  datatype Entry = Entry(now: Time, count: nat)

  /** The failures recorded for `email` since its last successful login. */
  function Failures(p: LoginPolicy, attempts: seq<Attempt>, email: string): seq<Entry> {
    if attempts == [] then []
    else
      var before := attempts[..|attempts| - 1];
      LogAfter(Failures(p, before, email), After(p, before), p, attempts[|attempts| - 1], email)
  }

  /** What attempt `a` on store `s` adds to the log of `email`, which a success empties. */
  function LogAfter(log: seq<Entry>, s: RateState, p: LoginPolicy, a: Attempt, email: string): seq<Entry> {
    var (after, reply) := Authenticate(a.users, s, p, a.credentials, a.now);
    if a.credentials.email != email then log
    else if reply.Done? then []
    else if reply.error.InvalidCredentials? || reply.error.CodeInvalid? then
      log + [Entry(a.now, if email in after.failures then after.failures[email].count else 0)]
    else log
  }

  predicate ClockMonotone(attempts: seq<Attempt>) {
    forall i, j :: 0 <= i < j < |attempts| ==> attempts[i].now <= attempts[j].now
  }

  /** Where the counter that entry `k` incremented began. */
  function Start(log: seq<Entry>, k: nat): int
    requires k < |log|
  {
    k + 1 - log[k].count
  }

  /** An entry increments the counter before it, or begins one after the former expired, and after the lock. */
  predicate Follows(log: seq<Entry>, k: nat, p: LoginPolicy)
    requires k + 1 < |log| && 0 <= Start(log, k) < |log|
  {
    || log[k + 1].count == log[k].count + 1
    || (&& log[k + 1].count == 1
        && log[k + 1].now >= log[Start(log, k)].now + p.lockFor
        && (log[k].count == p.threshold ==> log[k + 1].now >= log[k].now + p.lockFor))
  }

  predicate LogOk(log: seq<Entry>, p: LoginPolicy) {
    && (forall k :: 0 <= k < |log| ==> 1 <= log[k].count <= p.threshold && log[k].count <= k + 1)
    && (forall k, m :: 0 <= k < m < |log| ==> log[k].now <= log[m].now)
    && (forall k: nat :: k + 1 < |log| ==> Follows(log, k, p))
  }

  /** The store holds the counter of the last entry, and a lock once it reached the threshold. */
  predicate StoreMatches(s: RateState, log: seq<Entry>, email: string, p: LoginPolicy)
    requires LogOk(log, p)
  {
    if log == [] then email !in s.failures && email !in s.locks
    else
      var last := |log| - 1;
      && email in s.failures
      && s.failures[email] == Counter(log[last].count, log[Start(log, last)].now + p.lockFor)
      && (if log[last].count == p.threshold then email in s.locks && s.locks[email] == log[last].now + p.lockFor
          else email in s.locks ==> s.locks[email] <= log[last].now)
  }

  lemma JudgedFound(users: seq<User>, c: Credentials)
    requires Judge(Row(users, FindByEmail(users, c.email, false)), c).None?
    ensures FindByEmail(users, c.email, false).Some?
  {
  }

  /** One recorded failure extends the log. */
  lemma RecordOk(s: RateState, log: seq<Entry>, email: string, p: LoginPolicy, now: Time)
    requires p.threshold >= 1 && p.lockFor > 0 && LogOk(log, p) && StoreMatches(s, log, email, p)
    requires !Locked(s, email, now) && (log != [] ==> log[|log| - 1].now <= now)
    ensures var after := RecordLoginFailure(s, p, email, now);
      email in after.failures
      && LogOk(log + [Entry(now, after.failures[email].count)], p)
      && StoreMatches(after, log + [Entry(now, after.failures[email].count)], email, p)
  {
    var after := RecordLoginFailure(s, p, email, now);
    var log' := log + [Entry(now, after.failures[email].count)];
    if log != [] {
      var last := |log| - 1;
      assert log[Start(log, last)].now <= log[last].now;
      assert Follows(log', last, p);
      forall k: nat | k + 1 < |log'| ensures Follows(log', k, p) {
        if k < last {
          assert Follows(log, k, p);
        }
      }
    }
  }

  lemma OthersKeepStore(s: RateState, log: seq<Entry>, p: LoginPolicy, a: Attempt, email: string)
    requires LogOk(log, p) && StoreMatches(s, log, email, p) && a.credentials.email != email
    ensures StoreMatches(Authenticate(a.users, s, p, a.credentials, a.now).0, log, email, p)
  {
  }

  lemma AttemptOk(s: RateState, log: seq<Entry>, p: LoginPolicy, a: Attempt, email: string)
    requires p.threshold >= 1 && p.lockFor > 0 && LogOk(log, p) && StoreMatches(s, log, email, p)
    requires log != [] ==> log[|log| - 1].now <= a.now
    ensures LogOk(LogAfter(log, s, p, a, email), p)
    ensures StoreMatches(Authenticate(a.users, s, p, a.credentials, a.now).0, LogAfter(log, s, p, a, email), email, p)
    ensures var after := LogAfter(log, s, p, a, email); after != [] ==> after[|after| - 1].now <= a.now
  {
    if a.credentials.email != email {
      OthersKeepStore(s, log, p, a, email);
    } else if !Locked(s, email, a.now) {
      if Judge(Row(a.users, FindByEmail(a.users, email, false)), a.credentials).None? {
        JudgedFound(a.users, a.credentials);
      } else {
        RecordOk(s, log, email, p, a.now);
      }
    }
  }

  /** Over every run of attempts: the log is well-formed and the store holds its last entry. */
  lemma {:induction false} LogRun(p: LoginPolicy, attempts: seq<Attempt>, email: string)
    requires p.threshold >= 1 && p.lockFor > 0 && ClockMonotone(attempts)
    ensures LogOk(Failures(p, attempts, email), p)
    ensures StoreMatches(After(p, attempts), Failures(p, attempts, email), email, p)
    ensures var log := Failures(p, attempts, email);
      log != [] ==> attempts != [] && log[|log| - 1].now <= attempts[|attempts| - 1].now
  {
    if attempts != [] {
      var before, a := attempts[..|attempts| - 1], attempts[|attempts| - 1];
      LogRun(p, before, email);
      AttemptOk(After(p, before), Failures(p, before, email), p, a, email);
    }
  }

  /** The next counter after entry `i`: it comes once the present one is full or expired. */
  lemma {:induction false} NextCounter(log: seq<Entry>, i: nat, p: LoginPolicy) returns (j: nat)
    requires LogOk(log, p) && i < |log| && i + p.threshold - log[i].count + 1 < |log|
    ensures i < j <= i + p.threshold - log[i].count + 1 && log[j].count == 1
    ensures log[j].now >= log[Start(log, i)].now + p.lockFor
    ensures j == i + p.threshold - log[i].count + 1 ==> log[j].now >= log[i].now + p.lockFor
    decreases p.threshold - log[i].count
  {
    assert Follows(log, i, p);
    if log[i + 1].count == 1 {
      j := i + 1;
    } else {
      j := NextCounter(log, i + 1, p);
      assert log[i].now <= log[i + 1].now;
    }
  }

  /** How many failures a lock period can hold. */
  function Most(p: LoginPolicy): nat
    requires p.threshold >= 1
  {
    if p.threshold == 1 then 1 else 2 * p.threshold - 2
  }

  /** A failure that many places after another, or more, comes at least a whole lock period later. */
  lemma FailuresSpread(log: seq<Entry>, i: nat, p: LoginPolicy)
    requires LogOk(log, p) && p.threshold >= 1 && p.lockFor > 0
    ensures forall j :: i + Most(p) <= j < |log| ==> log[j].now >= log[i].now + p.lockFor
  {
    if i + Most(p) < |log| {
      var j := NextCounter(log, i, p);
      if log[i].count != 1 && j != i + p.threshold - log[i].count + 1 {
        var next := NextCounter(log, j, p);
        assert log[i].now <= log[j].now;
      }
    }
  }

  /** With no successful login between, any period of `lockFor`, its end excluded, holds at most 2 * threshold - 2
      recorded failures of an account (one, for a threshold of 1). */
  lemma FailureBound(p: LoginPolicy, attempts: seq<Attempt>, email: string, i: nat, j: nat)
    requires p.threshold >= 1 && p.lockFor > 0 && ClockMonotone(attempts)
    requires i <= j < |Failures(p, attempts, email)|
    requires Failures(p, attempts, email)[j].now < Failures(p, attempts, email)[i].now + p.lockFor
    ensures j - i + 1 <= Most(p)
  {
    var log := Failures(p, attempts, email);
    LogRun(p, attempts, email);
    FailuresSpread(log, i, p);
  }

  /** When an account is locked out: exactly while the lock of its last recorded failure lasts, if that one reached the
      threshold and no login succeeded since. */
  lemma LockedExactly(p: LoginPolicy, attempts: seq<Attempt>, email: string, now: Time)
    requires p.threshold >= 1 && p.lockFor > 0 && ClockMonotone(attempts)
    requires attempts != [] ==> attempts[|attempts| - 1].now <= now
    ensures var log := Failures(p, attempts, email);
      Locked(After(p, attempts), email, now) <==>
        log != [] && log[|log| - 1].count == p.threshold && now < log[|log| - 1].now + p.lockFor
  {
    LogRun(p, attempts, email);
  }

  /** A counter that reached the threshold is gone before its lock is, so no attempt is ever refused a fresh count
      because of an old one. */
  lemma LockOutlivesCounter(p: LoginPolicy, attempts: seq<Attempt>, email: string)
    requires p.threshold >= 1 && p.lockFor > 0 && ClockMonotone(attempts)
    ensures var s := After(p, attempts);
      email in s.failures ==>
        && s.failures[email].count <= p.threshold
        && (s.failures[email].count == p.threshold ==> email in s.locks && s.failures[email].expires <= s.locks[email])
  {
    var log := Failures(p, attempts, email);
    LogRun(p, attempts, email);
    if log != [] {
      assert log[Start(log, |log| - 1)].now <= log[|log| - 1].now;
    }
  }

  // ----- the bound is reached -----

  const WRONG: Credentials := Credentials("e", "", None, false)

  /** `n` more wrong passwords at one instant. */
  function Wrong(before: seq<Attempt>, now: Time, n: nat): (attempts: seq<Attempt>)
    ensures |attempts| == |before| + n && before <= attempts
    ensures forall i :: |before| <= i < |attempts| ==> attempts[i].now == now
  {
    if n == 0 then before else Wrong(before, now, n - 1) + [Attempt([], WRONG, now)]
  }

  /** The log of `n` more failures at one instant, from a counter at `c`. */
  function Entries(log: seq<Entry>, now: Time, c: nat, n: nat): (entries: seq<Entry>)
    ensures |entries| == |log| + n && log <= entries
    ensures forall i :: |log| <= i < |entries| ==> entries[i].now == now
  {
    if n == 0 then log else Entries(log, now, c, n - 1) + [Entry(now, c + n)]
  }

  datatype Outcome = Outcome(store: RateState, log: seq<Entry>)

  /** Store and log after a run. */
  function Result(p: LoginPolicy, attempts: seq<Attempt>): Outcome {
    Outcome(After(p, attempts), Failures(p, attempts, "e"))
  }

  /** From `o` to `o'` one failure is recorded, unless the account is locked. */
  predicate Records(p: LoginPolicy, o: Outcome, o': Outcome, now: Time) {
    !Locked(o.store, "e", now) ==>
      && o'.store == RecordLoginFailure(o.store, p, "e", now)
      && o'.log == o.log + [Entry(now, o'.store.failures["e"].count)]
  }

  /** The counter stands at `c`, and no lock was set before the threshold. */
  predicate Stands(p: LoginPolicy, o: Outcome, c: nat, expires: Time, log: seq<Entry>) {
    o.log == log && o.store.failures == map["e" := Counter(c, expires)] && (c < p.threshold ==> "e" !in o.store.locks)
  }

  lemma WrongRecords(p: LoginPolicy, before: seq<Attempt>, now: Time)
    ensures Records(p, Result(p, before), Result(p, before + [Attempt([], WRONG, now)]), now)
  {
    var attempts := before + [Attempt([], WRONG, now)];
    assert attempts[..|attempts| - 1] == before;
  }

  /** One more failure counts on while the counter lives, and begins a new one when it does not. */
  lemma OneMoreWrong(p: LoginPolicy, o: Outcome, o': Outcome, now: Time, c: nat, expires: Time, log: seq<Entry>)
    requires p.threshold >= 2 && Stands(p, o, c, expires, log) && 1 <= c < p.threshold
    requires Records(p, o, o', now)
    ensures if now < expires then Stands(p, o', c + 1, expires, log + [Entry(now, c + 1)])
            else Stands(p, o', 1, now + p.lockFor, log + [Entry(now, 1)])
  {
  }

  lemma {:induction false} ManyRecorded(
      p: LoginPolicy, at: nat -> Outcome, now: Time, n: nat, c: nat, expires: Time, log: seq<Entry>)
    requires p.threshold >= 2 && Stands(p, at(0), c, expires, log) && now < expires && c >= 1 && c + n <= p.threshold
    requires forall k: nat :: k < n ==> Records(p, at(k), at(k + 1), now)
    ensures Stands(p, at(n), c + n, expires, Entries(log, now, c, n))
  {
    if n > 0 {
      ManyRecorded(p, at, now, n - 1, c, expires, log);
      OneMoreWrong(p, at(n - 1), at(n), now, c + n - 1, expires, Entries(log, now, c, n - 1));
    }
  }

  lemma NextRecords(p: LoginPolicy, before: seq<Attempt>, now: Time, at: nat -> Outcome, k: nat)
    requires at == ((i: nat) => Result(p, Wrong(before, now, i)))
    ensures Records(p, at(k), at(k + 1), now)
  {
    WrongRecords(p, Wrong(before, now, k), now);
  }

  /** Wrong passwords at one instant, within the life of a counter and up to the threshold, are all recorded. */
  lemma WrongMany(p: LoginPolicy, before: seq<Attempt>, now: Time, n: nat, c: nat, expires: Time, log: seq<Entry>)
    requires p.threshold >= 2 && Stands(p, Result(p, before), c, expires, log) && now < expires
    requires c >= 1 && c + n <= p.threshold
    ensures Stands(p, Result(p, Wrong(before, now, n)), c + n, expires, Entries(log, now, c, n))
  {
    var at := (i: nat) => Result(p, Wrong(before, now, i));
    forall k: nat | k < n {
      NextRecords(p, before, now, at, k);
    }
    ManyRecorded(p, at, now, n, c, expires, log);
  }

  lemma FirstWrong(p: LoginPolicy)
    requires p.threshold >= 2
    ensures Stands(p, Result(p, [Attempt([], WRONG, 0)]), 1, p.lockFor, [Entry(0, 1)])
  {
    assert [] + [Attempt([], WRONG, 0)] == [Attempt([], WRONG, 0)];
    WrongRecords(p, [], 0);
  }

  /** One wrong password, then others until one below the threshold just before the counter expires. */
  function Slow(p: LoginPolicy): seq<Attempt>
    requires p.threshold >= 2
  {
    Wrong([Attempt([], WRONG, 0)], p.lockFor - 1, p.threshold - 2)
  }

  function SlowLog(p: LoginPolicy): seq<Entry>
    requires p.threshold >= 2
  {
    Entries([Entry(0, 1)], p.lockFor - 1, 1, p.threshold - 2)
  }

  /** And as many as the threshold when it does. */
  function SlowThenFast(p: LoginPolicy): seq<Attempt>
    requires p.threshold >= 2
  {
    Wrong(Slow(p) + [Attempt([], WRONG, p.lockFor)], p.lockFor, p.threshold - 1)
  }

  lemma SlowRun(p: LoginPolicy)
    requires p.threshold >= 2 && p.lockFor >= 2
    ensures Stands(p, Result(p, Slow(p)), p.threshold - 1, p.lockFor, SlowLog(p))
  {
    FirstWrong(p);
    WrongMany(p, [Attempt([], WRONG, 0)], p.lockFor - 1, p.threshold - 2, 1, p.lockFor, [Entry(0, 1)]);
  }

  /** The counter expires as the fast ones begin. */
  lemma Renewed(p: LoginPolicy)
    requires p.threshold >= 2 && p.lockFor >= 2
    ensures var t := p.lockFor;
      Stands(p, Result(p, Slow(p) + [Attempt([], WRONG, t)]), 1, t + t, SlowLog(p) + [Entry(t, 1)])
  {
    var slow, t := Slow(p), p.lockFor;
    SlowRun(p);
    WrongRecords(p, slow, t);
    OneMoreWrong(p, Result(p, slow), Result(p, slow + [Attempt([], WRONG, t)]), t, p.threshold - 1, t, SlowLog(p));
  }

  lemma SlowThenFastLog(p: LoginPolicy)
    requires p.threshold >= 2 && p.lockFor >= 2
    ensures Result(p, SlowThenFast(p)).log
      == Entries(SlowLog(p) + [Entry(p.lockFor, 1)], p.lockFor, 1, p.threshold - 1)
  {
    var t := p.lockFor;
    Renewed(p);
    WrongMany(p, Slow(p) + [Attempt([], WRONG, t)], t, p.threshold - 1, 1, t + t, SlowLog(p) + [Entry(t, 1)]);
  }

  /** For every threshold and lock time the bound is reached: from the second failure to the last, 2 * threshold - 2 of
      them, less than a lock period passes. */
  lemma BoundIsReached(p: LoginPolicy)
    requires p.threshold >= 2 && p.lockFor >= 2
    ensures var log := Failures(p, SlowThenFast(p), "e");
      && ClockMonotone(SlowThenFast(p)) && |log| == Most(p) + 1
      && log[|log| - 1].now < log[1].now + p.lockFor
  {
    SlowThenFastLog(p);
  }
}
