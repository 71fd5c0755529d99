/**
 * Concurrent activations, one database or cache operation at a time: load, take the lock, count,
 * flush, release, commit, with the lock's expiry, crashes and the reaper, which takes no lock.
 */
module SeatRace {
  import opened Basics

  const LOCK_TTL: int := 10 * SECOND

  /** Where an activation is.  A flushed row is in its transaction only; `pending` names it until the commit. */
  datatype Phase =
    | Loaded
    | Holding(since: Time)
    | Counted(since: Time, seen: nat)
    | Flushed(since: Time, pending: Option<Id>)
    | Released(pending: Option<Id>)
    | Finished

  /** `loadedUsed` is the seat counter as loaded, before the lock. */
  datatype Activation = Activation(license: Id, loadedUsed: int, phase: Phase)

  datatype Row = Row(license: Id, alive: bool)

  /** `rows` are the committed bindings; `locks` the deadlines of the lock keys. */
  datatype Race = Race(
    now: Time, limits: map<Id, nat>, used: map<Id, int>, rows: map<Id, Row>,
    locks: map<Id, Time>, running: map<Id, Activation>)

  datatype Step =
    | Tick(delay: nat)
    | Load(p: Id, license: Id)
    | TryLock(p: Id)
    | Count(p: Id)
    | Flush(p: Id, matched: bool, row: Id)
    | Release(p: Id)
    | Commit(p: Id)
    | Crash(p: Id)
    | Reap(dead: set<Id>)

  function Alive(rows: map<Id, Row>, l: Id): set<Id> {
    set b | b in rows && rows[b].license == l && rows[b].alive
  }

  predicate LockFree(r: Race, l: Id) {
    l !in r.locks || r.locks[l] <= r.now
  }

  function Moved(r: Race, p: Id, phase: Phase): Race
    requires p in r.running
  {
    r.(running := r.running[p := r.running[p].(phase := phase)])
  }

  function DoLoad(r: Race, p: Id, l: Id): Race {
    if p in r.running || l !in r.limits || l !in r.used then r
    else r.(running := r.running[p := Activation(l, r.used[l], Loaded)])
  }

  /** `SET NX` with a time to live: it succeeds when there is no live key. */
  function DoTryLock(r: Race, p: Id): Race {
    if p !in r.running || !r.running[p].phase.Loaded? || !LockFree(r, r.running[p].license) then r
    else Moved(r, p, Holding(r.now)).(locks := r.locks[r.running[p].license := r.now + LOCK_TTL])
  }

  function DoCount(r: Race, p: Id): Race {
    if p !in r.running || !r.running[p].phase.Holding? then r
    else Moved(r, p, Counted(r.running[p].phase.since, |Alive(r.rows, r.running[p].license)|))
  }

  /** A matching binding is reused; otherwise a row is inserted if the count was below the limit. */
  function DoFlush(r: Race, p: Id, matched: bool, row: Id): Race {
    if p !in r.running || !r.running[p].phase.Counted? || r.running[p].license !in r.limits || !RowIsNew(r, row) then r
    else
      var a := r.running[p];
      Moved(r, p, Flushed(a.phase.since, if matched || a.phase.seen >= r.limits[a.license] then None else Some(row)))
  }

  /** `DELETE` removes the key whoever set it. */
  function DoRelease(r: Race, p: Id): Race {
    if p !in r.running || !r.running[p].phase.Flushed? then r
    else Moved(r, p, Released(r.running[p].phase.pending)).(locks := r.locks - {r.running[p].license})
  }

  function DoCommit(r: Race, p: Id): Race {
    if p !in r.running || !r.running[p].phase.Released? then r
    else if r.running[p].phase.pending.None? then Moved(r, p, Finished)
    else
      var a := r.running[p];
      Moved(r, p, Finished).(rows := r.rows[a.phase.pending.value := Row(a.license, true)],
                             used := r.used[a.license := a.loadedUsed + 1])
  }

  function DoCrash(r: Race, p: Id): Race {
    if p in r.running then Moved(r, p, Finished) else r
  }

  /** The live rows of a licence die with their seats: the counter is decremented in place, if it has as many. */
  function DoReap(r: Race, dead: set<Id>): Race {
    r.(rows := map b | b in r.rows :: if b in dead then r.rows[b].(alive := false) else r.rows[b],
       used := map l | l in r.used ::
         var n := |Alive(r.rows, l) * dead|;
         if r.used[l] >= n then r.used[l] - n else r.used[l])
  }

  function Next(r: Race, step: Step): Race {
    match step
    case Tick(delay) => r.(now := r.now + delay)
    case Load(p, l) => DoLoad(r, p, l)
    case TryLock(p) => DoTryLock(r, p)
    case Count(p) => DoCount(r, p)
    case Flush(p, matched, row) => DoFlush(r, p, matched, row)
    case Release(p) => DoRelease(r, p)
    case Commit(p) => DoCommit(r, p)
    case Crash(p) => DoCrash(r, p)
    case Reap(dead) => DoReap(r, dead)
  }

  /** Row identifiers are fresh: neither committed nor pending anywhere. */
  predicate RowIsNew(r: Race, row: Id) {
    row !in r.rows && forall p | p in r.running :: PendingRow(r.running[p].phase) != Some(row)
  }

  function PendingRow(phase: Phase): Option<Id> {
    match phase
    case Flushed(_, pending) => pending
    case Released(pending) => pending
    case _ => None
  }

  predicate InSection(phase: Phase) {
    phase.Holding? || phase.Counted? || phase.Flushed?
  }

  function Run(r: Race, steps: seq<Step>): Race {
    if steps == [] then r else Next(Run(r, steps[..|steps| - 1]), steps[|steps| - 1])
  }

  // ----- the scheduling hypothesis -----

  predicate Timely(r: Race, p: Id) {
    p in r.running && InSection(r.running[p].phase) ==> r.now < r.running[p].phase.since + LOCK_TTL
  }

  /** Every activation that holds the lock is still within its ten seconds. */
  ghost predicate WithinTtl(r: Race) {
    forall p :: Timely(r, p)
  }

  predicate Settled(r: Race, q: Id, l: Id) {
    q in r.running && r.running[q].license == l && r.running[q].phase.Released? ==> r.running[q].phase.pending.None?
  }

  predicate Locks(r: Race, p: Id) {
    p in r.running && r.running[p].phase.Loaded? && LockFree(r, r.running[p].license)
  }

  /** Nothing released is still uncommitted for the licence whose lock is being taken. */
  ghost predicate CommittedFirst(r: Race, step: Step) {
    step.TryLock? && Locks(r, step.p) ==> forall q :: Settled(r, q, r.running[step.p].license)
  }

  ghost predicate AllWithinTtl(r: Race, steps: seq<Step>) {
    forall i :: 0 <= i <= |steps| ==> WithinTtl(Run(r, steps[..i]))
  }

  ghost predicate AllCommittedFirst(r: Race, steps: seq<Step>) {
    forall i :: 0 <= i < |steps| ==> CommittedFirst(Run(r, steps[..i]), steps[i])
  }

  /** Activations may have loaded their licence, but none is further. */
  ghost predicate Idle(r: Race) {
    forall p :: p in r.running ==> r.running[p].phase.Loaded?
  }

  // ----- mutual exclusion, from the lock -----

  /** An activation in the section owns the key, which lives until its ten seconds are over. */
  predicate Owns(r: Race, p: Id) {
    p in r.running && InSection(r.running[p].phase) ==>
      r.running[p].license in r.locks && r.locks[r.running[p].license] == r.running[p].phase.since + LOCK_TTL
  }

  /** Two activations are not both in the section of one licence. */
  predicate Apart(r: Race, p: Id, q: Id) {
    p in r.running && q in r.running && p != q && InSection(r.running[p].phase) && InSection(r.running[q].phase) ==>
      r.running[p].license != r.running[q].license
  }

  ghost predicate Exclusive(r: Race) {
    (forall p :: Owns(r, p)) && forall p, q :: Apart(r, p, q)
  }

  lemma OwnsNext(r: Race, step: Step, p: Id)
    requires Exclusive(r) && WithinTtl(r)
    ensures Owns(Next(r, step), p)
  {
    assert Owns(r, p) && Timely(r, p);
    if step.Release? {
      assert Apart(r, p, step.p);
    }
  }

  lemma ApartNext(r: Race, step: Step, p: Id, q: Id)
    requires Exclusive(r) && WithinTtl(r)
    ensures Apart(Next(r, step), p, q)
  {
    assert Apart(r, p, q) && Owns(r, p) && Owns(r, q) && Timely(r, p) && Timely(r, q);
  }

  lemma ExclusiveNext(r: Race, step: Step)
    requires Exclusive(r) && WithinTtl(r)
    ensures Exclusive(Next(r, step))
  {
    forall p ensures Owns(Next(r, step), p) {
      OwnsNext(r, step, p);
    }
    forall p, q ensures Apart(Next(r, step), p, q) {
      ApartNext(r, step, p, q);
    }
  }

  lemma {:induction false} MutualExclusion(r: Race, steps: seq<Step>)
    requires Idle(r) && AllWithinTtl(r, steps)
    ensures Exclusive(Run(r, steps))
  {
    if steps != [] {
      var init := steps[..|steps| - 1];
      forall i | 0 <= i <= |init| ensures WithinTtl(Run(r, init[..i])) {
        assert init[..i] == steps[..i];
      }
      MutualExclusion(r, init);
      ExclusiveNext(Run(r, init), steps[|steps| - 1]);
    }
  }

  // ----- the bound -----

  /** The row an activation has flushed and not committed. */
  function RowOf(r: Race, p: Id): Option<Id> {
    if p in r.running then PendingRow(r.running[p].phase) else None
  }

  /** A pending row of `p` is new; no other activation of its licence has one, or holds the lock. */
  predicate Single(r: Race, p: Id, q: Id) {
    RowOf(r, p).Some? ==>
      && RowOf(r, p).value !in r.rows
      && (p != q && RowOf(r, q).Some? ==>
            r.running[p].license != r.running[q].license && RowOf(r, p) != RowOf(r, q))
      && (p != q && q in r.running && InSection(r.running[q].phase) ==> r.running[q].license != r.running[p].license)
  }

  ghost predicate OnePending(r: Race) {
    forall p, q :: Single(r, p, q)
  }

  /** The live rows do not exceed what `p` counted under the lock. */
  predicate CountHolds(r: Race, p: Id) {
    p in r.running && r.running[p].phase.Counted? ==> |Alive(r.rows, r.running[p].license)| <= r.running[p].phase.seen
  }

  predicate LimitHolds(r: Race, l: Id) {
    l in r.limits ==> |Alive(r.rows, l)| <= r.limits[l]
  }

  /** There is room for the pending row of `p`. */
  predicate RoomHolds(r: Race, p: Id) {
    RowOf(r, p).Some? ==>
      r.running[p].license in r.limits && |Alive(r.rows, r.running[p].license)| < r.limits[r.running[p].license]
  }

  ghost predicate Bounded(r: Race) {
    && (forall p :: CountHolds(r, p))
    && (forall l :: LimitHolds(r, l))
    && (forall p :: RoomHolds(r, p))
  }

  lemma SingleAfterFlush(r: Race, a: Id, matched: bool, row: Id, p: Id, q: Id)
    requires OnePending(r) && Exclusive(r)
    ensures Single(DoFlush(r, a, matched, row), p, q)
  {
    assert Single(r, p, q) && Single(r, q, p) && Apart(r, p, q);
  }

  lemma SingleAfterTryLock(r: Race, a: Id, p: Id, q: Id)
    requires OnePending(r) && Exclusive(r) && WithinTtl(r) && CommittedFirst(r, TryLock(a))
    ensures Single(DoTryLock(r, a), p, q)
  {
    assert Single(r, p, q);
    if Locks(r, a) {
      assert Settled(r, p, r.running[a].license) && Owns(r, p) && Timely(r, p);
    }
  }

  lemma SingleAfterCommit(r: Race, a: Id, p: Id, q: Id)
    requires OnePending(r)
    ensures Single(DoCommit(r, a), p, q)
  {
    assert Single(r, p, q) && Single(r, p, a);
  }

  lemma SingleAfterReap(r: Race, dead: set<Id>, p: Id, q: Id)
    requires OnePending(r)
    ensures Single(DoReap(r, dead), p, q)
  {
    assert Single(r, p, q);
    assert DoReap(r, dead).rows.Keys == r.rows.Keys;
  }

  lemma SingleNext(r: Race, step: Step, p: Id, q: Id)
    requires Exclusive(r) && WithinTtl(r) && CommittedFirst(r, step) && OnePending(r)
    ensures Single(Next(r, step), p, q)
  {
    match step
    case Flush(a, matched, row) => SingleAfterFlush(r, a, matched, row, p, q);
    case TryLock(a) => SingleAfterTryLock(r, a, p, q);
    case Commit(a) => SingleAfterCommit(r, a, p, q);
    case Reap(dead) => SingleAfterReap(r, dead, p, q);
    case _ => assert Single(r, p, q);
  }

  lemma OnePendingNext(r: Race, step: Step)
    requires Exclusive(r) && WithinTtl(r) && CommittedFirst(r, step) && OnePending(r)
    ensures OnePending(Next(r, step))
  {
    forall p, q ensures Single(Next(r, step), p, q) {
      SingleNext(r, step, p, q);
    }
  }

  lemma AliveAfterCommit(rows: map<Id, Row>, row: Id, l: Id, m: Id)
    requires row !in rows
    ensures |Alive(rows[row := Row(l, true)], m)| == |Alive(rows, m)| + if m == l then 1 else 0
  {
    if m == l {
      assert Alive(rows[row := Row(l, true)], m) == Alive(rows, m) + {row};
    } else {
      assert Alive(rows[row := Row(l, true)], m) == Alive(rows, m);
    }
  }

  lemma AliveAfterReap(r: Race, dead: set<Id>, l: Id)
    ensures |Alive(DoReap(r, dead).rows, l)| <= |Alive(r.rows, l)|
  {
    assert Alive(DoReap(r, dead).rows, l) == Alive(r.rows, l) - dead;
  }

  lemma BoundedAfterReap(r: Race, dead: set<Id>)
    requires Bounded(r)
    ensures Bounded(DoReap(r, dead))
  {
    var r' := DoReap(r, dead);
    forall p ensures CountHolds(r', p) && RoomHolds(r', p) {
      assert CountHolds(r, p) && RoomHolds(r, p);
      if p in r.running {
        AliveAfterReap(r, dead, r.running[p].license);
      }
    }
    forall l ensures LimitHolds(r', l) {
      assert LimitHolds(r, l);
      AliveAfterReap(r, dead, l);
    }
  }

  lemma BoundedAfterCommit(r: Race, a: Id)
    requires OnePending(r) && Bounded(r)
    ensures Bounded(DoCommit(r, a))
  {
    var r' := DoCommit(r, a);
    forall p ensures CountHolds(r', p) && RoomHolds(r', p) {
      assert CountHolds(r, p) && RoomHolds(r, p) && Single(r, a, p);
      if RowOf(r, a).Some? && p in r.running {
        AliveAfterCommit(r.rows, RowOf(r, a).value, r.running[a].license, r.running[p].license);
      }
    }
    forall l ensures LimitHolds(r', l) {
      assert LimitHolds(r, l) && RoomHolds(r, a) && Single(r, a, a);
      if RowOf(r, a).Some? {
        AliveAfterCommit(r.rows, RowOf(r, a).value, r.running[a].license, l);
      }
    }
  }

  /** The remaining steps change no committed row; a flush looks at the count it holds. */
  lemma BoundedAfterMove(r: Race, step: Step)
    requires Bounded(r) && !step.Commit? && !step.Reap?
    ensures Bounded(Next(r, step))
  {
    var r' := Next(r, step);
    forall p ensures CountHolds(r', p) && RoomHolds(r', p) {
      assert CountHolds(r, p) && RoomHolds(r, p);
    }
    forall l ensures LimitHolds(r', l) {
      assert LimitHolds(r, l);
    }
  }

  lemma BoundedNext(r: Race, step: Step)
    requires OnePending(r) && Bounded(r)
    ensures Bounded(Next(r, step))
  {
    match step
    case Commit(p) => BoundedAfterCommit(r, p);
    case Reap(dead) => BoundedAfterReap(r, dead);
    case _ => BoundedAfterMove(r, step);
  }

  /** In every run in which each holder releases within the lock's ten seconds and commits before another activation of
      that licence takes the lock, committed active bindings never exceed the limit, reaper and crashes included. */
  lemma {:induction false} SeatBoundUnderInterleaving(r: Race, steps: seq<Step>)
    requires Idle(r) && (forall l :: l in r.limits ==> |Alive(r.rows, l)| <= r.limits[l])
    requires AllWithinTtl(r, steps) && AllCommittedFirst(r, steps)
    ensures forall l :: l in Run(r, steps).limits ==> |Alive(Run(r, steps).rows, l)| <= Run(r, steps).limits[l]
  {
    BoundHolds(r, steps);
    forall l | l in Run(r, steps).limits ensures |Alive(Run(r, steps).rows, l)| <= Run(r, steps).limits[l] {
      assert LimitHolds(Run(r, steps), l);
    }
  }

  lemma IdleIsBounded(r: Race)
    requires Idle(r) && (forall l :: l in r.limits ==> |Alive(r.rows, l)| <= r.limits[l])
    ensures OnePending(r) && Bounded(r)
  {
  }

  lemma {:induction false} BoundHolds(r: Race, steps: seq<Step>)
    requires Idle(r) && (forall l :: l in r.limits ==> |Alive(r.rows, l)| <= r.limits[l])
    requires AllWithinTtl(r, steps) && AllCommittedFirst(r, steps)
    ensures OnePending(Run(r, steps)) && Bounded(Run(r, steps))
  {
    if steps == [] {
      IdleIsBounded(r);
    } else {
      var init, last := steps[..|steps| - 1], steps[|steps| - 1];
      forall i | 0 <= i <= |init| ensures WithinTtl(Run(r, init[..i])) {
        assert init[..i] == steps[..i];
      }
      forall i | 0 <= i < |init| ensures CommittedFirst(Run(r, init[..i]), init[i]) {
        assert init[..i] == steps[..i];
      }
      BoundHolds(r, init);
      MutualExclusion(r, init);
      assert init[..|init|] == init;
      assert steps[..|init|] == init;
      OnePendingNext(Run(r, init), last);
      BoundedNext(Run(r, init), last);
    }
  }
}

/** Taking the seat lock. */
module SeatLock {
  import opened Basics
  import opened SeatRace

  const ATTEMPTS: nat := 50
  const PAUSE: int := SECOND / 10

  /** The first attempt, of those from `i` on, that finds no live key; attempt `k` is made at `start + k * PAUSE`
      and finds the key with deadline `seen[k]`, if any. */
  function FirstFree(seen: seq<Option<Time>>, start: Time, i: nat): (r: Option<nat>)
    requires i <= |seen|
    ensures r.Some? ==> i <= r.value < |seen|
    decreases |seen| - i
  {
    if i == |seen| then None
    else if seen[i].None? || seen[i].value <= start + i * PAUSE then Some(i)
    else FirstFree(seen, start, i + 1)
  }

  class LockStore {
    var deadline: Option<Time>

    constructor ()
      ensures deadline == None
    {
      deadline := None;
    }

    /** Up to fifty `SET NX` a tenth of a second apart; other clients change the key in between as `seen` tells.
        The lock is got at the first attempt that finds it free, for ten seconds from then, or not at all. */
    method Acquire(start: Time, seen: seq<Option<Time>>) returns (got: bool)
      requires |seen| == ATTEMPTS
      modifies this
      ensures var free := FirstFree(seen, start, 0);
        && got == free.Some?
        && deadline == if got then Some(start + free.value * PAUSE + LOCK_TTL) else seen[ATTEMPTS - 1]
    {
      for i := 0 to ATTEMPTS
        invariant FirstFree(seen, start, 0) == FirstFree(seen, start, i)
        invariant i > 0 ==> deadline == seen[i - 1]
      {
        deadline := seen[i];
        if deadline.None? || deadline.value <= start + i * PAUSE {
          deadline := Some(start + i * PAUSE + LOCK_TTL);
          return true;
        }
      }
      got := false;
    }

    method Release()
      modifies this
      ensures deadline == None
    {
      deadline := None;
    }
  }

  /** A refusal as busy means that a live key was found at every attempt, that is for at least 4.9 seconds. */
  lemma {:induction false} BusyMeansHeldThroughout(seen: seq<Option<Time>>, start: Time, i: nat)
    requires i <= |seen|
    ensures FirstFree(seen, start, i).None? <==>
      forall k :: i <= k < |seen| ==> seen[k].Some? && seen[k].value > start + k * PAUSE
    decreases |seen| - i
  {
    if i < |seen| {
      BusyMeansHeldThroughout(seen, start, i + 1);
    }
  }

  /** A key that nobody touches is found at every attempt exactly if it lives past the last, 4.9 seconds from the
      start. */
  lemma BusyForFiveSeconds(seen: seq<Option<Time>>, start: Time, deadline: Time)
    requires |seen| == ATTEMPTS && forall k :: 0 <= k < |seen| ==> seen[k] == Some(deadline)
    ensures FirstFree(seen, start, 0).None? <==> deadline > start + 4_900_000_000
  {
    BusyMeansHeldThroughout(seen, start, 0);
    assert seen[ATTEMPTS - 1] == Some(deadline);
  }
}
