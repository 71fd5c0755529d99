/** Runs of two activations that exceed any seat limit, or lose an update of the counter. */
module SeatRuns {
  import opened Basics
  import opened SeatRace

  // ----- short runs -----

  lemma {:induction false} Append(r: Race, first: seq<Step>, second: seq<Step>)
    ensures Run(r, first + second) == Run(Run(r, first), second)
  {
    if second == [] {
      assert first + second == first;
    } else {
      var init := second[..|second| - 1];
      Append(r, first, init);
      assert (first + second)[..|first + second| - 1] == first + init;
    }
  }

  lemma Three(r: Race, a: Step, b: Step, c: Step)
    ensures Run(r, [a, b, c]) == Next(Next(Next(r, a), b), c)
  {
    assert [a, b, c][..2] == [a, b] && [a, b][..1] == [a] && [a][..0] == [];
    assert Run(r, [a]) == Next(r, a);
    assert Run(r, [a, b]) == Next(Next(r, a), b);
  }

  lemma Five(r: Race, a: Step, b: Step, c: Step, d: Step, e: Step)
    ensures Run(r, [a, b, c, d, e]) == Next(Next(Next(Next(Next(r, a), b), c), d), e)
  {
    Three(r, a, b, c);
    assert [a, b, c, d, e][..4] == [a, b, c, d] && [a, b, c, d][..3] == [a, b, c];
  }

  /** A run that takes no time keeps within the lock's ten seconds. */
  ghost predicate Instant(r: Race, now: Time) {
    && r.now == now
    && forall p :: p in r.running && InSection(r.running[p].phase) ==> r.running[p].phase.since == now
  }

  lemma InstantNext(r: Race, step: Step, now: Time)
    requires Instant(r, now) && !step.Tick?
    ensures Instant(Next(r, step), now)
  {
  }

  lemma {:induction false} InstantRun(r: Race, steps: seq<Step>)
    requires Idle(r) && forall i :: 0 <= i < |steps| ==> !steps[i].Tick?
    ensures Instant(Run(r, steps), r.now)
  {
    if steps != [] {
      InstantRun(r, steps[..|steps| - 1]);
      InstantNext(Run(r, steps[..|steps| - 1]), steps[|steps| - 1], r.now);
    }
  }

  lemma InstantRunIsWithinTtl(r: Race, steps: seq<Step>)
    requires Idle(r) && forall i :: 0 <= i < |steps| ==> !steps[i].Tick?
    ensures AllWithinTtl(r, steps)
  {
    forall i | 0 <= i <= |steps| ensures WithinTtl(Run(r, steps[..i])) {
      InstantRun(r, steps[..i]);
    }
  }

  // ----- two activations of licence 0 -----

  /** The limit, the counter both loaded, and the rows each would insert. */
  datatype Setting = Setting(limit: nat, loaded: int, first: Id, second: Id)

  /** Activations 1 and 2 of licence 0, in these phases. */
  function Pair(g: Setting, now: Time, used: int, rows: map<Id, Row>, locks: map<Id, Time>, p: Phase, q: Phase): Race {
    Race(now, map[0 := g.limit], map[0 := used], rows, locks,
         map[1 := Activation(0, g.loaded, p), 2 := Activation(0, g.loaded, q)])
  }

  function Start(g: Setting, rows: map<Id, Row>): Race {
    Pair(g, 0, g.loaded, rows, map[], Loaded, Loaded)
  }

  /** Both load the licence, one after the other, with nothing running before. */
  lemma StartIsReached(g: Setting, rows: map<Id, Row>)
    ensures var idle := Race(0, map[0 := g.limit], map[0 := g.loaded], rows, map[], map[]);
      Run(idle, [Load(1, 0), Load(2, 0)]) == Start(g, rows)
  {
    var idle := Race(0, map[0 := g.limit], map[0 := g.loaded], rows, map[], map[]);
    assert [Load(1, 0), Load(2, 0)][..1] == [Load(1, 0)] && [Load(1, 0)][..0] == [];
    assert Run(idle, [Load(1, 0)]) == Next(idle, Load(1, 0));
  }

  function With(rows: map<Id, Row>, row: Id): map<Id, Row> {
    rows[row := Row(0, true)]
  }

  function Both(g: Setting, rows: map<Id, Row>): map<Id, Row> {
    With(With(rows, g.first), g.second)
  }

  /** The two new rows are new, and different. */
  predicate Unused(g: Setting, rows: map<Id, Row>) {
    g.first !in rows && g.second !in rows && g.first != g.second
  }

  lemma TwoMore(g: Setting, rows: map<Id, Row>)
    requires Unused(g, rows)
    ensures |Alive(With(rows, g.first), 0)| == |Alive(rows, 0)| + 1
    ensures |Alive(Both(g, rows), 0)| == |Alive(rows, 0)| + 2
  {
    AliveAfterCommit(rows, g.first, 0, 0);
    AliveAfterCommit(With(rows, g.first), g.second, 0, 0);
  }

  // ----- the lock is released before the commit -----

  /** 1 counts, inserts and releases; 2 takes the lock. */
  function Overtake(g: Setting): seq<Step> {
    [TryLock(1), Count(1), Flush(1, false, g.first), Release(1), TryLock(2)]
  }

  /** 2 counts; then both commit. */
  function Finish(g: Setting): seq<Step> {
    [Count(2), Commit(1), Flush(2, false, g.second), Release(2), Commit(2)]
  }

  function Overtaking(g: Setting, rows: map<Id, Row>): Race {
    Pair(g, 0, g.loaded, rows, map[0 := LOCK_TTL], Released(Some(g.first)), Holding(0))
  }

  lemma FirstCounted(g: Setting, rows: map<Id, Row>)
    ensures DoCount(DoTryLock(Start(g, rows), 1), 1)
      == Pair(g, 0, g.loaded, rows, map[0 := LOCK_TTL], Counted(0, |Alive(rows, 0)|), Loaded)
  {
  }

  lemma FirstReleased(g: Setting, rows: map<Id, Row>)
    requires Unused(g, rows) && |Alive(rows, 0)| < g.limit
    ensures DoRelease(DoFlush(DoCount(DoTryLock(Start(g, rows), 1), 1), 1, false, g.first), 1)
      == Pair(g, 0, g.loaded, rows, map[], Released(Some(g.first)), Loaded)
  {
    FirstCounted(g, rows);
  }

  lemma OvertakingIsReached(g: Setting, rows: map<Id, Row>)
    requires Unused(g, rows) && |Alive(rows, 0)| < g.limit
    ensures DoTryLock(DoRelease(DoFlush(DoCount(DoTryLock(Start(g, rows), 1), 1), 1, false, g.first), 1), 2)
      == Overtaking(g, rows)
  {
    FirstReleased(g, rows);
  }

  lemma OvertakeRun(g: Setting, rows: map<Id, Row>)
    requires Unused(g, rows) && |Alive(rows, 0)| < g.limit
    ensures Run(Start(g, rows), Overtake(g)) == Overtaking(g, rows)
  {
    Five(Start(g, rows), TryLock(1), Count(1), Flush(1, false, g.first), Release(1), TryLock(2));
    OvertakingIsReached(g, rows);
  }

  /** The first activation commits the row it inserted, whatever the second is at. */
  lemma FirstCommits(g: Setting, now: Time, rows: map<Id, Row>, locks: map<Id, Time>, q: Phase)
    ensures DoCommit(Pair(g, now, g.loaded, rows, locks, Released(Some(g.first)), q), 1)
      == Pair(g, now, g.loaded + 1, With(rows, g.first), locks, Finished, q)
  {
    var r := Pair(g, now, g.loaded, rows, locks, Released(Some(g.first)), q);
    FirstMoves(g, now, rows, locks, Released(Some(g.first)), Finished, q);
    assert DoCommit(r, 1) == Moved(r, 1, Finished).(rows := With(rows, g.first), used := r.used[0 := g.loaded + 1]);
  }

  lemma FirstMoves(g: Setting, now: Time, rows: map<Id, Row>, locks: map<Id, Time>, p: Phase, p': Phase, q: Phase)
    ensures Moved(Pair(g, now, g.loaded, rows, locks, p, q), 1, p') == Pair(g, now, g.loaded, rows, locks, p', q)
  {
  }

  lemma FirstCommitted(g: Setting, rows: map<Id, Row>)
    ensures DoCommit(DoCount(Overtaking(g, rows), 2), 1)
      == Pair(g, 0, g.loaded + 1, With(rows, g.first), map[0 := LOCK_TTL], Finished, Counted(0, |Alive(rows, 0)|))
  {
    var q := Counted(0, |Alive(rows, 0)|);
    assert DoCount(Overtaking(g, rows), 2)
        == Pair(g, 0, g.loaded, rows, map[0 := LOCK_TTL], Released(Some(g.first)), q);
    FirstCommits(g, 0, rows, map[0 := LOCK_TTL], q);
  }

  /** The second activation inserts what it counted room for, and commits. */
  lemma SecondCommits(g: Setting, now: Time, rows: map<Id, Row>, locks: map<Id, Time>, seen: nat)
    requires g.second !in rows && seen < g.limit
    ensures var r := Pair(g, now, g.loaded + 1, rows, locks, Finished, Counted(now, seen));
      var r' := DoCommit(DoRelease(DoFlush(r, 2, false, g.second), 2), 2);
      r'.rows == With(rows, g.second) && r'.used == map[0 := g.loaded + 1]
  {
    var r := Pair(g, now, g.loaded + 1, rows, locks, Finished, Counted(now, seen));
    assert DoFlush(r, 2, false, g.second)
        == Pair(g, now, g.loaded + 1, rows, locks, Finished, Flushed(now, Some(g.second)));
  }

  lemma FinishIsReached(g: Setting, rows: map<Id, Row>)
    requires Unused(g, rows) && |Alive(rows, 0)| < g.limit
    ensures DoCommit(DoRelease(DoFlush(DoCommit(DoCount(Overtaking(g, rows), 2), 1), 2, false, g.second), 2), 2).rows
      == Both(g, rows)
  {
    FirstCommitted(g, rows);
    SecondCommits(g, 0, With(rows, g.first), map[0 := LOCK_TTL], |Alive(rows, 0)|);
  }

  lemma FinishRun(g: Setting, rows: map<Id, Row>)
    requires Unused(g, rows) && |Alive(rows, 0)| < g.limit
    ensures Run(Overtaking(g, rows), Finish(g)).rows == Both(g, rows)
  {
    Five(Overtaking(g, rows), Count(2), Commit(1), Flush(2, false, g.second), Release(2), Commit(2));
    FinishIsReached(g, rows);
  }

  /** The service releases the lock before it commits.  An activation that takes the lock in between does not see the
      first row: whatever the limit, one seat more than it is taken, without any delay. */
  lemma ReleaseBeforeCommitExceedsLimit(g: Setting, rows: map<Id, Row>)
    requires Unused(g, rows) && |Alive(rows, 0)| == g.limit - 1
    ensures Idle(Start(g, rows)) && AllWithinTtl(Start(g, rows), Overtake(g) + Finish(g))
    ensures |Alive(Run(Start(g, rows), Overtake(g) + Finish(g)).rows, 0)| == g.limit + 1
  {
    InstantRunIsWithinTtl(Start(g, rows), Overtake(g) + Finish(g));
    Append(Start(g, rows), Overtake(g), Finish(g));
    OvertakeRun(g, rows);
    FinishRun(g, rows);
    TwoMore(g, rows);
  }

  // ----- the lock expires under its holder -----

  /** 1 counts and is then held up for ten seconds; 2 takes the lock and counts. */
  const HOLD_UP: seq<Step> := [TryLock(1), Count(1), Tick(10_000_000_000), TryLock(2), Count(2)]

  /** 1 and 2 insert, in this order, and commit. */
  function BothFinish(g: Setting): seq<Step> {
    [Flush(1, false, g.first), Release(1), Commit(1)] + [Flush(2, false, g.second), Release(2), Commit(2)]
  }

  function HeldUp(g: Setting, rows: map<Id, Row>): Race {
    var n := |Alive(rows, 0)|;
    Pair(g, LOCK_TTL, g.loaded, rows, map[0 := 2 * LOCK_TTL], Counted(0, n), Counted(LOCK_TTL, n))
  }

  function FirstDone(g: Setting, rows: map<Id, Row>): Race {
    Pair(g, LOCK_TTL, g.loaded + 1, With(rows, g.first), map[], Finished, Counted(LOCK_TTL, |Alive(rows, 0)|))
  }

  lemma HeldUpIsReached(g: Setting, rows: map<Id, Row>)
    ensures DoCount(DoTryLock(DoCount(DoTryLock(Start(g, rows), 1), 1).(now := LOCK_TTL), 2), 2) == HeldUp(g, rows)
  {
    FirstCounted(g, rows);
  }

  lemma HoldUpRun(g: Setting, rows: map<Id, Row>)
    ensures Run(Start(g, rows), HOLD_UP) == HeldUp(g, rows)
  {
    Five(Start(g, rows), TryLock(1), Count(1), Tick(10_000_000_000), TryLock(2), Count(2));
    HeldUpIsReached(g, rows);
  }

  lemma FirstInserts(g: Setting, rows: map<Id, Row>)
    requires Unused(g, rows) && |Alive(rows, 0)| < g.limit
    ensures DoFlush(HeldUp(g, rows), 1, false, g.first)
      == Pair(g, LOCK_TTL, g.loaded, rows, map[0 := 2 * LOCK_TTL], Flushed(0, Some(g.first)),
              Counted(LOCK_TTL, |Alive(rows, 0)|))
  {
  }

  /** It releases a lock that is no longer its own. */
  lemma FirstReleases(g: Setting, now: Time, rows: map<Id, Row>, until: Time, q: Phase)
    ensures DoRelease(Pair(g, now, g.loaded, rows, map[0 := until], Flushed(0, Some(g.first)), q), 1)
      == Pair(g, now, g.loaded, rows, map[], Released(Some(g.first)), q)
  {
  }

  lemma FirstDoneIsReached(g: Setting, rows: map<Id, Row>)
    requires Unused(g, rows) && |Alive(rows, 0)| < g.limit
    ensures DoCommit(DoRelease(DoFlush(HeldUp(g, rows), 1, false, g.first), 1), 1) == FirstDone(g, rows)
  {
    var q := Counted(LOCK_TTL, |Alive(rows, 0)|);
    FirstInserts(g, rows);
    FirstReleases(g, LOCK_TTL, rows, 2 * LOCK_TTL, q);
    FirstCommits(g, LOCK_TTL, rows, map[], q);
  }

  lemma FirstRun(g: Setting, rows: map<Id, Row>)
    requires Unused(g, rows) && |Alive(rows, 0)| < g.limit
    ensures Run(HeldUp(g, rows), [Flush(1, false, g.first), Release(1), Commit(1)]) == FirstDone(g, rows)
  {
    Three(HeldUp(g, rows), Flush(1, false, g.first), Release(1), Commit(1));
    FirstDoneIsReached(g, rows);
  }

  lemma SecondRun(g: Setting, rows: map<Id, Row>)
    requires Unused(g, rows) && |Alive(rows, 0)| < g.limit
    ensures Run(FirstDone(g, rows), [Flush(2, false, g.second), Release(2), Commit(2)]).rows == Both(g, rows)
  {
    Three(FirstDone(g, rows), Flush(2, false, g.second), Release(2), Commit(2));
    SecondCommits(g, LOCK_TTL, With(rows, g.first), map[], |Alive(rows, 0)|);
  }

  lemma HeldUpSecondLock(g: Setting, rows: map<Id, Row>)
    ensures CommittedFirst(Run(Start(g, rows), [TryLock(1), Count(1), Tick(10_000_000_000)]), TryLock(2))
  {
    Three(Start(g, rows), TryLock(1), Count(1), Tick(10_000_000_000));
  }

  /** At both moments when the lock is taken nothing is released and uncommitted. */
  lemma HeldUpCommitsFirst(g: Setting, rows: map<Id, Row>)
    ensures AllCommittedFirst(Start(g, rows), HOLD_UP + BothFinish(g))
  {
    var r, steps := Start(g, rows), HOLD_UP + BothFinish(g);
    forall i | 0 <= i < |steps| ensures CommittedFirst(Run(r, steps[..i]), steps[i]) {
      if i == 0 {
        assert steps[..0] == [];
      } else if i == 3 {
        HeldUpSecondLock(g, rows);
        assert steps[..3] == [TryLock(1), Count(1), Tick(10_000_000_000)];
      } else {
        assert !steps[i].TryLock?;
      }
    }
  }

  /** When a holder outlives its ten seconds the bound fails too, whatever the limit, although every commit comes in
      time. */
  lemma ExpiredLockExceedsLimit(g: Setting, rows: map<Id, Row>)
    requires Unused(g, rows) && |Alive(rows, 0)| == g.limit - 1
    ensures Idle(Start(g, rows)) && AllCommittedFirst(Start(g, rows), HOLD_UP + BothFinish(g))
    ensures |Alive(Run(Start(g, rows), HOLD_UP + BothFinish(g)).rows, 0)| == g.limit + 1
  {
    HeldUpCommitsFirst(g, rows);
    Append(Start(g, rows), HOLD_UP, BothFinish(g));
    HoldUpRun(g, rows);
    Append(HeldUp(g, rows), [Flush(1, false, g.first), Release(1), Commit(1)],
           [Flush(2, false, g.second), Release(2), Commit(2)]);
    FirstRun(g, rows);
    SecondRun(g, rows);
    TwoMore(g, rows);
  }

  // ----- the counter -----

  /** 2 has loaded the licence before 1 commits, and then activates strictly after it. */
  function FirstTurn(g: Setting): seq<Step> {
    [TryLock(1), Count(1), Flush(1, false, g.first), Release(1), Commit(1)]
  }

  function SecondTurn(g: Setting): seq<Step> {
    [TryLock(2), Count(2), Flush(2, false, g.second), Release(2), Commit(2)]
  }

  function TurnOver(g: Setting, rows: map<Id, Row>): Race {
    Pair(g, 0, g.loaded + 1, With(rows, g.first), map[], Finished, Loaded)
  }

  lemma TurnOverIsReached(g: Setting, rows: map<Id, Row>)
    requires Unused(g, rows) && |Alive(rows, 0)| < g.limit
    ensures DoCommit(DoRelease(DoFlush(DoCount(DoTryLock(Start(g, rows), 1), 1), 1, false, g.first), 1), 1)
      == TurnOver(g, rows)
  {
    FirstReleased(g, rows);
  }

  lemma FirstTurnRun(g: Setting, rows: map<Id, Row>)
    requires Unused(g, rows) && |Alive(rows, 0)| < g.limit
    ensures Run(Start(g, rows), FirstTurn(g)) == TurnOver(g, rows)
  {
    Five(Start(g, rows), TryLock(1), Count(1), Flush(1, false, g.first), Release(1), Commit(1));
    TurnOverIsReached(g, rows);
  }

  lemma SecondTurnIsReached(g: Setting, rows: map<Id, Row>)
    requires Unused(g, rows) && |Alive(With(rows, g.first), 0)| < g.limit
    ensures var r :=
        DoCommit(DoRelease(DoFlush(DoCount(DoTryLock(TurnOver(g, rows), 2), 2), 2, false, g.second), 2), 2);
      r.rows == Both(g, rows) && r.used == map[0 := g.loaded + 1]
  {
    var more := With(rows, g.first);
    assert DoCount(DoTryLock(TurnOver(g, rows), 2), 2)
        == Pair(g, 0, g.loaded + 1, more, map[0 := LOCK_TTL], Finished, Counted(0, |Alive(more, 0)|));
    SecondCommits(g, 0, more, map[0 := LOCK_TTL], |Alive(more, 0)|);
  }

  lemma SecondTurnRun(g: Setting, rows: map<Id, Row>)
    requires Unused(g, rows) && |Alive(With(rows, g.first), 0)| < g.limit
    ensures var r := Run(TurnOver(g, rows), SecondTurn(g)); r.rows == Both(g, rows) && r.used == map[0 := g.loaded + 1]
  {
    Five(TurnOver(g, rows), TryLock(2), Count(2), Flush(2, false, g.second), Release(2), Commit(2));
    SecondTurnIsReached(g, rows);
  }

  /** Conservation needs serial calls: the counter is loaded before the lock, so two activations whose locked sections
      and commits come strictly one after the other take two seats and count one, from any number of seats taken. */
  lemma CounterLosesUpdate(g: Setting, rows: map<Id, Row>)
    requires Unused(g, rows) && |Alive(rows, 0)| + 1 < g.limit && g.loaded == |Alive(rows, 0)|
    ensures Idle(Start(g, rows)) && AllWithinTtl(Start(g, rows), FirstTurn(g) + SecondTurn(g))
    ensures var r := Run(Start(g, rows), FirstTurn(g) + SecondTurn(g));
      |Alive(r.rows, 0)| == g.loaded + 2 && r.used == map[0 := g.loaded + 1]
  {
    InstantRunIsWithinTtl(Start(g, rows), FirstTurn(g) + SecondTurn(g));
    Append(Start(g, rows), FirstTurn(g), SecondTurn(g));
    TwoMore(g, rows);
    FirstTurnRun(g, rows);
    SecondTurnRun(g, rows);
  }
}
