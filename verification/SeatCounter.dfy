/** When the seat counter stays right, although it is loaded before the lock and written back whole. */
module SeatCounter {
  import opened Basics
  import opened SeatRace

  /** Every counter is the number of live rows of its licence. */
  ghost predicate CounterRight(r: Race) {
    forall l :: l in r.used ==> r.used[l] == |Alive(r.rows, l)|
  }

  /** In this state and in every one before it. */
  ghost predicate RightThroughout(r: Race, steps: seq<Step>) {
    CounterRight(Run(r, steps)) && (steps != [] ==> RightThroughout(r, steps[..|steps| - 1]))
  }

  /** A commit that puts a new row into the table. */
  predicate TakesSeat(r: Race, step: Step) {
    && step.Commit? && step.p in r.running && r.running[step.p].phase.Released?
    && r.running[step.p].phase.pending.Some?
  }

  /** A reap under which a live row of `l` dies. */
  predicate FreesSeat(r: Race, step: Step, l: Id) {
    step.Reap? && Alive(r.rows, l) * step.dead != {}
  }

  /** The step takes or frees a seat of `l`. */
  predicate Touches(r: Race, step: Step, l: Id) {
    (TakesSeat(r, step) && r.running[step.p].license == l) || FreesSeat(r, step, l)
  }

  /** Whether `p` had loaded its licence before the last of these steps. */
  predicate LoadedBefore(r: Race, steps: seq<Step>, p: Id) {
    steps != [] && p in Run(r, steps[..|steps| - 1]).running
  }

  /** The live rows of the licence of `p` when `p` loaded it. */
  function SeatsAtLoad(r: Race, steps: seq<Step>, p: Id): nat
    requires p in Run(r, steps).running
  {
    if LoadedBefore(r, steps, p) then SeatsAtLoad(r, steps[..|steps| - 1], p)
    else |Alive(Run(r, steps).rows, Run(r, steps).running[p].license)|
  }

  /** Since `p` loaded its licence no step took or freed a seat of it. */
  predicate QuietSince(r: Race, steps: seq<Step>, p: Id)
    requires p in Run(r, steps).running
  {
    LoadedBefore(r, steps, p) ==>
      var init := steps[..|steps| - 1];
      QuietSince(r, init, p) && !Touches(Run(r, init), steps[|steps| - 1], Run(r, init).running[p].license)
  }

  /** Every commit of a new row finds as many live rows of the licence as there were when it was loaded. */
  ghost predicate CommitsAsLoaded(r: Race, steps: seq<Step>) {
    steps != [] ==>
      var init, last := steps[..|steps| - 1], steps[|steps| - 1];
      && CommitsAsLoaded(r, init)
      && (TakesSeat(Run(r, init), last) ==>
            SeatsAtLoad(r, init, last.p) == |Alive(Run(r, init).rows, Run(r, init).running[last.p].license)|)
  }

  /** Between an activation's load and its commit of a new row no other step takes or frees a seat of the licence. */
  ghost predicate CommitsAlone(r: Race, steps: seq<Step>) {
    steps != [] ==>
      var init, last := steps[..|steps| - 1], steps[|steps| - 1];
      CommitsAlone(r, init) && (TakesSeat(Run(r, init), last) ==> QuietSince(r, init, last.p))
  }

  /** Activations may have loaded their licence, and have its counter right, but none is further. */
  ghost predicate Ready(r: Race) {
    && Idle(r) && CounterRight(r)
    && forall p :: p in r.running ==>
         r.running[p].license in r.used && r.running[p].loadedUsed == r.used[r.running[p].license]
  }

  // ----- pending rows -----

  /** The pending row of `p` is nobody else's, and not in the table. */
  predicate Own(r: Race, p: Id, q: Id) {
    RowOf(r, p).Some? ==> RowOf(r, p).value !in r.rows && (p != q ==> RowOf(r, q) != RowOf(r, p))
  }

  ghost predicate PendingOwn(r: Race) {
    forall p, q :: Own(r, p, q)
  }

  /** Nothing changes the licence or the counter an activation loaded. */
  predicate LoadStays(r: Race, r': Race, p: Id) {
    p in r.running ==>
      && p in r'.running && r'.running[p].license == r.running[p].license
      && r'.running[p].loadedUsed == r.running[p].loadedUsed
  }

  lemma LoadStaysNext(r: Race, step: Step, p: Id)
    ensures LoadStays(r, Next(r, step), p)
  {
  }

  lemma OwnNext(r: Race, step: Step, p: Id, q: Id)
    requires PendingOwn(r)
    ensures Own(Next(r, step), p, q)
  {
    assert Own(r, p, q) && Own(r, q, p);
    if step.Commit? {
      assert Own(r, p, step.p);
    } else if step.Reap? {
      assert Next(r, step).rows.Keys == r.rows.Keys;
    }
  }

  lemma {:induction false} PendingOwnRun(r: Race, steps: seq<Step>)
    requires Idle(r)
    ensures PendingOwn(Run(r, steps))
  {
    if steps != [] {
      var init := steps[..|steps| - 1];
      PendingOwnRun(r, init);
      forall p, q ensures Own(Run(r, steps), p, q) {
        OwnNext(Run(r, init), steps[|steps| - 1], p, q);
      }
    }
  }

  // ----- live rows -----

  lemma AliveAfterReapExactly(r: Race, dead: set<Id>, l: Id)
    ensures |Alive(DoReap(r, dead).rows, l)| == |Alive(r.rows, l)| - |Alive(r.rows, l) * dead|
  {
    var alive := Alive(r.rows, l);
    assert Alive(DoReap(r, dead).rows, l) == alive - dead;
    assert alive == (alive - dead) + alive * dead;
  }

  /** Only commits of new rows and reaps change how many live rows a licence has. */
  lemma AliveNext(r: Race, step: Step, l: Id)
    requires PendingOwn(r)
    ensures var n, n' := |Alive(r.rows, l)|, |Alive(Next(r, step).rows, l)|;
      && (!Touches(r, step, l) ==> n' == n)
      && (TakesSeat(r, step) && r.running[step.p].license == l ==> n' == n + 1)
      && (step.Reap? ==> n' == n - |Alive(r.rows, l) * step.dead|)
  {
    if TakesSeat(r, step) {
      assert Own(r, step.p, step.p);
      AliveAfterCommit(r.rows, RowOf(r, step.p).value, r.running[step.p].license, l);
    } else if step.Reap? {
      AliveAfterReapExactly(r, step.dead, l);
    }
  }

  // ----- one step -----

  ghost predicate LicensesCounted(r: Race) {
    forall p :: p in r.running ==> r.running[p].license in r.used
  }

  lemma CounterAfterCommit(r: Race, p: Id)
    requires PendingOwn(r) && CounterRight(r) && LicensesCounted(r) && TakesSeat(r, Commit(p))
    ensures CounterRight(DoCommit(r, p)) <==> r.running[p].loadedUsed == |Alive(r.rows, r.running[p].license)|
  {
    forall l
      ensures |Alive(DoCommit(r, p).rows, l)| == |Alive(r.rows, l)| + if l == r.running[p].license then 1 else 0
    {
      AliveNext(r, Commit(p), l);
    }
    assert r.running[p].license in DoCommit(r, p).used;
  }

  lemma CounterAfterReap(r: Race, dead: set<Id>)
    requires CounterRight(r)
    ensures CounterRight(DoReap(r, dead))
  {
    forall l | l in r.used ensures DoReap(r, dead).used[l] == |Alive(DoReap(r, dead).rows, l)| {
      AliveAfterReapExactly(r, dead, l);
    }
  }

  /** Only a commit of a new row can make a counter wrong: it writes the loaded one, plus one. */
  lemma CounterNext(r: Race, step: Step)
    requires PendingOwn(r) && CounterRight(r) && LicensesCounted(r)
    ensures CounterRight(Next(r, step)) <==>
      (TakesSeat(r, step) ==> r.running[step.p].loadedUsed == |Alive(r.rows, r.running[step.p].license)|)
  {
    if TakesSeat(r, step) {
      CounterAfterCommit(r, step.p);
    } else if step.Reap? {
      CounterAfterReap(r, step.dead);
    }
  }

  lemma CountedNext(r: Race, step: Step)
    requires LicensesCounted(r)
    ensures LicensesCounted(Next(r, step)) && r.used.Keys <= Next(r, step).used.Keys
  {
  }

  lemma {:induction false} CountedRun(r: Race, steps: seq<Step>)
    requires LicensesCounted(r)
    ensures LicensesCounted(Run(r, steps))
  {
    if steps != [] {
      CountedRun(r, steps[..|steps| - 1]);
      CountedNext(Run(r, steps[..|steps| - 1]), steps[|steps| - 1]);
    }
  }

  // ----- whole runs -----

  lemma LoadsCounter(r: Race, step: Step, p: Id)
    requires p !in r.running && p in Next(r, step).running
    ensures var r' := Next(r, step);
      r'.running[p].license in r'.used && r'.running[p].loadedUsed == r'.used[r'.running[p].license]
  {
  }

  /** While every counter was right, an activation loaded the number of live rows. */
  lemma {:induction false} LoadedCounter(r: Race, steps: seq<Step>, p: Id)
    requires Ready(r) && RightThroughout(r, steps) && p in Run(r, steps).running
    ensures Run(r, steps).running[p].loadedUsed == SeatsAtLoad(r, steps, p)
  {
    if LoadedBefore(r, steps, p) {
      LoadedCounter(r, steps[..|steps| - 1], p);
      LoadStaysNext(Run(r, steps[..|steps| - 1]), steps[|steps| - 1], p);
    } else if steps != [] {
      LoadsCounter(Run(r, steps[..|steps| - 1]), steps[|steps| - 1], p);
    }
  }

  /** In every run: the counters are right throughout if and only if each commit of a new row finds as many live rows
      of its licence as there were when it was loaded.  The lock has no part in this. */
  lemma {:induction false} CounterRightExactly(r: Race, steps: seq<Step>)
    requires Ready(r)
    ensures RightThroughout(r, steps) <==> CommitsAsLoaded(r, steps)
  {
    if steps != [] {
      var init, last := steps[..|steps| - 1], steps[|steps| - 1];
      CounterRightExactly(r, init);
      if RightThroughout(r, init) {
        PendingOwnRun(r, init);
        CountedRun(r, init);
        CounterNext(Run(r, init), last);
        if TakesSeat(Run(r, init), last) {
          LoadedCounter(r, init, last.p);
        }
      }
    }
  }

  predicate NoReap(steps: seq<Step>) {
    forall i :: 0 <= i < |steps| ==> !steps[i].Reap?
  }

  lemma {:induction false} SeatsSinceLoad(r: Race, steps: seq<Step>, p: Id)
    requires Idle(r) && p in Run(r, steps).running
    ensures var n := |Alive(Run(r, steps).rows, Run(r, steps).running[p].license)|;
      && (QuietSince(r, steps, p) ==> n == SeatsAtLoad(r, steps, p))
      && (NoReap(steps) ==> n >= SeatsAtLoad(r, steps, p))
      && (NoReap(steps) && n == SeatsAtLoad(r, steps, p) ==> QuietSince(r, steps, p))
  {
    if LoadedBefore(r, steps, p) {
      var init, last := steps[..|steps| - 1], steps[|steps| - 1];
      SeatsSinceLoad(r, init, p);
      LoadStaysNext(Run(r, init), last, p);
      PendingOwnRun(r, init);
      AliveNext(Run(r, init), last, Run(r, init).running[p].license);
    }
  }

  lemma {:induction false} AloneIsAsLoaded(r: Race, steps: seq<Step>)
    requires Idle(r)
    ensures CommitsAlone(r, steps) ==> CommitsAsLoaded(r, steps)
    ensures NoReap(steps) && CommitsAsLoaded(r, steps) ==> CommitsAlone(r, steps)
  {
    if steps != [] {
      var init, last := steps[..|steps| - 1], steps[|steps| - 1];
      AloneIsAsLoaded(r, init);
      if TakesSeat(Run(r, init), last) {
        SeatsSinceLoad(r, init, last.p);
      }
    }
  }

  /** So it is enough that between an activation's load and its commit of a new row no other step takes or frees a seat
      of the licence; and where nothing is reaped, it is also necessary. */
  lemma CommitsAloneKeepCounter(r: Race, steps: seq<Step>)
    requires Ready(r)
    ensures CommitsAlone(r, steps) ==> RightThroughout(r, steps)
    ensures NoReap(steps) ==> (RightThroughout(r, steps) <==> CommitsAlone(r, steps))
  {
    CounterRightExactly(r, steps);
    AloneIsAsLoaded(r, steps);
  }
}
