/** Seats over whole serial runs: the counter equals the occupied seats and never passes the limit. */
module SeatLedger {
  import opened Basics
  import opened Tables
  import opened EdgeProtocol
  import opened IssuanceProtocol
  import opened CrlProtocol
  import opened Server
  import Jobs = WorkerProtocol

  ghost predicate SeatsOk(licenses: map<Id, License>, bindings: map<Id, Binding>) {
    forall l :: l in licenses && licenses[l].mode == Online ==>
      licenses[l].seatUsed == |ActiveOf(bindings, l)| && licenses[l].seatUsed <= licenses[l].seatLimit
  }

  lemma ActiveAfterRefresh(bindings: map<Id, Binding>, b: Id, row: Binding, l: Id)
    requires b in bindings && IsActive(bindings[b]) && IsActive(row) && row.license == bindings[b].license
    ensures ActiveOf(bindings[b := row], l) == ActiveOf(bindings, l)
  {
  }

  lemma ActiveAfterInsert(bindings: map<Id, Binding>, b: Id, row: Binding, l: Id)
    requires b !in bindings && IsActive(row)
    ensures ActiveOf(bindings[b := row], l) == ActiveOf(bindings, l) + if row.license == l then {b} else {}
    ensures |ActiveOf(bindings[b := row], l)| == |ActiveOf(bindings, l)| + if row.license == l then 1 else 0
  {
    assert ActiveOf(bindings[b := row], l) == ActiveOf(bindings, l) + if row.license == l then {b} else {};
    assert b !in ActiveOf(bindings, l);
  }

  lemma ActiveAfterReap(bindings: map<Id, Binding>, now: Time, l: Id)
    ensures |ActiveOf(Jobs.Buried(bindings, Jobs.Stale(bindings, now)), l)|
         == |ActiveOf(bindings, l)| - |Jobs.StaleOf(bindings, now, l)|
  {
    var active, stale := ActiveOf(bindings, l), Jobs.StaleOf(bindings, now, l);
    assert stale <= active;
    assert ActiveOf(Jobs.Buried(bindings, Jobs.Stale(bindings, now)), l) == active - stale;
  }

  lemma ActiveAfterActivate(s: State, s': State, l: Id, req: ActivateRequest, env: CallEnv, m: Id)
    requires TookSeat(s, s', l, req, env) && env.newBinding !in s.bindings
    ensures |ActiveOf(s'.bindings, m)|
         == |ActiveOf(s.bindings, m)| + if s'.licenses != s.licenses && m == l then 1 else 0
  {
    var b, row := SeatOf(s, l, req, env), SeatRow(s, l, req, env);
    if b in s.bindings {
      ActiveAfterRefresh(s.bindings, b, row, m);
    } else {
      ActiveAfterInsert(s.bindings, b, row, m);
      assert s'.licenses[l].seatUsed != s.licenses[l].seatUsed;
    }
  }

  lemma SeatsAfterActivate(s: State, req: ActivateRequest, env: CallEnv)
    requires UuidsOk(s) && FreshCall(s, env) && SeatsOk(s.licenses, s.bindings)
    ensures SeatsOk(Activate(s, req, env).0.licenses, Activate(s, req, env).0.bindings)
  {
    ActivateEffect(s, req, env);
    var (s', reply) := Activate(s, req, env);
    if reply.Granted? {
      var l := FindByCode(s.licenses, req.onlineCode).value;
      forall m ensures |ActiveOf(s'.bindings, m)|
                    == |ActiveOf(s.bindings, m)| + if s'.licenses != s.licenses && m == l then 1 else 0 {
        ActiveAfterActivate(s, s', l, req, env, m);
      }
    }
  }

  lemma SeatsAfterIssue(s: State, row: Id, lic: License)
    requires BindingsOk(s.licenses, s.bindings) && SeatsOk(s.licenses, s.bindings) && row !in s.licenses
    requires lic.mode == Online ==> lic.seatUsed == 0
    ensures SeatsOk(s.licenses[row := lic], s.bindings)
  {
    assert ActiveOf(s.bindings, row) == {};
  }

  lemma SeatsAfterDelete(s: State, l: Id)
    requires SeatsOk(s.licenses, s.bindings)
    ensures SeatsOk(Delete(s, l).0.licenses, Delete(s, l).0.bindings)
  {
    var s' := Delete(s, l).0;
    forall m | m in s'.licenses ensures ActiveOf(s'.bindings, m) == ActiveOf(s.bindings, m) {
    }
  }

  /** The reaper's guard never fails, and each licence gives back exactly the seats it lost. */
  lemma ReaperReleasesExactly(s: State, now: Time, l: Id)
    requires SeatsOk(s.licenses, s.bindings) && l in s.licenses && s.licenses[l].mode == Online
    ensures s.licenses[l].seatUsed >= |Jobs.StaleOf(s.bindings, now, l)|
    ensures var s' := Jobs.Reap(s, now);
      s'.licenses[l].seatUsed == s.licenses[l].seatUsed - |Jobs.StaleOf(s.bindings, now, l)|
        == |ActiveOf(s'.bindings, l)|
  {
    ActiveAfterReap(s.bindings, now, l);
  }

  lemma SeatsAfterReap(s: State, now: Time)
    requires SeatsOk(s.licenses, s.bindings)
    ensures SeatsOk(Jobs.Reap(s, now).licenses, Jobs.Reap(s, now).bindings)
  {
    forall l | l in s.licenses && s.licenses[l].mode == Online
      ensures Jobs.Reap(s, now).licenses[l].seatUsed == |ActiveOf(Jobs.Reap(s, now).bindings, l)|
    {
      ReaperReleasesExactly(s, now, l);
    }
  }

  lemma SeatsNext(s: State, step: Step)
    requires TablesOk(s) && Enabled(s, step) && !step.StepStaleCommit? && SeatsOk(s.licenses, s.bindings)
    ensures SeatsOk(Next(s, step).licenses, Next(s, step).bindings)
  {
    match step
    case StepIssueOnline(req) => SeatsAfterIssue(s, req.row, OnlineLicense(req));
    case StepIssueOffline(req) => SeatsAfterIssue(s, req.row, OfflineLicense(req));
    case StepActivate(req, env) => SeatsAfterActivate(s, req, env);
    case StepValidate(req, env) => ValidateEffect(s, req, env);
    case StepRevoke(l, now, row) => RevokeEffect(s, l, now, row);
    case StepDelete(l) => SeatsAfterDelete(s, l);
    case StepReap(now) => SeatsAfterReap(s, now);
    case _ =>
  }

  /** Seat conservation and the seat bound, in every state of every serial run. */
  lemma SeatConservation(steps: seq<Step>)
    requires ValidRun(INITIAL, steps) && Serial(steps)
    ensures var s := Run(INITIAL, steps);
      forall l :: l in s.licenses && s.licenses[l].mode == Online ==>
        |ActiveOf(s.bindings, l)| == s.licenses[l].seatUsed <= s.licenses[l].seatLimit
  {
    SeatsRun(steps);
  }

  lemma {:induction false} SeatsRun(steps: seq<Step>)
    requires ValidRun(INITIAL, steps) && Serial(steps)
    ensures SeatsOk(Run(INITIAL, steps).licenses, Run(INITIAL, steps).bindings) && TablesOk(Run(INITIAL, steps))
  {
    TablesOkRun(INITIAL, steps);
    if steps != [] {
      var init := steps[..|steps| - 1];
      SeatsRun(init);
      SeatsNext(Run(INITIAL, init), steps[|steps| - 1]);
    }
  }

  /** A refusal for want of a seat records one identity more than the limit, and nothing else. */
  lemma RefusedSeatIsRecorded(s: State, req: ActivateRequest, env: CallEnv)
    requires FreshCall(s, env) && SeatsOk(s.licenses, s.bindings)
    requires Activate(s, req, env).1 == Refused(SeatExceeded)
    ensures var found := FindByCode(s.licenses, req.onlineCode);
      && found.Some? && HasCode(s.licenses, found.value, req.onlineCode)
      && |ActiveOf(s.bindings, found.value)| == s.licenses[found.value].seatLimit
      && Activate(s, req, env).0
         == s.(alerts := s.alerts + [CloneAlert(found.value, s.licenses[found.value].seatLimit + 1,
           s.licenses[found.value].seatLimit)])
  {
    var found := FindByCode(s.licenses, req.onlineCode);
    ActiveRowsListing(s.bindings, found.value, env.scan);
  }
}
