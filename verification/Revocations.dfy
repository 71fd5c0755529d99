/** Revocation, deletion and expiry are final, even when licence writes are lost. */
module Revocations {
  import opened Basics
  import opened Tables
  import opened EdgeProtocol
  import opened IssuanceProtocol
  import opened CrlProtocol
  import opened Server
  import Jobs = WorkerProtocol

  // ----- the revocation table -----

  /** A revocation carries the public identifier and mode of its licence; no two carry the same one. */
  ghost predicate RevocationsOk(licenses: map<Id, License>, revocations: map<Id, Revocation>) {
    && (forall r :: r in revocations ==> Describes(licenses, revocations[r]))
    && (forall r, q :: r in revocations && q in revocations && r != q ==>
      revocations[r].publicId != revocations[q].publicId)
  }

  ghost predicate Describes(licenses: map<Id, License>, r: Revocation) {
    && r.publicId.Some? && r.mode.Some?
    && (r.license.Some? ==> r.license.value in licenses)
    && forall l :: l in licenses ==>
         (r.license == Some(l) <==> licenses[l].publicId == r.publicId.value)
         && (r.license == Some(l) ==> Some(licenses[l].mode) == r.mode)
  }

  /** A licence in status `revoked` has its revocation. */
  ghost predicate StatusOk(licenses: map<Id, License>, revocations: map<Id, Revocation>) {
    forall l :: l in licenses && licenses[l].status == Revoked ==> IsRevoked(revocations, l)
  }

  ghost predicate PublicIdsKnown(revocations: map<Id, Revocation>, uuids: set<Id>) {
    forall r :: r in revocations && revocations[r].publicId.Some? ==> revocations[r].publicId.value in uuids
  }

  ghost predicate LedgerOk(s: State) {
    && RevocationsOk(s.licenses, s.revocations) && StatusOk(s.licenses, s.revocations)
    && PublicIdsKnown(s.revocations, s.uuids)
  }

  /** Each licence has at most one revocation. */
  lemma AtMostOneRevocation(licenses: map<Id, License>, revocations: map<Id, Revocation>, r: Id, q: Id)
    requires RevocationsOk(licenses, revocations)
    requires r in revocations && q in revocations
    requires revocations[r].license.Some? && revocations[r].license == revocations[q].license
    ensures r == q
  {
    assert Describes(licenses, revocations[r]) && Describes(licenses, revocations[q]);
  }

  /** Columns other than the identifier, the mode and the status do not matter. */
  lemma LedgerRelabel(licenses: map<Id, License>, revocations: map<Id, Revocation>, l: Id, lic: License)
    requires RevocationsOk(licenses, revocations) && l in licenses
    requires lic.publicId == licenses[l].publicId && lic.mode == licenses[l].mode
    ensures RevocationsOk(licenses[l := lic], revocations)
    ensures StatusOk(licenses, revocations) && (lic.status == Revoked ==> IsRevoked(revocations, l)) ==>
      StatusOk(licenses[l := lic], revocations)
  {
    forall r | r in revocations ensures Describes(licenses[l := lic], revocations[r]) {
      assert Describes(licenses, revocations[r]);
    }
  }

  lemma LedgerAfterIssue(s: State, row: Id, lic: License)
    requires LedgerOk(s) && row !in s.licenses && lic.publicId !in s.uuids && lic.status != Revoked
    ensures RevocationsOk(s.licenses[row := lic], s.revocations) && StatusOk(s.licenses[row := lic], s.revocations)
  {
    forall r | r in s.revocations ensures Describes(s.licenses[row := lic], s.revocations[r]) {
      assert Describes(s.licenses, s.revocations[r]);
    }
  }

  lemma LedgerAfterRevoke(s: State, l: Id, now: Time, row: Id)
    requires TablesOk(s) && LedgerOk(s) && row !in s.uuids
    ensures LedgerOk(Revoke(s, l, now, row).0)
  {
    if l in s.licenses && s.licenses[l].deletedAt.None? && s.licenses[l].status != Revoked {
      var lic := s.licenses[l];
      LedgerRelabel(s.licenses, s.revocations, l, lic.(status := Revoked, revokedAt := Some(now)));
      if !IsRevoked(s.revocations, l) {
        RevocationAdded(s, l, now, row);
      }
    }
  }

  lemma RevocationAdded(s: State, l: Id, now: Time, row: Id)
    requires TablesOk(s) && LedgerOk(s) && row !in s.uuids && l in s.licenses && !IsRevoked(s.revocations, l)
    ensures var lic := s.licenses[l];
      var licenses := s.licenses[l := lic.(status := Revoked, revokedAt := Some(now))];
      var revocations := s.revocations[row := Revocation(Some(l), Some(lic.publicId), Some(lic.mode), None)];
      RevocationsOk(licenses, revocations) && StatusOk(licenses, revocations)
  {
    var lic := s.licenses[l];
    var licenses := s.licenses[l := lic.(status := Revoked, revokedAt := Some(now))];
    var revocations := s.revocations[row := Revocation(Some(l), Some(lic.publicId), Some(lic.mode), None)];
    LedgerRelabel(s.licenses, s.revocations, l, licenses[l]);
    forall r | r in s.revocations ensures s.revocations[r].publicId != Some(lic.publicId) {
      assert Describes(s.licenses, s.revocations[r]);
    }
    assert Describes(licenses, revocations[row]);
    forall m | m in licenses && licenses[m].status == Revoked ensures IsRevoked(revocations, m) {
      if m == l {
        assert revocations[row].license == Some(l);
      } else {
        assert IsRevoked(s.revocations, m);
        var r :| r in s.revocations && s.revocations[r].license == Some(m);
        assert revocations[r].license == Some(m);
      }
    }
  }

  lemma LedgerAfterDelete(s: State, l: Id)
    requires LedgerOk(s)
    ensures LedgerOk(Delete(s, l).0)
  {
    var s' := Delete(s, l).0;
    forall r | r in s'.revocations ensures Describes(s'.licenses, s'.revocations[r]) {
      assert Describes(s.licenses, s.revocations[r]);
    }
    forall m | m in s'.licenses && s'.licenses[m].status == Revoked ensures IsRevoked(s'.revocations, m) {
      var r :| r in s.revocations && s.revocations[r].license == Some(m);
      assert s'.revocations[r].license == Some(m) || s' == s;
    }
  }

  lemma LedgerAfterStamps(s: State, now: Time, scan: seq<Id>)
    requires LedgerOk(s)
    ensures LedgerOk(Generate(s, now, scan))
  {
    var s' := Generate(s, now, scan);
    forall r | r in s'.revocations ensures Describes(s'.licenses, s'.revocations[r]) {
      assert Describes(s.licenses, s.revocations[r]);
    }
    forall m | m in s'.licenses && s'.licenses[m].status == Revoked ensures IsRevoked(s'.revocations, m) {
      var r :| r in s.revocations && s.revocations[r].license == Some(m);
      assert s'.revocations[r].license == Some(m);
    }
  }

  /** Licence rows that kept their identifier and mode, and are in status `revoked` only if they were. */
  lemma LedgerAfterUpdate(s: State, licenses: map<Id, License>)
    requires LedgerOk(s) && licenses.Keys == s.licenses.Keys
    requires forall l :: l in licenses ==>
      licenses[l].publicId == s.licenses[l].publicId && licenses[l].mode == s.licenses[l].mode
      && (licenses[l].status == Revoked ==> s.licenses[l].status == Revoked)
    ensures RevocationsOk(licenses, s.revocations) && StatusOk(licenses, s.revocations)
  {
    forall r | r in s.revocations ensures Describes(licenses, s.revocations[r]) {
      assert Describes(s.licenses, s.revocations[r]);
    }
  }

  lemma LedgerAfterReap(s: State, now: Time)
    requires LedgerOk(s)
    ensures LedgerOk(Jobs.Reap(s, now))
  {
    LedgerAfterUpdate(s, Jobs.Reap(s, now).licenses);
  }

  lemma LedgerAfterSweep(s: State, now: Time)
    requires LedgerOk(s)
    ensures LedgerOk(Jobs.Sweep(s, now))
  {
    LedgerAfterUpdate(s, Jobs.Sweep(s, now).licenses);
  }

  lemma LedgerAfterRowUpdate(s: State, l: Id, seatUsed: int, now: Time)
    requires LedgerOk(s)
    ensures LedgerOk(SoftDelete(s, l, now)) && LedgerOk(StaleCommit(s, l, seatUsed, now))
  {
    if l in s.licenses {
      LedgerRelabel(s.licenses, s.revocations, l, SoftDelete(s, l, now).licenses[l]);
      LedgerRelabel(s.licenses, s.revocations, l, StaleCommit(s, l, seatUsed, now).licenses[l]);
    }
  }

  lemma LedgerAfterEnter(s: State, l: Id, loaded: License, req: ActivateRequest, env: CallEnv)
    requires LedgerOk(s) && FreshCall(s, env) && (l in s.licenses ==> s.licenses[l].mode == Online)
    ensures LedgerOk(Enter(s, l, loaded, req, env).0)
  {
    EnterEffect(s, l, loaded, req, env);
    if l in s.licenses {
      LedgerRelabel(s.licenses, s.revocations, l, Occupied(s.licenses[l], loaded, env.now));
    }
  }

  lemma LedgerAfterActivate(s: State, req: ActivateRequest, env: CallEnv)
    requires LedgerOk(s) && FreshCall(s, env)
    ensures LedgerOk(Activate(s, req, env).0)
  {
    var admission := Admit(s, req.onlineCode, env.now);
    if admission.Admitted? {
      LedgerAfterEnter(s, admission.license, s.licenses[admission.license], req, env);
    }
  }

  lemma LedgerNext(s: State, step: Step)
    requires TablesOk(s) && LedgerOk(s) && Enabled(s, step)
    ensures LedgerOk(Next(s, step))
  {
    match step
    case StepIssueOnline(req) => LedgerAfterIssue(s, req.row, OnlineLicense(req));
    case StepIssueOffline(req) => LedgerAfterIssue(s, req.row, OfflineLicense(req));
    case StepActivate(req, env) => LedgerAfterActivate(s, req, env);
    case StepValidate(req, env) => ValidateEffect(s, req, env);
    case StepRevoke(l, now, row) => LedgerAfterRevoke(s, l, now, row);
    case StepDelete(l) => LedgerAfterDelete(s, l);
    case StepGenerate(now, scan) => LedgerAfterStamps(s, now, scan);
    case StepSoftDelete(l, now) => LedgerAfterRowUpdate(s, l, 0, now);
    case StepStaleCommit(l, seatUsed, now) => LedgerAfterRowUpdate(s, l, seatUsed, now);
    case StepReap(now) => LedgerAfterReap(s, now);
    case StepSweep(now) => LedgerAfterSweep(s, now);
  }

  lemma {:induction false} LedgerRun(steps: seq<Step>)
    requires ValidRun(INITIAL, steps)
    ensures LedgerOk(Run(INITIAL, steps)) && TablesOk(Run(INITIAL, steps))
  {
    TablesOkRun(INITIAL, steps);
    if steps != [] {
      var init := steps[..|steps| - 1];
      LedgerRun(init);
      LedgerNext(Run(INITIAL, init), steps[|steps| - 1]);
    }
  }

  lemma {:induction false} LedgerStays(s: State, steps: seq<Step>)
    requires TablesOk(s) && LedgerOk(s) && ValidRun(s, steps)
    ensures TablesOk(Run(s, steps)) && LedgerOk(Run(s, steps))
  {
    if steps != [] {
      var init := steps[..|steps| - 1];
      LedgerStays(s, init);
      TablesOkNext(Run(s, init), steps[|steps| - 1]);
      LedgerNext(Run(s, init), steps[|steps| - 1]);
    }
  }

  // ----- licences that are over -----

  /** No licence with public identifier `p` can be used at `now` or later: each is revoked, deleted or past its end. */
  ghost predicate Over(s: State, p: Id, now: Time) {
    && p in s.uuids
    && forall l :: l in s.licenses && s.licenses[l].publicId == p ==>
         || IsRevoked(s.revocations, l)
         || s.licenses[l].deletedAt.Some?
         || (s.licenses[l].activeUntil.Some? && now >= s.licenses[l].activeUntil.value)
  }

  /** What a step may do to the licences that exist: it keeps identifier, end and deletion, and loses no revocation. */
  ghost predicate Persists(s: State, licenses: map<Id, License>, l: Id) {
    l in licenses ==>
      if l !in s.licenses then licenses[l].publicId !in s.uuids
      else
        && licenses[l].publicId == s.licenses[l].publicId && licenses[l].activeUntil == s.licenses[l].activeUntil
        && (s.licenses[l].deletedAt.Some? ==> licenses[l].deletedAt.Some?)
  }

  lemma PersistsIssue(s: State, req: IssueRequest, l: Id)
    requires FreshIssue(s, req) && s.licenses.Keys <= s.uuids
    ensures Persists(s, IssueOnline(s, req).0.licenses, l) && Persists(s, IssueOffline(s, req).0.licenses, l)
  {
  }

  lemma PersistsActivate(s: State, req: ActivateRequest, env: CallEnv, l: Id)
    requires FreshCall(s, env)
    ensures Persists(s, Activate(s, req, env).0.licenses, l)
  {
    ActivateEffect(s, req, env);
  }

  lemma PersistsRevoke(s: State, m: Id, now: Time, row: Id, l: Id)
    ensures Persists(s, Revoke(s, m, now, row).0.licenses, l)
  {
    RevokeEffect(s, m, now, row);
  }

  lemma PersistsJobs(s: State, now: Time, l: Id)
    ensures Persists(s, Jobs.Reap(s, now).licenses, l) && Persists(s, Jobs.Sweep(s, now).licenses, l)
  {
  }

  lemma LicensesPersist(s: State, step: Step, l: Id)
    requires TablesOk(s) && Enabled(s, step)
    ensures Persists(s, Next(s, step).licenses, l)
  {
    match step
    case StepIssueOnline(req) => PersistsIssue(s, req, l);
    case StepIssueOffline(req) => PersistsIssue(s, req, l);
    case StepActivate(req, env) => PersistsActivate(s, req, env, l);
    case StepValidate(req, env) => ValidateEffect(s, req, env);
    case StepRevoke(m, now, row) => PersistsRevoke(s, m, now, row, l);
    case StepReap(now) => PersistsJobs(s, now, l);
    case StepSweep(now) => PersistsJobs(s, now, l);
    case _ =>
  }

  /** Row `r` still refers to licence `l`. */
  predicate RefersTo(revocations: map<Id, Revocation>, r: Id, l: Id) {
    r in revocations && revocations[r].license == Some(l)
  }

  lemma ReferenceStays(s: State, step: Step, r: Id, l: Id)
    requires Enabled(s, step) && s.revocations.Keys <= s.uuids && RefersTo(s.revocations, r, l)
    requires step.StepRevoke? || step.StepGenerate? || (step.StepDelete? && l in Next(s, step).licenses)
    ensures RefersTo(Next(s, step).revocations, r, l)
  {
  }

  lemma RevocationsUntouched(s: State, step: Step)
    requires Enabled(s, step) && !step.StepRevoke? && !step.StepGenerate? && !step.StepDelete?
    ensures Next(s, step).revocations == s.revocations
  {
    match step
    case StepActivate(req, env) => ActivateEffect(s, req, env);
    case StepValidate(req, env) => ValidateEffect(s, req, env);
    case _ =>
  }

  lemma RevocationsPersist(s: State, step: Step, l: Id)
    requires TablesOk(s) && Enabled(s, step) && l in Next(s, step).licenses && IsRevoked(s.revocations, l)
    ensures IsRevoked(Next(s, step).revocations, l)
  {
    if step.StepRevoke? || step.StepGenerate? || step.StepDelete? {
      var r :| r in s.revocations && s.revocations[r].license == Some(l);
      ReferenceStays(s, step, r, l);
      assert RefersTo(Next(s, step).revocations, r, l);
    } else {
      RevocationsUntouched(s, step);
    }
  }

  /** Once over, always over: whatever steps follow, stale commits included. */
  lemma {:induction false} OverIsFinal(s: State, steps: seq<Step>, p: Id, now: Time, later: Time)
    requires TablesOk(s) && ValidRun(s, steps) && Over(s, p, now) && now <= later
    ensures Over(Run(s, steps), p, later)
  {
    if steps != [] {
      var init, step := steps[..|steps| - 1], steps[|steps| - 1];
      OverIsFinal(s, init, p, now, later);
      TablesOkRun(s, init);
      TablesOkNext(Run(s, init), step);
      var t, t' := Run(s, init), Run(s, steps);
      forall l | l in t'.licenses && t'.licenses[l].publicId == p
        ensures || IsRevoked(t'.revocations, l) || t'.licenses[l].deletedAt.Some?
                || (t'.licenses[l].activeUntil.Some? && later >= t'.licenses[l].activeUntil.value)
      {
        LicensesPersist(t, step, l);
        if l in t.licenses && IsRevoked(t.revocations, l) {
          RevocationsPersist(t, step, l);
        }
      }
    }
  }

  lemma RevokedRow(s: State, l: Id, now: Time, row: Id)
    requires Revoke(s, l, now, row).1 == Done
    ensures var s' := Revoke(s, l, now, row).0;
      && l in s.licenses && l in s'.licenses && s'.licenses[l].publicId == s.licenses[l].publicId
      && s'.licenses[l].status == Revoked && s.uuids <= s'.uuids
  {
  }

  /** The part of an activation after its checks changes nothing about it, whatever row was loaded before. */
  lemma OverAfterEnter(s: State, l: Id, loaded: License, req: ActivateRequest, env: CallEnv, p: Id, now: Time)
    requires FreshCall(s, env) && (l in s.licenses ==> s.licenses[l].mode == Online) && Over(s, p, now)
    ensures Over(Enter(s, l, loaded, req, env).0, p, now)
  {
    EnterEffect(s, l, loaded, req, env);
  }

  lemma OverAfterStep(s: State, step: Step, p: Id, now: Time)
    requires TablesOk(s) && Enabled(s, step) && Over(s, p, now)
    ensures Over(Next(s, step), p, now)
  {
    assert [step][..0] == [];
    assert Run(s, []) == s && ValidRun(s, []);
    assert Run(s, [step]) == Next(s, step) && ValidRun(s, [step]);
    OverIsFinal(s, [step], p, now, now);
  }

  /** A revoke that reports success ends the licence for good. */
  lemma RevokeEnds(s: State, l: Id, now: Time, row: Id)
    requires TablesOk(s) && LedgerOk(s) && row !in s.uuids && Revoke(s, l, now, row).1 == Done
    ensures var s' := Revoke(s, l, now, row).0;
      && TablesOk(s') && l in s.licenses && l in s'.licenses && s'.licenses[l].publicId == s.licenses[l].publicId
      && Over(s', s.licenses[l].publicId, now)
  {
    var s' := Revoke(s, l, now, row).0;
    LedgerAfterRevoke(s, l, now, row);
    TablesOkRevoke(s, l, now, row);
    RevokedRow(s, l, now, row);
  }

  /** So does a delete. */
  lemma DeleteEnds(s: State, l: Id, now: Time)
    requires TablesOk(s) && l in s.licenses && Delete(s, l).1 == Done
    ensures Over(Delete(s, l).0, s.licenses[l].publicId, now)
  {
  }

  // ----- no lease for a licence that is over -----

  lemma GrantNeedsLiveLicense(s: State, p: Id, req: ActivateRequest, vreq: ValidateRequest, env: CallEnv)
    requires FreshCall(s, env) && Over(s, p, env.now)
    ensures Activate(s, req, env).1.Granted? ==> Activate(s, req, env).1.lease.license != p
    ensures Validate(s, vreq, env).1.Granted? ==> Validate(s, vreq, env).1.lease.license != p
  {
    if Activate(s, req, env).1.Granted? {
      ActivateEffect(s, req, env);
      var l := FindByCode(s.licenses, req.onlineCode).value;
      assert HasCode(s.licenses, l, req.onlineCode);
      assert Activate(s, req, env).1.lease.license == s.licenses[l].publicId;
    }
  }

  /** Revocation survives lost updates: after a successful revoke, no run whatever (stale commits of the licence
      row included) reaches a state in which an activation or a renewal is granted for that licence. */
  lemma RevocationSurvivesLostUpdates(
      steps: seq<Step>, l: Id, now: Time, row: Id, s: State, after: seq<Step>,
      req: ActivateRequest, vreq: ValidateRequest, env: CallEnv)
    requires ValidRun(INITIAL, steps) && row !in Run(INITIAL, steps).uuids
    requires Revoke(Run(INITIAL, steps), l, now, row) == (s, Done)
    requires ValidRun(s, after) && FreshCall(Run(s, after), env) && now <= env.now
    ensures l in s.licenses
    ensures Activate(Run(s, after), req, env).1.Granted? ==>
      Activate(Run(s, after), req, env).1.lease.license != s.licenses[l].publicId
    ensures Validate(Run(s, after), vreq, env).1.Granted? ==>
      Validate(Run(s, after), vreq, env).1.lease.license != s.licenses[l].publicId
  {
    LedgerRun(steps);
    RevokeEnds(Run(INITIAL, steps), l, now, row);
    OverIsFinal(s, after, s.licenses[l].publicId, now, env.now);
    GrantNeedsLiveLicense(Run(s, after), s.licenses[l].publicId, req, vreq, env);
  }

  // ----- the check and the status -----

  /** A licence with a revocation row is in status `revoked`. */
  ghost predicate StatusFollows(licenses: map<Id, License>, revocations: map<Id, Revocation>) {
    forall l :: l in licenses && IsRevoked(revocations, l) ==> licenses[l].status == Revoked
  }

  lemma FollowsIssue(s: State, row: Id, lic: License)
    requires LedgerOk(s) && StatusFollows(s.licenses, s.revocations) && row !in s.licenses
    ensures StatusFollows(s.licenses[row := lic], s.revocations)
  {
    forall r | r in s.revocations ensures s.revocations[r].license != Some(row) {
      assert Describes(s.licenses, s.revocations[r]);
    }
  }

  lemma FollowsActivate(s: State, req: ActivateRequest, env: CallEnv)
    requires FreshCall(s, env) && StatusFollows(s.licenses, s.revocations)
    ensures StatusFollows(Activate(s, req, env).0.licenses, s.revocations)
  {
    ActivateEffect(s, req, env);
  }

  lemma FollowsRevoke(s: State, l: Id, now: Time, row: Id)
    requires StatusFollows(s.licenses, s.revocations) && row !in s.revocations
    ensures StatusFollows(Revoke(s, l, now, row).0.licenses, Revoke(s, l, now, row).0.revocations)
  {
    var s' := Revoke(s, l, now, row).0;
    forall m | m in s'.licenses && IsRevoked(s'.revocations, m) ensures s'.licenses[m].status == Revoked {
      var r :| r in s'.revocations && s'.revocations[r].license == Some(m);
      assert m != l ==> r in s.revocations && s.revocations[r].license == Some(m);
      if m != l {
        assert IsRevoked(s.revocations, m);
      }
    }
  }

  lemma FollowsDelete(s: State, l: Id)
    requires StatusFollows(s.licenses, s.revocations)
    ensures StatusFollows(Delete(s, l).0.licenses, Delete(s, l).0.revocations)
  {
    var s' := Delete(s, l).0;
    forall m | m in s'.licenses && IsRevoked(s'.revocations, m) ensures s'.licenses[m].status == Revoked {
      var r :| r in s'.revocations && s'.revocations[r].license == Some(m);
      assert s.revocations[r].license == Some(m);
      assert IsRevoked(s.revocations, m);
    }
  }

  lemma FollowsGenerate(s: State, now: Time, scan: seq<Id>)
    requires StatusFollows(s.licenses, s.revocations)
    ensures StatusFollows(s.licenses, Generate(s, now, scan).revocations)
  {
    var after := Generate(s, now, scan).revocations;
    forall m | m in s.licenses && IsRevoked(after, m) ensures s.licenses[m].status == Revoked {
      var r :| r in after && after[r].license == Some(m);
      assert s.revocations[r].license == Some(m);
      assert IsRevoked(s.revocations, m);
    }
  }

  lemma FollowsJobs(s: State, now: Time)
    requires StatusFollows(s.licenses, s.revocations)
    ensures StatusFollows(Jobs.Reap(s, now).licenses, s.revocations)
    ensures StatusFollows(Jobs.Sweep(s, now).licenses, s.revocations)
  {
  }

  lemma FollowsNext(s: State, step: Step)
    requires TablesOk(s) && LedgerOk(s) && Enabled(s, step) && !step.StepStaleCommit?
    requires StatusFollows(s.licenses, s.revocations)
    ensures StatusFollows(Next(s, step).licenses, Next(s, step).revocations)
  {
    match step
    case StepIssueOnline(req) => FollowsIssue(s, req.row, OnlineLicense(req));
    case StepIssueOffline(req) => FollowsIssue(s, req.row, OfflineLicense(req));
    case StepActivate(req, env) => FollowsActivate(s, req, env); RevocationsUntouched(s, step);
    case StepValidate(req, env) => ValidateEffect(s, req, env);
    case StepRevoke(l, now, row) => FollowsRevoke(s, l, now, row);
    case StepDelete(l) => FollowsDelete(s, l);
    case StepGenerate(now, scan) => FollowsGenerate(s, now, scan);
    case StepReap(now) => FollowsJobs(s, now);
    case StepSweep(now) => FollowsJobs(s, now);
    case _ =>
  }

  lemma {:induction false} FollowsRun(steps: seq<Step>)
    requires ValidRun(INITIAL, steps) && Serial(steps)
    ensures StatusFollows(Run(INITIAL, steps).licenses, Run(INITIAL, steps).revocations)
  {
    if steps != [] {
      var init := steps[..|steps| - 1];
      FollowsRun(init);
      LedgerRun(init);
      FollowsNext(Run(INITIAL, init), steps[|steps| - 1]);
    }
  }

  /** In every serial run the revocation check and the status say the same of every licence; it takes a lost update for
      them to differ. */
  lemma CheckMatchesStatus(steps: seq<Step>)
    requires ValidRun(INITIAL, steps) && Serial(steps)
    ensures var s := Run(INITIAL, steps);
      forall l :: l in s.licenses ==> (IsRevoked(s.revocations, l) <==> s.licenses[l].status == Revoked)
  {
    LedgerRun(steps);
    FollowsRun(steps);
  }
}
