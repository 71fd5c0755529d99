/** Who holds a seat: identities stay distinct and stable, and a repeated activation changes nothing. */
module Identity {
  import opened Basics
  import opened Tables
  import opened EdgeProtocol
  import opened IssuanceProtocol
  import opened CrlProtocol
  import opened Server
  import Jobs = WorkerProtocol
  import Scenarios

  /** The identity of a binding: its deployment uid when it has one, else the fingerprint of its host. */
  datatype Holder = Deployment(uid: string) | Host(fingerprint: string)

  function HolderOf(b: Binding): Holder {
    if Filled(b.deploymentUid) then Deployment(b.deploymentUid.value) else Host(b.fingerprint)
  }

  ghost predicate HoldersDistinct(bindings: map<Id, Binding>) {
    forall b, c :: b in bindings && c in bindings && b != c && bindings[b].license == bindings[c].license
                   && IsActive(bindings[b]) && IsActive(bindings[c]) ==>
      HolderOf(bindings[b]) != HolderOf(bindings[c])
  }

  /** Activation matches a uid before inserting it, so no two active bindings share one. */
  lemma HoldersAfterActivate(s: State, req: ActivateRequest, env: CallEnv)
    requires TablesOk(s) && FreshCall(s, env) && HoldersDistinct(s.bindings)
    ensures HoldersDistinct(Activate(s, req, env).0.bindings)
  {
    ActivateEffect(s, req, env);
    var (s', reply) := Activate(s, req, env);
    if reply.Granted? {
      var l := FindByCode(s.licenses, req.onlineCode).value;
      InsertedHolderIsDistinct(s, s', l, req, env);
    }
  }

  lemma InsertedHolderIsDistinct(s: State, s': State, l: Id, req: ActivateRequest, env: CallEnv)
    requires TookSeat(s, s', l, req, env) && FreshCall(s, env)
    requires BindingsOk(s.licenses, s.bindings) && HoldersDistinct(s.bindings)
    ensures HoldersDistinct(s'.bindings)
  {
    var b, row := SeatOf(s, l, req, env), SeatRow(s, l, req, env);
    forall c | c in s.bindings && c != b && s.bindings[c].license == l && IsActive(s.bindings[c])
      ensures HolderOf(s.bindings[c]) != HolderOf(row)
    {
      ActiveRowsListing(s.bindings, l, env.scan);
      assert c in ActiveOf(s.bindings, l);
      assert s.bindings[c].fingerprint != row.fingerprint;
    }
  }

  lemma BindingsUntouched(s: State, step: Step)
    requires !step.StepActivate? && !step.StepDelete? && !step.StepReap?
    ensures Next(s, step).bindings == s.bindings
  {
    match step
    case StepValidate(req, env) => ValidateEffect(s, req, env);
    case StepRevoke(l, now, row) => RevokeEffect(s, l, now, row);
    case _ =>
  }

  lemma HoldersNext(s: State, step: Step)
    requires TablesOk(s) && Enabled(s, step) && HoldersDistinct(s.bindings)
    ensures HoldersDistinct(Next(s, step).bindings)
  {
    if step.StepActivate? {
      HoldersAfterActivate(s, step.activate, step.env);
    } else if step.StepDelete? || step.StepReap? {
      HoldersAmongFewer(s.bindings, Next(s, step).bindings);
    } else {
      BindingsUntouched(s, step);
    }
  }

  /** Rows that disappear, or stop being active, leave the others distinct. */
  lemma HoldersAmongFewer(before: map<Id, Binding>, after: map<Id, Binding>)
    requires HoldersDistinct(before) && after.Keys <= before.Keys
    requires forall b :: b in after ==> after[b] == before[b] || after[b] == before[b].(status := Dead)
    ensures HoldersDistinct(after)
  {
  }

  /** In every state of every run whose calls are single steps, whatever uids and signals were sent, a licence's active
      bindings have distinct holders. */
  lemma {:induction false} IdentityUniqueness(steps: seq<Step>)
    requires ValidRun(INITIAL, steps)
    ensures HoldersDistinct(Run(INITIAL, steps).bindings)
  {
    if steps != [] {
      var init := steps[..|steps| - 1];
      IdentityUniqueness(init);
      TablesOkRun(INITIAL, init);
      HoldersNext(Run(INITIAL, init), steps[|steps| - 1]);
    }
  }

  // ----- stability -----

  /** What a binding keeps as long as it exists. */
  ghost predicate Keeps(before: map<Id, Binding>, after: map<Id, Binding>) {
    forall b :: b in before && b in after ==>
      && after[b].license == before[b].license
      && after[b].deploymentUid == before[b].deploymentUid
      && (Filled(before[b].installId) ==> after[b].installId == before[b].installId)
      && (before[b].status == Dead ==> after[b].status == Dead && after[b].fingerprint == before[b].fingerprint)
  }

  /** Matching never attaches a uid to a binding that had another one, or none. */
  lemma MatchKeepsUid(rows: seq<Id>, bindings: map<Id, Binding>, req: ActivateRequest)
    ensures var m := MatchBinding(rows, bindings, req);
      m.Some? ==>
        && (Filled(req.deploymentUid) ==> bindings[m.value].deploymentUid == req.deploymentUid)
        && (!Filled(req.deploymentUid) ==> bindings[m.value].deploymentUid.None?)
  {
  }

  lemma KeepsSeat(s: State, s': State, l: Id, loaded: License, req: ActivateRequest, env: CallEnv)
    requires TookSeatAs(s, s', l, loaded, req, env) && env.newBinding !in s.bindings
    ensures Keeps(s.bindings, s'.bindings)
  {
    MatchKeepsUid(ActiveRows(s.bindings, l, env.scan), s.bindings, req);
  }

  lemma KeepsActivate(s: State, req: ActivateRequest, env: CallEnv)
    requires TablesOk(s) && FreshCall(s, env)
    ensures Keeps(s.bindings, Activate(s, req, env).0.bindings)
  {
    ActivateEffect(s, req, env);
    if Activate(s, req, env).1.Granted? {
      var l := FindByCode(s.licenses, req.onlineCode).value;
      KeepsSeat(s, Activate(s, req, env).0, l, s.licenses[l], req, env);
    }
  }

  lemma KeepsDelete(s: State, l: Id)
    ensures Keeps(s.bindings, Delete(s, l).0.bindings)
  {
  }

  lemma KeepsReap(s: State, now: Time)
    ensures Keeps(s.bindings, Jobs.Reap(s, now).bindings)
  {
  }

  lemma KeepsNext(s: State, step: Step)
    requires TablesOk(s) && Enabled(s, step)
    ensures Keeps(s.bindings, Next(s, step).bindings)
  {
    if step.StepActivate? {
      KeepsActivate(s, step.activate, step.env);
    } else if step.StepDelete? {
      KeepsDelete(s, step.license);
    } else if step.StepReap? {
      KeepsReap(s, step.now);
    } else {
      BindingsUntouched(s, step);
    }
  }

  lemma OnlyNewBindingsAppear(s: State, step: Step, b: Id)
    requires Enabled(s, step) && b in s.uuids && b !in s.bindings
    ensures b !in Next(s, step).bindings
  {
    match step
    case StepActivate(req, env) => ActivateEffect(s, req, env);
    case StepValidate(req, env) => ValidateEffect(s, req, env);
    case StepRevoke(l, now, row) => RevokeEffect(s, l, now, row);
    case _ =>
  }

  /** Over a whole run: licence and uid never change, an install id once set never changes, a dead binding stays
      dead. */
  lemma {:induction false} IdentityIsStable(s: State, steps: seq<Step>, b: Id)
    requires TablesOk(s) && ValidRun(s, steps) && b in s.bindings
    ensures b in Run(s, steps).bindings ==> Keeps(map[b := s.bindings[b]], Run(s, steps).bindings)
  {
    if steps != [] {
      var init := steps[..|steps| - 1];
      IdentityIsStable(s, init, b);
      TablesOkRun(s, init);
      KeepsNext(Run(s, init), steps[|steps| - 1]);
      if b !in Run(s, init).bindings {
        OnlyNewBindingsAppear(Run(s, init), steps[|steps| - 1], b);
      }
    }
  }

  // ----- exactly when a seat is granted -----

  /** What the rows of licence `l` allow: the matching row has no other install id or, without a match, a seat is
      free. */
  predicate SeatOpen(s: State, l: Id, req: ActivateRequest, env: CallEnv) {
    var existing := MatchBinding(ActiveRows(s.bindings, l, env.scan), s.bindings, req);
    if existing.Some? then !InstallMismatch(s.bindings[existing.value], req.installId)
    else l in s.licenses && |ActiveOf(s.bindings, l)| < s.licenses[l].seatLimit
  }

  /** With a usable licence, the lock and a key, an activation is granted if and only if no other undeleted row of the
      licence holds the fingerprint, and the matching row has no other install id or, without a match, a seat is
      free. */
  lemma GrantedExactly(s: State, l: Id, req: ActivateRequest, env: CallEnv)
    requires FreshCall(s, env) && Admit(s, req.onlineCode, env.now) == Admitted(l) && env.lockFree && env.keyReady
    ensures var reply := Activate(s, req, env).1;
      && (reply.Granted? <==>
            SeatOpen(s, l, req, env) && !Collides(s.bindings, SeatOf(s, l, req, env), l, req.fingerprint))
      && (SeatOpen(s, l, req, env) && reply.Refused? ==> reply.code == InternalError)
      && (!SeatOpen(s, l, req, env) ==> reply.code in {BindingMismatch, SeatExceeded})
  {
    ActiveRowsListing(s.bindings, l, env.scan);
  }

  /** A row that holds the fingerprint and is not the one matched refuses the activation, with seats free or not. */
  lemma HolderBlocks(s: State, h: Id, req: ActivateRequest, env: CallEnv)
    requires FreshCall(s, env) && h in s.bindings && s.bindings[h].deletedAt.None?
    requires req.fingerprint == s.bindings[h].fingerprint && SeatOf(s, s.bindings[h].license, req, env) != h
    requires FindByCode(s.licenses, req.onlineCode) == Some(s.bindings[h].license)
    ensures Activate(s, req, env).1.Refused? && Activate(s, req, env).0.bindings == s.bindings
  {
    ActivateEffect(s, req, env);
    assert Collides(s.bindings, SeatOf(s, s.bindings[h].license, req, env), s.bindings[h].license, req.fingerprint);
  }

  /** So does a dead row. */
  lemma DeadFingerprintBlocks(s: State, d: Id, req: ActivateRequest, env: CallEnv)
    requires UuidsOk(s) && FreshCall(s, env)
    requires d in s.bindings && s.bindings[d].status == Dead && s.bindings[d].deletedAt.None?
    requires req.fingerprint == s.bindings[d].fingerprint
    requires FindByCode(s.licenses, req.onlineCode) == Some(s.bindings[d].license)
    ensures Activate(s, req, env).1.Refused? && Activate(s, req, env).0.bindings == s.bindings
  {
    var l := s.bindings[d].license;
    ActiveRowsListing(s.bindings, l, env.scan);
    assert d !in ActiveOf(s.bindings, l) && d in s.uuids;
    HolderBlocks(s, d, req, env);
  }

  /** And so does an active row with a uid, when the request from the same host brings none. */
  lemma UidHolderBlocks(s: State, h: Id, req: ActivateRequest, env: CallEnv)
    requires UuidsOk(s) && FreshCall(s, env) && !Filled(req.deploymentUid)
    requires h in s.bindings && s.bindings[h].deploymentUid.Some? && s.bindings[h].deletedAt.None?
    requires req.fingerprint == s.bindings[h].fingerprint
    requires FindByCode(s.licenses, req.onlineCode) == Some(s.bindings[h].license)
    ensures Activate(s, req, env).1.Refused? && Activate(s, req, env).0.bindings == s.bindings
  {
    MatchKeepsUid(ActiveRows(s.bindings, s.bindings[h].license, env.scan), s.bindings, req);
    assert h in s.uuids;
    HolderBlocks(s, h, req, env);
  }

  // ----- a host that was reaped -----

  lemma StaysDead(row: Binding, after: map<Id, Binding>, d: Id)
    requires Keeps(map[d := row], after) && d in after && row.status == Dead
    ensures after[d].status == Dead && after[d].fingerprint == row.fingerprint && after[d].license == row.license
  {
    assert d in map[d := row];
  }

  /** So a reaped host stays locked out under its fingerprint as long as the licence row exists, in every run. */
  lemma ReapedHostNeverReturns(s: State, steps: seq<Step>, d: Id, req: ActivateRequest, env: CallEnv)
    requires TablesOk(s) && ValidRun(s, steps) && d in s.bindings && s.bindings[d].status == Dead
    requires var s' := Run(s, steps);
      d in s'.bindings && FreshCall(s', env) && FindByCode(s'.licenses, req.onlineCode) == Some(s.bindings[d].license)
    requires req.fingerprint == s.bindings[d].fingerprint
    ensures Activate(Run(s, steps), req, env).1.Refused?
  {
    var s' := Run(s, steps);
    TablesOkRun(s, steps);
    IdentityIsStable(s, steps, d);
    StaysDead(s.bindings[d], s'.bindings, d);
    assert s'.bindings[d].deletedAt.None?;
    DeadFingerprintBlocks(s', d, req, env);
  }

  // ----- repeating an activation -----

  lemma CodeFinds(licenses: map<Id, License>, l: Id, code: Id)
    requires LicensesOk(licenses) && HasCode(licenses, l, code)
    ensures FindByCode(licenses, code) == Some(l)
  {
  }

  /** Without a uid in the request, the row it took has none, unless an empty uid was inserted. */
  lemma SeatRowHasNoUid(s: State, l: Id, req: ActivateRequest, env: CallEnv)
    requires env.newBinding !in s.bindings && !Filled(req.deploymentUid)
    requires req.deploymentUid != Some("") || SeatOf(s, l, req, env) in s.bindings
    ensures SeatRow(s, l, req, env).deploymentUid.None? && SeatRow(s, l, req, env).fingerprint == req.fingerprint
  {
    MatchKeepsUid(ActiveRows(s.bindings, l, env.scan), s.bindings, req);
  }

  /** After a granted activation the same request matches the same binding, unless an empty uid was inserted. */
  lemma RepeatMatches(s': State, l: Id, req: ActivateRequest, b: Id, scan: seq<Id>)
    requires BindingsOk(s'.licenses, s'.bindings) && HoldersDistinct(s'.bindings) && Listing(scan, s'.bindings.Keys)
    requires b in ActiveOf(s'.bindings, l)
    requires Fits(s'.bindings[b], req, if Filled(req.deploymentUid) then ByUid else ByFingerprint)
    ensures MatchBinding(ActiveRows(s'.bindings, l, scan), s'.bindings, req) == Some(b)
  {
    var rows := ActiveRows(s'.bindings, l, scan);
    ActiveRowsListing(s'.bindings, l, scan);
    if Filled(req.deploymentUid) {
      var found := FirstFit(rows, s'.bindings, req, ByUid);
      assert HolderOf(s'.bindings[found.value]) == HolderOf(s'.bindings[b]);
    } else {
      var found := FirstFit(rows, s'.bindings, req, ByFingerprint);
      assert found.value in ActiveOf(s'.bindings, l);
    }
  }

  lemma SeatRowFits(s: State, s': State, l: Id, req: ActivateRequest, env: CallEnv)
    requires TookSeat(s, s', l, req, env) && env.newBinding !in s.bindings
    requires req.deploymentUid != Some("") || SeatOf(s, l, req, env) in s.bindings
    ensures var b := SeatOf(s, l, req, env);
      && b in ActiveOf(s'.bindings, l)
      && Fits(s'.bindings[b], req, if Filled(req.deploymentUid) then ByUid else ByFingerprint)
  {
    if !Filled(req.deploymentUid) {
      SeatRowHasNoUid(s, l, req, env);
    }
  }

  /** Refreshing a row a second time with the same request changes its heartbeat only. */
  lemma RefreshTouches(s: State, l: Id, req: ActivateRequest, env: CallEnv, later: Time)
    requires MatchBinding(ActiveRows(s.bindings, l, env.scan), s.bindings, req).Some? ==>
      !InstallMismatch(s.bindings[SeatOf(s, l, req, env)], req.installId)
    ensures var row := SeatRow(s, l, req, env);
      && Refreshed(row, req, later) == row.(lastHeartbeat := Some(later)) && !InstallMismatch(row, req.installId)
      && row.fingerprint == req.fingerprint
  {
  }

  /** Row `b` renewed at `now`: its heartbeat and its lease. */
  function Touched(bindings: map<Id, Binding>, b: Id, now: Time): map<Id, Binding>
    requires b in bindings
  {
    bindings[b := bindings[b].(lastHeartbeat := Some(now), leaseExpiresAt := Some(now + LEASE_TTL))]
  }

  /** Repeating a granted activation, at once or later while the licence lasts, is granted on the same row: it takes no
      seat, touches no licence, and of the rows only the heartbeat and the lease of that one. */
  lemma RepeatReusesSeat(s: State, req: ActivateRequest, env: CallEnv, again: CallEnv)
    requires TablesOk(s) && HoldersDistinct(s.bindings) && FreshCall(s, env)
    requires Activate(s, req, env).1.Granted? && FreshCall(Activate(s, req, env).0, again)
    requires env.now <= again.now && again.lockFree && again.keyReady
    requires var l := FindByCode(s.licenses, req.onlineCode).value;
      && (s.licenses[l].activeUntil.Some? ==> again.now < s.licenses[l].activeUntil.value)
      && (req.deploymentUid != Some("") || SeatOf(s, l, req, env) in s.bindings)
    ensures var s' := Activate(s, req, env).0;
      var b := SeatOf(s, FindByCode(s.licenses, req.onlineCode).value, req, env);
      var (s'', reply) := Activate(s', req, again);
      && reply.Granted? && again.newToken in s''.leases && s''.leases[again.newToken].binding == b
      && b in s'.bindings && s''.bindings == Touched(s'.bindings, b, again.now) && s''.licenses == s'.licenses
      && forall m :: ActiveOf(s''.bindings, m) == ActiveOf(s'.bindings, m)
  {
    var l := FindByCode(s.licenses, req.onlineCode).value;
    ActivateEffect(s, req, env);
    TablesOkActivate(s, req, env);
    HoldersAfterActivate(s, req, env);
    RepeatFromSeat(s, Activate(s, req, env).0, l, req, env, again);
    TouchedStaysActive(Activate(s, req, env).0.bindings, SeatOf(s, l, req, env), again.now);
  }

  lemma TouchedStaysActive(bindings: map<Id, Binding>, b: Id, now: Time)
    requires b in bindings
    ensures forall m :: ActiveOf(Touched(bindings, b, now), m) == ActiveOf(bindings, m)
  {
  }

  lemma RepeatFromSeat(s: State, s': State, l: Id, req: ActivateRequest, env: CallEnv, again: CallEnv)
    requires TookSeat(s, s', l, req, env) && env.newBinding !in s.bindings && s'.revocations == s.revocations
    requires FindByCode(s.licenses, req.onlineCode) == Some(l)
    requires LicensesOk(s'.licenses) && BindingsOk(s'.licenses, s'.bindings) && HoldersDistinct(s'.bindings)
    requires Listing(again.scan, s'.bindings.Keys) && again.lockFree && again.keyReady
    requires s.licenses[l].activeUntil.Some? ==> again.now < s.licenses[l].activeUntil.value
    requires req.deploymentUid != Some("") || SeatOf(s, l, req, env) in s.bindings
    ensures var b := SeatOf(s, l, req, env);
      var (s'', reply) := Activate(s', req, again);
      && reply.Granted? && again.newToken in s''.leases && s''.leases[again.newToken].binding == b
      && b in s'.bindings && s''.bindings == Touched(s'.bindings, b, again.now) && s''.licenses == s'.licenses
  {
    SeatRowFits(s, s', l, req, env);
    RepeatMatches(s', l, req, SeatOf(s, l, req, env), again.scan);
    RefreshTouches(s, l, req, env, again.now);
    CodeStays(s, s', l, req, env);
    RepeatTakesSeat(s', l, req, again, SeatOf(s, l, req, env));
  }

  lemma CodeStays(s: State, s': State, l: Id, req: ActivateRequest, env: CallEnv)
    requires LicensesOk(s'.licenses) && TookSeat(s, s', l, req, env)
    requires FindByCode(s.licenses, req.onlineCode) == Some(l)
    requires s'.revocations == s.revocations
    ensures FindByCode(s'.licenses, req.onlineCode) == Some(l) && s'.licenses[l].mode == Online
    ensures s'.licenses[l].activeUntil == s.licenses[l].activeUntil && !IsRevoked(s'.revocations, l)
    ensures s'.licenses[l].deletedAt.None? && s'.licenses[l].status != Revoked
  {
    assert HasCode(s.licenses, l, req.onlineCode);
    CodeFinds(s'.licenses, l, req.onlineCode);
  }

  /** The second call: its row matches, needs no more than a new heartbeat and collides with nothing. */
  lemma RepeatTakesSeat(s: State, l: Id, req: ActivateRequest, env: CallEnv, b: Id)
    requires FindByCode(s.licenses, req.onlineCode) == Some(l) && l in s.licenses && s.licenses[l].mode == Online
    requires AssertValidWindow(s.licenses[l], env.now).None? && !IsRevoked(s.revocations, l)
    requires env.lockFree && env.keyReady
    requires MatchBinding(ActiveRows(s.bindings, l, env.scan), s.bindings, req) == Some(b)
    requires BindingsOk(s.licenses, s.bindings) && s.bindings[b].license == l
    requires s.bindings[b].fingerprint == req.fingerprint && !InstallMismatch(s.bindings[b], req.installId)
    requires Refreshed(s.bindings[b], req, env.now) == s.bindings[b].(lastHeartbeat := Some(env.now))
    ensures var (s', reply) := Activate(s, req, env);
      && reply.Granted? && env.newToken in s'.leases && s'.leases[env.newToken].binding == b
      && s'.bindings == Touched(s.bindings, b, env.now) && s'.licenses == s.licenses
  {
    assert !Collides(s.bindings, b, l, req.fingerprint);
    var seated := s.(bindings := s.bindings[b := Refreshed(s.bindings[b], req, env.now)]);
    assert TakeSeat(s, l, s.licenses[l], req, env) == Seated(seated, b);
  }

  /** A row with an empty uid matches no request: it stands in the way of any other seat for its fingerprint. */
  lemma EmptyUidCollides(s: State, l: Id, req: ActivateRequest, env: CallEnv, b: Id)
    requires b in s.bindings && s.bindings[b].license == l && s.bindings[b].deploymentUid == Some("")
    requires s.bindings[b].fingerprint == req.fingerprint && s.bindings[b].deletedAt.None?
    requires req.deploymentUid == Some("") && env.newBinding !in s.bindings
    ensures SeatOf(s, l, req, env) != b && Collides(s.bindings, SeatOf(s, l, req, env), l, req.fingerprint)
  {
    MatchKeepsUid(ActiveRows(s.bindings, l, env.scan), s.bindings, req);
  }

  /** With an empty uid on a row just inserted, the same request never matches that row again and is refused. */
  lemma RepeatWithEmptyUidFails(s: State, req: ActivateRequest, env: CallEnv, again: CallEnv)
    requires TablesOk(s) && FreshCall(s, env)
    requires Activate(s, req, env).1.Granted? && FreshCall(Activate(s, req, env).0, again)
    requires var l := FindByCode(s.licenses, req.onlineCode).value;
      req.deploymentUid == Some("") && SeatOf(s, l, req, env) !in s.bindings
    ensures Activate(Activate(s, req, env).0, req, again).1.Refused?
  {
    var s' := Activate(s, req, env).0;
    var l := FindByCode(s.licenses, req.onlineCode).value;
    var b := SeatOf(s, l, req, env);
    ActivateEffect(s, req, env);
    TablesOkActivate(s, req, env);
    ActivateEffect(s', req, again);
    CodeStays(s, s', l, req, env);
    EmptyUidCollides(s', l, req, again, b);
  }

  // ----- the same, on concrete runs -----

  const HOST: string := "host"

  function From(uid: Option<string>): ActivateRequest {
    ActivateRequest(3, HOST, None, None, uid)
  }

  function JoinSteps(uid: Option<string>, seats: nat): seq<Step> {
    [StepIssueOnline(Scenarios.Order(None, seats)), StepActivate(From(uid), Scenarios.Call(0, [], 5, 6))]
  }

  /** The reachable state after a first activation from the host. */
  lemma JoinedState(uid: Option<string>, seats: nat)
    requires seats >= 1
    ensures var s := Scenarios.Joined(None, seats, From(uid), 0);
      && TablesOk(s) && s.bindings.Keys == {5} && s.uuids == {1, 2, 3, 5, 6} && s.licenses[1].seatLimit == seats
      && s.bindings[5].license == 1 && s.bindings[5].fingerprint == HOST && s.bindings[5].deploymentUid == uid
      && FindByCode(s.licenses, 3) == Some(1)
  {
    Scenarios.JoinedIsReached(None, seats, From(uid), 0);
    TablesOkRun(INITIAL, JoinSteps(uid, seats));
    Scenarios.JoinedAdmits(None, seats, From(uid), 0, 0);
  }

  /** A host joins with an empty uid, and the same request is refused a second later although every other seat is free:
      both calls with the licence usable, the lock and a key. */
  lemma EmptyUidRun(seats: nat)
    requires seats >= 1
    ensures var steps := JoinSteps(Some(""), seats);
      var s := Run(INITIAL, steps);
      && ValidRun(INITIAL, steps) && 6 in s.tokens
      && Admit(s, 3, SECOND) == Admitted(1) && FreshCall(s, Scenarios.Call(SECOND, [5], 7, 8))
      && Activate(s, From(Some("")), Scenarios.Call(SECOND, [5], 7, 8)).1.Refused?
      && |ActiveOf(s.bindings, 1)| == 1 && s.licenses[1].seatLimit == seats
  {
    var s := Scenarios.Joined(None, seats, From(Some("")), 0);
    JoinedState(Some(""), seats);
    Scenarios.JoinedIsReached(None, seats, From(Some("")), 0);
    Scenarios.JoinedAdmits(None, seats, From(Some("")), 0, SECOND);
    UidHolderBlocks(s, 5, From(Some("")), Scenarios.Call(SECOND, [5], 7, 8));
    assert ActiveOf(s.bindings, 1) == {5};
  }

  /** A host joins with a uid and asks again without one: refused, with seats free and no dead row anywhere. */
  lemma UidHostRun(seats: nat)
    requires seats >= 2
    ensures var steps := JoinSteps(Some("uid"), seats);
      var s := Run(INITIAL, steps);
      && ValidRun(INITIAL, steps) && (forall b :: b in s.bindings ==> IsActive(s.bindings[b]))
      && Admit(s, 3, SECOND) == Admitted(1) && FreshCall(s, Scenarios.Call(SECOND, [5], 7, 8))
      && |ActiveOf(s.bindings, 1)| == 1 < s.licenses[1].seatLimit
      && Activate(s, From(None), Scenarios.Call(SECOND, [5], 7, 8)).1.Refused?
  {
    var s := Scenarios.Joined(None, seats, From(Some("uid")), 0);
    JoinedState(Some("uid"), seats);
    Scenarios.JoinedIsReached(None, seats, From(Some("uid")), 0);
    Scenarios.JoinedAdmits(None, seats, From(Some("uid")), 0, SECOND);
    UidHolderBlocks(s, 5, From(None), Scenarios.Call(SECOND, [5], 7, 8));
    assert ActiveOf(s.bindings, 1) == {5};
  }

  function ReapSteps(seats: nat): seq<Step> {
    JoinSteps(None, seats) + [StepReap(660 * SECOND)]
  }

  function Reaped(seats: nat): State {
    Jobs.Reap(Scenarios.Joined(None, seats, From(None), 0), 660 * SECOND)
  }

  lemma ReapedIsReached(seats: nat)
    requires seats >= 1
    ensures ValidRun(INITIAL, ReapSteps(seats)) && Run(INITIAL, ReapSteps(seats)) == Reaped(seats)
  {
    var init := JoinSteps(None, seats);
    Scenarios.JoinedIsReached(None, seats, From(None), 0);
    assert ReapSteps(seats)[..|ReapSteps(seats)| - 1] == init;
  }

  lemma ReapedTables(seats: nat)
    requires seats >= 1
    ensures UuidsOk(Reaped(seats))
  {
    JoinedState(None, seats);
    TablesOkReap(Scenarios.Joined(None, seats, From(None), 0), 660 * SECOND);
  }

  lemma NoneActive(bindings: map<Id, Binding>, l: Id)
    requires bindings.Keys == {5} && bindings[5].status == Dead
    ensures |ActiveOf(bindings, l)| == 0
  {
    assert ActiveOf(bindings, l) == {};
  }

  lemma DeadRowRefuses(s: State)
    requires UuidsOk(s) && s.bindings.Keys == {5} && s.uuids == {1, 2, 3, 5, 6}
    requires s.bindings[5].status == Dead && s.bindings[5].license == 1
    requires s.bindings[5].fingerprint == HOST && s.bindings[5].deletedAt.None?
    requires Admit(s, 3, 720 * SECOND) == Admitted(1)
    ensures FreshCall(s, Scenarios.Call(720 * SECOND, [5], 7, 8))
    ensures Activate(s, From(None), Scenarios.Call(720 * SECOND, [5], 7, 8)).1.Refused?
  {
    DeadFingerprintBlocks(s, 5, From(None), Scenarios.Call(720 * SECOND, [5], 7, 8));
  }

  /** A host joins, is silent for eleven minutes, is reaped, and asks again with the same request: refused, with every
      seat free. */
  lemma ReapedHostRun(seats: nat)
    requires seats >= 1
    ensures var s := Run(INITIAL, ReapSteps(seats));
      && ValidRun(INITIAL, ReapSteps(seats)) && 5 in s.bindings && s.bindings[5].status == Dead
      && Admit(s, 3, 720 * SECOND) == Admitted(1) && FreshCall(s, Scenarios.Call(720 * SECOND, [5], 7, 8))
      && |ActiveOf(s.bindings, 1)| == 0 < s.licenses[1].seatLimit
      && Activate(s, From(None), Scenarios.Call(720 * SECOND, [5], 7, 8)).1.Refused?
  {
    ReapedIsReached(seats);
    ReapedState(seats);
    ReapedTables(seats);
    NoneActive(Reaped(seats).bindings, 1);
    DeadRowRefuses(Reaped(seats));
  }

  lemma ReapedState(seats: nat)
    requires seats >= 1
    ensures var s := Jobs.Reap(Scenarios.Joined(None, seats, From(None), 0), 660 * SECOND);
      && s.bindings.Keys == {5} && s.bindings[5].status == Dead && s.bindings[5].license == 1
      && s.bindings[5].fingerprint == HOST && s.bindings[5].deletedAt.None? && s.uuids == {1, 2, 3, 5, 6}
      && s.licenses.Keys == {1} && s.licenses[1].seatLimit == seats
      && Admit(s, 3, 720 * SECOND) == Admitted(1)
  {
    var joined := Scenarios.Joined(None, seats, From(None), 0);
    var s := Jobs.Reap(joined, 660 * SECOND);
    assert 5 in Jobs.Stale(joined.bindings, 660 * SECOND);
    assert HasCode(s.licenses, 1, 3);
    Scenarios.CodeIsFound(s, 3);
  }
}
