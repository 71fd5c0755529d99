/** The licence authority as one machine: its calls and jobs as steps, and runs of steps. */
module Server {
  import opened Basics
  import opened Tables
  import opened EdgeProtocol
  import opened IssuanceProtocol
  import opened CrlProtocol
  import Jobs = WorkerProtocol

  /** StaleCommit is the licence write of an activation that loaded the row earlier, while it was
      still `issued`: it puts the status back to active and stores a seat count of its own. */
  datatype Step =
    | StepIssueOnline(issue: IssueRequest)
    | StepIssueOffline(issue: IssueRequest)
    | StepActivate(activate: ActivateRequest, env: CallEnv)
    | StepValidate(validate: ValidateRequest, env: CallEnv)
    | StepRevoke(license: Id, now: Time, row: Id)
    | StepDelete(license: Id)
    | StepSoftDelete(license: Id, now: Time)
    | StepGenerate(now: Time, scan: seq<Id>)
    | StepReap(now: Time)
    | StepSweep(now: Time)
    | StepStaleCommit(license: Id, seatUsed: int, now: Time)

  function StaleCommit(s: State, l: Id, seatUsed: int, now: Time): State {
    if l !in s.licenses then s
    else
      var lic := s.licenses[l].(seatUsed := seatUsed, status := LicenseStatus.Active, activatedAt := Some(now));
      s.(licenses := s.licenses[l := lic])
  }

  ghost function Next(s: State, step: Step): State {
    match step
    case StepIssueOnline(req) => IssueOnline(s, req).0
    case StepIssueOffline(req) => IssueOffline(s, req).0
    case StepActivate(req, env) => Activate(s, req, env).0
    case StepValidate(req, env) => Validate(s, req, env).0
    case StepRevoke(l, now, row) => Revoke(s, l, now, row).0
    case StepDelete(l) => Delete(s, l).0
    case StepSoftDelete(l, now) => SoftDelete(s, l, now)
    case StepGenerate(now, scan) => Generate(s, now, scan)
    case StepReap(now) => Jobs.Reap(s, now)
    case StepSweep(now) => Jobs.Sweep(s, now)
    case StepStaleCommit(l, seatUsed, now) => StaleCommit(s, l, seatUsed, now)
  }

  /** New identifiers are new, queries list their table, and a request's seat limit is at least one. */
  ghost predicate Enabled(s: State, step: Step) {
    match step
    case StepIssueOnline(req) => FreshIssue(s, req)
    case StepIssueOffline(req) => FreshIssue(s, req)
    case StepActivate(_, env) => FreshCall(s, env)
    case StepValidate(_, env) => FreshCall(s, env)
    case StepRevoke(_, _, row) => row !in s.uuids
    case StepGenerate(_, scan) => Listing(scan, s.revocations.Keys)
    case _ => true
  }

  ghost predicate FreshIssue(s: State, req: IssueRequest) {
    && req.row !in s.uuids && req.publicId !in s.uuids && req.code !in s.uuids
    && req.row != req.publicId && req.publicId != req.code && req.row != req.code
    && req.seatLimit >= 1
  }

  ghost predicate FreshCall(s: State, env: CallEnv) {
    && env.newBinding !in s.uuids && env.newToken !in s.uuids && env.newBinding != env.newToken
    && Listing(env.scan, s.bindings.Keys)
  }

  ghost function Run(s: State, steps: seq<Step>): State {
    if steps == [] then s else Next(Run(s, steps[..|steps| - 1]), steps[|steps| - 1])
  }

  ghost predicate ValidRun(s: State, steps: seq<Step>) {
    steps != [] ==>
      ValidRun(s, steps[..|steps| - 1]) && Enabled(Run(s, steps[..|steps| - 1]), steps[|steps| - 1])
  }

  /** In a serial run every call is one step, so no licence write is stale. */
  ghost predicate Serial(steps: seq<Step>) {
    forall i :: 0 <= i < |steps| ==> !steps[i].StepStaleCommit?
  }

  const INITIAL: State := State(map[], map[], map[], [], map[], map[], [], {})

  // ----- well-formedness of the tables -----

  ghost predicate UuidsOk(s: State) {
    && s.licenses.Keys <= s.uuids && s.bindings.Keys <= s.uuids && s.revocations.Keys <= s.uuids
    && s.tokens.Keys <= s.uuids && s.leases.Keys <= s.uuids
    && (forall l :: l in s.licenses ==> s.licenses[l].publicId in s.uuids)
    && (forall l :: l in s.licenses && s.licenses[l].onlineCode.Some? ==> s.licenses[l].onlineCode.value in s.uuids)
  }

  ghost predicate LicensesOk(licenses: map<Id, License>) {
    && (forall l :: l in licenses ==> licenses[l].seatLimit >= 1)
    && (forall l :: l in licenses ==> (licenses[l].mode == Online <==> licenses[l].onlineCode.Some?))
    && (forall l, m :: l in licenses && m in licenses && l != m ==> licenses[l].publicId != licenses[m].publicId)
    && (forall l, m :: l in licenses && m in licenses && l != m && licenses[l].onlineCode.Some? ==>
          licenses[l].onlineCode != licenses[m].onlineCode)
  }

  ghost predicate BindingsOk(licenses: map<Id, License>, bindings: map<Id, Binding>) {
    && (forall b :: b in bindings ==> bindings[b].license in licenses && licenses[bindings[b].license].mode == Online)
    && (forall b :: b in bindings ==> bindings[b].status in {BindingStatus.Active, Dead} && bindings[b].deletedAt.None?)
    && FingerprintsUnique(bindings)
  }

  ghost predicate FingerprintsUnique(bindings: map<Id, Binding>) {
    forall b, c :: b in bindings && c in bindings && b != c && bindings[b].license == bindings[c].license ==>
      bindings[b].fingerprint != bindings[c].fingerprint
  }

  ghost predicate TablesOk(s: State) {
    UuidsOk(s) && LicensesOk(s.licenses) && BindingsOk(s.licenses, s.bindings)
  }

  // ----- what an activation does to the tables -----

  function SeatOf(s: State, l: Id, req: ActivateRequest, env: CallEnv): Id {
    var existing := MatchBinding(ActiveRows(s.bindings, l, env.scan), s.bindings, req);
    if existing.Some? then existing.value else env.newBinding
  }

  function SeatRow(s: State, l: Id, req: ActivateRequest, env: CallEnv): Binding {
    var existing := MatchBinding(ActiveRows(s.bindings, l, env.scan), s.bindings, req);
    (if existing.Some? then Refreshed(s.bindings[existing.value], req, env.now) else NewBinding(l, req, env.now))
      .(leaseExpiresAt := Some(env.now + LEASE_TTL))
  }

  /** A granted activation refreshed the matching binding or, below the limit, inserted one; the licence row is written
      as it was `loaded`. */
  ghost predicate TookSeatAs(s: State, s': State, l: Id, loaded: License, req: ActivateRequest, env: CallEnv) {
    var existing := MatchBinding(ActiveRows(s.bindings, l, env.scan), s.bindings, req);
    var b := SeatOf(s, l, req, env);
    && l in s.licenses && s.licenses[l].mode == Online
    && !Collides(s.bindings, b, l, req.fingerprint)
    && s'.bindings == s.bindings[b := SeatRow(s, l, req, env)]
    && if existing.Some? then
         b in ActiveOf(s.bindings, l) && !InstallMismatch(s.bindings[b], req.installId) && s'.licenses == s.licenses
       else
         && |ActiveOf(s.bindings, l)| < loaded.seatLimit
         && s'.licenses == s.licenses[l := Occupied(s.licenses[l], loaded, env.now)]
  }

  /** With no time between the checks and the section. */
  ghost predicate TookSeat(s: State, s': State, l: Id, req: ActivateRequest, env: CallEnv) {
    && l in s.licenses && AssertValidWindow(s.licenses[l], env.now).None? && !IsRevoked(s.revocations, l)
    && TookSeatAs(s, s', l, s.licenses[l], req, env)
  }

  /** The new token, in the cache and in its row, stands for binding `b` of licence `l`. */
  ghost predicate TokenStored(s: State, s': State, l: Id, b: Id, env: CallEnv) {
    && s'.tokens == s.tokens[env.newToken := CachedLease(l, b, env.now + LEASE_TTL + LEASE_GRACE)]
    && s'.leases == s.leases[env.newToken := Lease(l, b, env.now + LEASE_TTL, env.now + LEASE_TTL + LEASE_GRACE)]
    && s'.uuids == s.uuids + {b, env.newToken}
  }

  lemma SeatEffect(s: State, l: Id, loaded: License, req: ActivateRequest, env: CallEnv)
    requires FreshCall(s, env) && l in s.licenses && s.licenses[l].mode == Online
    requires TakeSeat(s, l, loaded, req, env).Seated?
    ensures var seating := TakeSeat(s, l, loaded, req, env);
      && seating.binding == SeatOf(s, l, req, env)
      && TookSeatAs(s, Minted(seating.state, l, seating.binding, env), l, loaded, req, env)
  {
    ActiveRowsListing(s.bindings, l, env.scan);
    SeatWritten(s, l, loaded, req, env);
  }

  lemma SeatWritten(s: State, l: Id, loaded: License, req: ActivateRequest, env: CallEnv)
    requires l in s.licenses && TakeSeat(s, l, loaded, req, env).Seated?
    ensures var seating := TakeSeat(s, l, loaded, req, env);
      seating.binding == SeatOf(s, l, req, env)
      && Minted(seating.state, l, seating.binding, env).bindings
        == s.bindings[seating.binding := SeatRow(s, l, req, env)]
  {
    var seating := TakeSeat(s, l, loaded, req, env);
    assert Minted(seating.state, l, seating.binding, env).bindings
        == s.bindings[seating.binding := SeatRow(s, l, req, env)];
  }

  lemma KeysMinted(s: State, l: Id, loaded: License, req: ActivateRequest, env: CallEnv)
    requires UuidsOk(s) && l in s.licenses && TakeSeat(s, l, loaded, req, env).Seated?
    ensures var seating := TakeSeat(s, l, loaded, req, env);
      TokenStored(s, Minted(seating.state, l, seating.binding, env), l, seating.binding, env)
  {
    var seating := TakeSeat(s, l, loaded, req, env);
    assert seating.state.uuids == s.uuids + {seating.binding};
  }

  /** The part of an activation after its checks. */
  lemma EnterEffect(s: State, l: Id, loaded: License, req: ActivateRequest, env: CallEnv)
    requires FreshCall(s, env) && (l in s.licenses ==> s.licenses[l].mode == Online)
    ensures var (s', reply) := Enter(s, l, loaded, req, env);
      && s'.revocations == s.revocations && s'.bundles == s.bundles && s.uuids <= s'.uuids
      && (reply.Refused? ==> s' == s.(alerts := s'.alerts))
      && (reply.Granted? ==> TookSeatAs(s, s', l, loaded, req, env))
  {
    if Enter(s, l, loaded, req, env).1.Granted? {
      SeatEffect(s, l, loaded, req, env);
    }
  }

  lemma EnterTokens(s: State, l: Id, loaded: License, req: ActivateRequest, env: CallEnv)
    requires UuidsOk(s) && Enter(s, l, loaded, req, env).1.Granted?
    ensures var (s', reply) := Enter(s, l, loaded, req, env);
      var b := SeatOf(s, l, req, env);
      && TokenStored(s, s', l, b, env) && reply.token == env.newToken
      && reply.lease.license == loaded.publicId && reply.lease.issuedAt == env.now
      && reply.lease.graceUntil == env.now + LEASE_TTL + LEASE_GRACE
  {
    SeatWritten(s, l, loaded, req, env);
    KeysMinted(s, l, loaded, req, env);
  }

  lemma ActivateEffect(s: State, req: ActivateRequest, env: CallEnv)
    requires FreshCall(s, env)
    ensures var (s', reply) := Activate(s, req, env);
      && s'.revocations == s.revocations && s'.bundles == s.bundles && s.uuids <= s'.uuids
      && (reply.Refused? ==> s' == s.(alerts := s'.alerts))
      && (reply.Granted? ==> FindByCode(s.licenses, req.onlineCode).Some?
                             && TookSeat(s, s', FindByCode(s.licenses, req.onlineCode).value, req, env))
  {
    var admission := Admit(s, req.onlineCode, env.now);
    if admission.Admitted? {
      EnterEffect(s, admission.license, s.licenses[admission.license], req, env);
    }
  }

  lemma EnterKeys(s: State, l: Id, loaded: License, req: ActivateRequest, env: CallEnv)
    requires FreshCall(s, env) && UuidsOk(s) && (l in s.licenses ==> s.licenses[l].mode == Online)
    ensures UuidsOk(Enter(s, l, loaded, req, env).0)
  {
    EnterEffect(s, l, loaded, req, env);
    var (s', reply) := Enter(s, l, loaded, req, env);
    if reply.Granted? {
      EnterTokens(s, l, loaded, req, env);
      LicensesKnown(s, s', l, loaded, req, env);
    }
  }

  lemma LicensesKnown(s: State, s': State, l: Id, loaded: License, req: ActivateRequest, env: CallEnv)
    requires TookSeatAs(s, s', l, loaded, req, env) && UuidsOk(s) && s.uuids <= s'.uuids
    ensures s'.licenses.Keys <= s'.uuids
    ensures forall m :: m in s'.licenses ==> s'.licenses[m].publicId in s'.uuids
    ensures forall m :: m in s'.licenses && s'.licenses[m].onlineCode.Some? ==>
      s'.licenses[m].onlineCode.value in s'.uuids
  {
  }

  lemma ValidateEffect(s: State, req: ValidateRequest, env: CallEnv)
    ensures var (s', reply) := Validate(s, req, env);
      && s' == s.(tokens := s'.tokens, uuids := s'.uuids)
      && s'.uuids <= s.uuids + {env.newToken} && s.uuids <= s'.uuids
      && s'.tokens.Keys <= s.tokens.Keys + {env.newToken}
  {
  }

  lemma InsertedRowIsUnique(bindings: map<Id, Binding>, b: Id, row: Binding)
    requires FingerprintsUnique(bindings)
    requires forall c :: c in bindings ==> bindings[c].deletedAt.None?
    requires !Collides(bindings, b, row.license, row.fingerprint)
    ensures FingerprintsUnique(bindings[b := row])
  {
  }

  lemma TablesOkEnter(s: State, l: Id, loaded: License, req: ActivateRequest, env: CallEnv)
    requires TablesOk(s) && FreshCall(s, env) && (l in s.licenses ==> s.licenses[l].mode == Online)
    ensures TablesOk(Enter(s, l, loaded, req, env).0)
  {
    EnterKeys(s, l, loaded, req, env);
    EnterEffect(s, l, loaded, req, env);
    var (s', reply) := Enter(s, l, loaded, req, env);
    if reply.Granted? {
      InsertedRowIsUnique(s.bindings, SeatOf(s, l, req, env), SeatRow(s, l, req, env));
      OccupiedLicenses(s, s', l, loaded, req, env);
      SeatRowIsLive(s, s', l, loaded, req, env);
    }
  }

  lemma TablesOkActivate(s: State, req: ActivateRequest, env: CallEnv)
    requires TablesOk(s) && FreshCall(s, env)
    ensures TablesOk(Activate(s, req, env).0)
  {
    var admission := Admit(s, req.onlineCode, env.now);
    if admission.Admitted? {
      TablesOkEnter(s, admission.license, s.licenses[admission.license], req, env);
    }
  }

  lemma OccupiedLicenses(s: State, s': State, l: Id, loaded: License, req: ActivateRequest, env: CallEnv)
    requires TookSeatAs(s, s', l, loaded, req, env) && LicensesOk(s.licenses) && BindingsOk(s.licenses, s.bindings)
    ensures LicensesOk(s'.licenses) && s'.licenses.Keys == s.licenses.Keys
    ensures forall m :: m in s.licenses ==> s'.licenses[m].mode == s.licenses[m].mode
  {
    if s'.licenses != s.licenses {
      RelabelledLicense(s.licenses, s.bindings, l, Occupied(s.licenses[l], loaded, env.now));
    }
  }

  lemma SeatRowIsLive(s: State, s': State, l: Id, loaded: License, req: ActivateRequest, env: CallEnv)
    requires TookSeatAs(s, s', l, loaded, req, env) && BindingsOk(s.licenses, s.bindings)
    requires s'.licenses.Keys == s.licenses.Keys
    requires forall m :: m in s.licenses ==> s'.licenses[m].mode == s.licenses[m].mode
    ensures forall b :: b in s'.bindings ==>
      && s'.bindings[b].license in s'.licenses && s'.licenses[s'.bindings[b].license].mode == Online
      && s'.bindings[b].status in {BindingStatus.Active, Dead} && s'.bindings[b].deletedAt.None?
  {
  }

  /** Updating columns other than the identifiers, the mode and the limit. */
  lemma RelabelledLicense(licenses: map<Id, License>, bindings: map<Id, Binding>, l: Id, lic: License)
    requires LicensesOk(licenses) && BindingsOk(licenses, bindings) && l in licenses
    requires lic.publicId == licenses[l].publicId && lic.mode == licenses[l].mode
    requires lic.onlineCode == licenses[l].onlineCode && lic.seatLimit == licenses[l].seatLimit
    ensures LicensesOk(licenses[l := lic]) && BindingsOk(licenses[l := lic], bindings)
  {
  }

  /** Inserting a licence whose identifiers are new. */
  lemma NewLicense(s: State, row: Id, lic: License)
    requires TablesOk(s) && row !in s.uuids && lic.publicId !in s.uuids && lic.seatLimit >= 1
    requires lic.mode == Online <==> lic.onlineCode.Some?
    requires lic.onlineCode.Some? ==> lic.onlineCode.value !in s.uuids
    ensures LicensesOk(s.licenses[row := lic]) && BindingsOk(s.licenses[row := lic], s.bindings)
  {
  }

  lemma TablesOkIssueOnline(s: State, req: IssueRequest)
    requires TablesOk(s) && FreshIssue(s, req)
    ensures TablesOk(IssueOnline(s, req).0)
  {
    NewLicense(s, req.row, OnlineLicense(req));
  }

  lemma TablesOkIssueOffline(s: State, req: IssueRequest)
    requires TablesOk(s) && FreshIssue(s, req)
    ensures TablesOk(IssueOffline(s, req).0)
  {
    NewLicense(s, req.row, OfflineLicense(req));
  }

  lemma UuidsOkRevoke(s: State, l: Id, now: Time, row: Id)
    requires UuidsOk(s)
    ensures UuidsOk(Revoke(s, l, now, row).0)
  {
  }

  lemma RevokeEffect(s: State, l: Id, now: Time, row: Id)
    ensures var s' := Revoke(s, l, now, row).0;
      && s'.bindings == s.bindings
      && (s'.licenses == s.licenses
          || (&& l in s.licenses
              && s'.licenses == s.licenses[l := s.licenses[l].(status := Revoked, revokedAt := Some(now))]))
  {
  }

  lemma TablesOkRevoke(s: State, l: Id, now: Time, row: Id)
    requires TablesOk(s)
    ensures TablesOk(Revoke(s, l, now, row).0)
  {
    UuidsOkRevoke(s, l, now, row);
    RevokeEffect(s, l, now, row);
    if l in s.licenses {
      RelabelledLicense(s.licenses, s.bindings, l, s.licenses[l].(status := Revoked, revokedAt := Some(now)));
    }
  }

  lemma TablesOkDelete(s: State, l: Id)
    requires TablesOk(s)
    ensures TablesOk(Delete(s, l).0)
  {
  }

  lemma TablesOkSoftDelete(s: State, l: Id, now: Time)
    requires TablesOk(s)
    ensures TablesOk(SoftDelete(s, l, now))
  {
  }

  lemma TablesOkStaleCommit(s: State, l: Id, seatUsed: int, now: Time)
    requires TablesOk(s)
    ensures TablesOk(StaleCommit(s, l, seatUsed, now))
  {
  }

  lemma LicensesOkReap(s: State, now: Time)
    requires LicensesOk(s.licenses) && UuidsOk(s)
    ensures LicensesOk(Jobs.Reap(s, now).licenses) && UuidsOk(Jobs.Reap(s, now))
  {
  }

  lemma UniqueWhenBuried(bindings: map<Id, Binding>, dead: set<Id>)
    requires FingerprintsUnique(bindings)
    ensures FingerprintsUnique(Jobs.Buried(bindings, dead))
  {
  }

  lemma BindingsOkReap(s: State, now: Time)
    requires BindingsOk(s.licenses, s.bindings)
    ensures BindingsOk(Jobs.Reap(s, now).licenses, Jobs.Reap(s, now).bindings)
  {
    UniqueWhenBuried(s.bindings, Jobs.Stale(s.bindings, now));
    var s' := Jobs.Reap(s, now);
    forall b | b in s'.bindings
      ensures s'.bindings[b].license in s'.licenses && s'.licenses[s'.bindings[b].license].mode == Online
      ensures s'.bindings[b].status in {BindingStatus.Active, Dead} && s'.bindings[b].deletedAt.None?
    {
      assert b in s.bindings && s'.bindings[b].license == s.bindings[b].license;
    }
  }

  lemma TablesOkReap(s: State, now: Time)
    requires TablesOk(s)
    ensures TablesOk(Jobs.Reap(s, now))
  {
    LicensesOkReap(s, now);
    BindingsOkReap(s, now);
  }

  lemma TablesOkSweep(s: State, now: Time)
    requires TablesOk(s)
    ensures TablesOk(Jobs.Sweep(s, now))
  {
  }

  lemma UuidsGrow(s: State, step: Step)
    requires Enabled(s, step)
    ensures s.uuids <= Next(s, step).uuids
  {
    match step
    case StepActivate(req, env) => ActivateEffect(s, req, env);
    case StepValidate(req, env) => ValidateEffect(s, req, env);
    case _ =>
  }

  lemma TablesOkGenerate(s: State, now: Time, scan: seq<Id>)
    requires TablesOk(s)
    ensures TablesOk(Generate(s, now, scan))
  {
  }

  lemma TablesOkValidate(s: State, req: ValidateRequest, env: CallEnv)
    requires TablesOk(s)
    ensures TablesOk(Validate(s, req, env).0)
  {
  }

  lemma TablesOkNext(s: State, step: Step)
    requires TablesOk(s) && Enabled(s, step)
    ensures TablesOk(Next(s, step)) && s.uuids <= Next(s, step).uuids
  {
    UuidsGrow(s, step);
    match step
    case StepIssueOnline(req) => TablesOkIssueOnline(s, req);
    case StepIssueOffline(req) => TablesOkIssueOffline(s, req);
    case StepActivate(req, env) => TablesOkActivate(s, req, env);
    case StepValidate(req, env) => TablesOkValidate(s, req, env);
    case StepRevoke(l, now, row) => TablesOkRevoke(s, l, now, row);
    case StepDelete(l) => TablesOkDelete(s, l);
    case StepSoftDelete(l, now) => TablesOkSoftDelete(s, l, now);
    case StepGenerate(now, scan) => TablesOkGenerate(s, now, scan);
    case StepReap(now) => TablesOkReap(s, now);
    case StepSweep(now) => TablesOkSweep(s, now);
    case StepStaleCommit(l, seatUsed, now) => TablesOkStaleCommit(s, l, seatUsed, now);
  }

  lemma {:induction false} TablesOkRun(s: State, steps: seq<Step>)
    requires TablesOk(s) && ValidRun(s, steps)
    ensures TablesOk(Run(s, steps)) && s.uuids <= Run(s, steps).uuids
  {
    if steps != [] {
      TablesOkRun(s, steps[..|steps| - 1]);
      TablesOkNext(Run(s, steps[..|steps| - 1]), steps[|steps| - 1]);
    }
  }
}
