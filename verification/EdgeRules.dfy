/** What activation and renewal answer and write, in the columns of the tables and the fields of the requests. */
module EdgeRules {
  import opened Basics
  import opened Tables
  import opened EdgeProtocol
  import opened Server

  // ----- the licence -----

  /** An undeleted licence with this online code. */
  ghost predicate Holds(s: State, l: Id, code: Id) {
    l in s.licenses && s.licenses[l].onlineCode == Some(code) && s.licenses[l].deletedAt == None
  }

  predicate PastEnd(lic: License, now: Time) {
    lic.activeUntil.Some? && lic.activeUntil.value <= now
  }

  ghost predicate HasRevocation(s: State, l: Id) {
    exists r :: r in s.revocations && s.revocations[r].license == Some(l)
  }

  /** Undeleted, not revoked by status or by a revocation row, and before its end. */
  ghost predicate InForce(s: State, l: Id, now: Time) {
    && l in s.licenses && s.licenses[l].deletedAt == None && s.licenses[l].status != LicenseStatus.Revoked
    && !PastEnd(s.licenses[l], now) && !HasRevocation(s, l)
  }

  /** Past its end, and neither deleted nor in status revoked: that is looked at first, revocation rows last. */
  ghost predicate Lapsed(s: State, l: Id, now: Time) {
    && l in s.licenses && s.licenses[l].deletedAt == None && s.licenses[l].status != LicenseStatus.Revoked
    && PastEnd(s.licenses[l], now)
  }

  /** Which licence the checks admit, and which refusal they give otherwise. */
  lemma AdmittedExactly(s: State, code: Id, now: Time)
    requires LicensesOk(s.licenses)
    ensures forall l :: Admit(s, code, now) == Admitted(l) <==> Holds(s, l, code) && InForce(s, l, now)
    ensures Admit(s, code, now) == Barred(ResourceNotFound) <==> forall l :: !Holds(s, l, code)
    ensures Admit(s, code, now) == Barred(ErrorCode.LicenseExpired) <==>
      exists l :: Holds(s, l, code) && Lapsed(s, l, now)
    ensures Admit(s, code, now) == Barred(ErrorCode.LicenseRevoked) <==>
      exists l :: Holds(s, l, code) && !Lapsed(s, l, now) && !InForce(s, l, now)
  {
    if l: Id :| Holds(s, l, code) {
      assert HasCode(s.licenses, l, code);
      assert forall m :: Holds(s, m, code) ==> m == l;
      assert FindByCode(s.licenses, code) == Some(l);
    } else {
      assert forall l :: HasCode(s.licenses, l, code) ==> Holds(s, l, code);
    }
  }

  // ----- the matching row -----

  /** The row takes a seat of licence `l`. */
  predicate TakesSeat(bindings: map<Id, Binding>, l: Id, b: Id) {
    && b in bindings && bindings[b].license == l
    && bindings[b].status == BindingStatus.Active && bindings[b].deletedAt == None
  }

  predicate SameHost(row: Binding, req: ActivateRequest) {
    row.deploymentUid == None && row.fingerprint == req.fingerprint
  }

  /** Two signals at least have the same value. */
  predicate SharesTwo(a: map<string, string>, b: map<string, string>) {
    exists k, k' | k in a && k' in a :: k != k' && k in b && k' in b && a[k] == b[k] && a[k'] == b[k']
  }

  predicate Alike(row: Binding, req: ActivateRequest) {
    && row.deploymentUid == None && row.signals.Some? && req.signals.Some?
    && SharesTwo(req.signals.value, row.signals.value)
  }

  ghost predicate HostHasSeat(bindings: map<Id, Binding>, l: Id, req: ActivateRequest) {
    exists b :: TakesSeat(bindings, l, b) && SameHost(bindings[b], req)
  }

  /** The row stands for the requesting installation: by uid if the request has one; else, among the rows without a
      uid, by fingerprint; and by two signals if no row has the fingerprint. */
  ghost predicate Kin(bindings: map<Id, Binding>, l: Id, b: Id, req: ActivateRequest) {
    && TakesSeat(bindings, l, b)
    && if req.deploymentUid.Some? && req.deploymentUid.value != "" then bindings[b].deploymentUid == req.deploymentUid
       else SameHost(bindings[b], req) || (!HostHasSeat(bindings, l, req) && Alike(bindings[b], req))
  }

  /** `m` is the first such row the query returns, if there is one. */
  ghost predicate IsMatch(bindings: map<Id, Binding>, l: Id, scan: seq<Id>, req: ActivateRequest, m: Option<Id>) {
    match m
    case None => forall b :: !Kin(bindings, l, b, req)
    case Some(b) =>
      exists i :: 0 <= i < |scan| && scan[i] == b && Kin(bindings, l, b, req)
                  && forall j :: 0 <= j < i ==> !Kin(bindings, l, scan[j], req)
  }

  lemma TwoAgree(a: map<string, string>, b: map<string, string>)
    ensures |Agreeing(a, b)| >= 2 <==> SharesTwo(a, b)
  {
    var both := Agreeing(a, b);
    if |both| >= 2 {
      var k :| k in both;
      var rest := both - {k};
      assert |rest| >= 1;
      var k' :| k' in rest;
    } else if SharesTwo(a, b) {
      var k, k' :| k in a && k' in a && k != k' && k in b && k' in b && a[k] == b[k] && a[k'] == b[k'];
      assert {k, k'} <= both;
      SubsetSize({k, k'}, both);
    }
  }

  lemma SubsetSize<T>(a: set<T>, b: set<T>)
    requires a <= b
    ensures |a| <= |b|
  {
    assert b == a + (b - a);
  }

  /** The first fit among the rows of the query is the first row of the table that takes a seat and fits. */
  ghost predicate FirstSuch(bindings: map<Id, Binding>, l: Id, scan: seq<Id>, req: ActivateRequest, rule: Rule, b: Id) {
    exists i :: 0 <= i < |scan| && scan[i] == b && Suits(bindings, l, b, req, rule)
                && forall j :: 0 <= j < i ==> !Suits(bindings, l, scan[j], req, rule)
  }

  predicate Suits(bindings: map<Id, Binding>, l: Id, b: Id, req: ActivateRequest, rule: Rule) {
    TakesSeat(bindings, l, b) && Fits(bindings[b], req, rule)
  }

  lemma {:induction false} FirstFitIsFirst(
      bindings: map<Id, Binding>, l: Id, scan: seq<Id>, req: ActivateRequest, rule: Rule)
    ensures var r := FirstFit(ActiveRows(bindings, l, scan), bindings, req, rule);
      if r.Some? then FirstSuch(bindings, l, scan, req, rule, r.value)
      else forall i :: 0 <= i < |scan| ==> !Suits(bindings, l, scan[i], req, rule)
  {
    if scan != [] {
      var init, last := scan[..|scan| - 1], scan[|scan| - 1];
      FirstFitIsFirst(bindings, l, init, req, rule);
      var before := ActiveRows(bindings, l, init);
      if last in ActiveOf(bindings, l) {
        FirstFitAppends(before, last, bindings, req, rule);
      }
      var r := FirstFit(before, bindings, req, rule);
      if r.Some? {
        var i :| 0 <= i < |init| && init[i] == r.value && Suits(bindings, l, r.value, req, rule)
                 && forall j :: 0 <= j < i ==> !Suits(bindings, l, init[j], req, rule);
        assert scan[i] == r.value && forall j :: 0 <= j < i ==> scan[j] == init[j];
      }
    }
  }

  lemma {:induction false} FirstFitAppends(
      rows: seq<Id>, last: Id, bindings: map<Id, Binding>, req: ActivateRequest, rule: Rule)
    ensures FirstFit(rows + [last], bindings, req, rule)
      == if FirstFit(rows, bindings, req, rule).Some? then FirstFit(rows, bindings, req, rule)
         else if last in bindings && Fits(bindings[last], req, rule) then Some(last) else None
  {
    if rows != [] {
      assert (rows + [last])[1..] == rows[1..] + [last];
      FirstFitAppends(rows[1..], last, bindings, req, rule);
    }
  }

  lemma KinByRule(bindings: map<Id, Binding>, l: Id, b: Id, req: ActivateRequest)
    ensures Kin(bindings, l, b, req) <==>
      if Filled(req.deploymentUid) then Suits(bindings, l, b, req, ByUid)
      else Suits(bindings, l, b, req, ByFingerprint)
           || (!HostHasSeat(bindings, l, req) && FilledMap(req.signals) && Suits(bindings, l, b, req, BySignals))
  {
    if b in bindings && bindings[b].signals.Some? && req.signals.Some? {
      TwoAgree(req.signals.value, bindings[b].signals.value);
    }
  }

  /** The row an activation reuses is the first that stands for the installation, and there is no other such row. */
  lemma MatchExactly(bindings: map<Id, Binding>, l: Id, scan: seq<Id>, req: ActivateRequest, m: Option<Id>)
    requires Listing(scan, bindings.Keys)
    ensures MatchBinding(ActiveRows(bindings, l, scan), bindings, req) == m <==> IsMatch(bindings, l, scan, req, m)
  {
    var rows := ActiveRows(bindings, l, scan);
    FirstFitIsFirst(bindings, l, scan, req, ByUid);
    FirstFitIsFirst(bindings, l, scan, req, ByFingerprint);
    FirstFitIsFirst(bindings, l, scan, req, BySignals);
    forall b ensures Kin(bindings, l, b, req) <==>
      if Filled(req.deploymentUid) then Suits(bindings, l, b, req, ByUid)
      else Suits(bindings, l, b, req, ByFingerprint)
           || (!HostHasSeat(bindings, l, req) && FilledMap(req.signals) && Suits(bindings, l, b, req, BySignals))
    {
      KinByRule(bindings, l, b, req);
    }
  }

  // ----- activation -----

  /** Both sides have an install id, and not the same. */
  predicate OtherInstall(row: Option<string>, sent: Option<string>) {
    row.Some? && sent.Some? && row.value != "" && sent.value != "" && row.value != sent.value
  }

  ghost function SeatsTaken(bindings: map<Id, Binding>, l: Id): nat {
    |set b | b in bindings && TakesSeat(bindings, l, b)|
  }

  /** Another undeleted row of the licence, dead or alive, has the fingerprint. */
  ghost predicate HeldElsewhere(bindings: map<Id, Binding>, l: Id, fingerprint: string, m: Option<Id>) {
    exists c :: c in bindings && Some(c) != m && bindings[c].license == l && bindings[c].fingerprint == fingerprint
                && bindings[c].deletedAt == None
  }

  ghost predicate Clone(bindings: map<Id, Binding>, m: Option<Id>, req: ActivateRequest) {
    m.Some? && m.value in bindings && OtherInstall(bindings[m.value].installId, req.installId)
  }

  ghost predicate Full(s: State, l: Id, m: Option<Id>) {
    m.None? && l in s.licenses && SeatsTaken(s.bindings, l) >= s.licenses[l].seatLimit
  }

  lemma SeatsCounted(bindings: map<Id, Binding>, l: Id, scan: seq<Id>)
    requires Listing(scan, bindings.Keys)
    ensures |ActiveRows(bindings, l, scan)| == SeatsTaken(bindings, l)
  {
    ActiveRowsListing(bindings, l, scan);
    assert ActiveOf(bindings, l) == set b | b in bindings && TakesSeat(bindings, l, b);
  }

  lemma CollisionHeld(bindings: map<Id, Binding>, l: Id, fingerprint: string, m: Option<Id>, newRow: Id)
    requires newRow !in bindings
    ensures Collides(bindings, if m.Some? then m.value else newRow, l, fingerprint) <==>
      HeldElsewhere(bindings, l, fingerprint, m)
  {
  }

  /** Every answer of an admitted activation, `m` being the row that stands for the installation.  One of the
      conditions holds, and only one. */
  lemma ActivationAnswers(s: State, l: Id, req: ActivateRequest, env: CallEnv, m: Option<Id>)
    requires TablesOk(s) && FreshCall(s, env) && Holds(s, l, req.onlineCode) && InForce(s, l, env.now)
    requires IsMatch(s.bindings, l, env.scan, req, m)
    ensures var (s', reply) := Activate(s, req, env);
      if !env.lockFree then (s', reply) == (s, Refused(SeatLockBusy))
      else if Clone(s.bindings, m, req) then (s', reply) == (s, Refused(ErrorCode.BindingMismatch))
      else if Full(s, l, m) then
        var n, limit := SeatsTaken(s.bindings, l), s.licenses[l].seatLimit;
        (s', reply) == (s.(alerts := s.alerts + [CloneAlert(l, n + 1, limit)]), Refused(SeatExceeded))
      else if HeldElsewhere(s.bindings, l, req.fingerprint, m) then (s', reply) == (s, Refused(InternalError))
      else if !env.keyReady then (s', reply) == (s, Refused(KeyNotFound))
      else reply.Granted?
  {
    AdmittedExactly(s, req.onlineCode, env.now);
    assert Admit(s, req.onlineCode, env.now) == Admitted(l);
    MatchExactly(s.bindings, l, env.scan, req, m);
    SeatsCounted(s.bindings, l, env.scan);
    CollisionHeld(s.bindings, l, req.fingerprint, m, env.newBinding);
  }

  /** The later of two optional texts, if it says anything. */
  function Kept(first: Option<string>, second: Option<string>): Option<string> {
    if first.Some? && first.value != "" then first else second
  }

  /** The row of a granted activation: seen and leased now, under the fingerprint of the request. */
  predicate Leased(row: Binding, l: Id, req: ActivateRequest, now: Time) {
    && row.license == l && row.status == BindingStatus.Active && row.deletedAt == None
    && row.fingerprint == req.fingerprint && row.lastHeartbeat == Some(now)
    && row.leaseExpiresAt == Some(now + 86_400 * SECOND)
  }

  /** A new row has the identity of the request; one that is reused keeps its install id, if it has one, and takes from
      the request the uid and the signals that it sends. */
  predicate Identified(row: Binding, before: Option<Binding>, req: ActivateRequest) {
    match before
    case None => row.installId == req.installId && row.signals == req.signals && row.deploymentUid == req.deploymentUid
    case Some(was) =>
      && row.installId == Kept(was.installId, req.installId)
      && row.deploymentUid == Kept(req.deploymentUid, was.deploymentUid)
      && row.signals == if req.signals.Some? && req.signals.value != map[] then req.signals else was.signals
  }

  ghost predicate Grants(s: State, l: Id, req: ActivateRequest, env: CallEnv, m: Option<Id>) {
    && TablesOk(s) && FreshCall(s, env) && Holds(s, l, req.onlineCode) && Activate(s, req, env).1.Granted?
    && IsMatch(s.bindings, l, env.scan, req, m)
  }

  /** The row that is leased: the match, or a new one. */
  function Seat(m: Option<Id>, env: CallEnv): Id {
    if m.Some? then m.value else env.newBinding
  }

  lemma GrantTakes(s: State, l: Id, req: ActivateRequest, env: CallEnv, m: Option<Id>)
    requires Grants(s, l, req, env, m)
    ensures Enter(s, l, s.licenses[l], req, env) == Activate(s, req, env)
    ensures SeatOf(s, l, req, env) == Seat(m, env)
    ensures MatchBinding(ActiveRows(s.bindings, l, env.scan), s.bindings, req) == m
    ensures TookSeatAs(s, Activate(s, req, env).0, l, s.licenses[l], req, env)
  {
    ActivateEffect(s, req, env);
    AdmittedExactly(s, req.onlineCode, env.now);
    assert HasCode(s.licenses, l, req.onlineCode);
    assert FindByCode(s.licenses, req.onlineCode) == Some(l);
    MatchExactly(s.bindings, l, env.scan, req, m);
  }

  lemma RowTaken(s: State, s': State, l: Id, req: ActivateRequest, env: CallEnv, m: Option<Id>)
    requires FreshCall(s, env) && l in s.licenses && TookSeatAs(s, s', l, s.licenses[l], req, env)
    requires MatchBinding(ActiveRows(s.bindings, l, env.scan), s.bindings, req) == m
    requires m.Some? ==> TakesSeat(s.bindings, l, m.value)
    requires s.bindings.Keys <= s.uuids
    ensures var b := Seat(m, env);
      && b in s'.bindings && s'.bindings == s.bindings[b := s'.bindings[b]]
      && Leased(s'.bindings[b], l, req, env.now)
      && Identified(s'.bindings[b], if b in s.bindings then Some(s.bindings[b]) else None, req)
  {
  }

  /** A granted activation writes one binding, the match or a new one, and no other. */
  lemma ActivationRow(s: State, l: Id, req: ActivateRequest, env: CallEnv, m: Option<Id>)
    requires Grants(s, l, req, env, m)
    ensures var s', b := Activate(s, req, env).0, Seat(m, env);
      && b in s'.bindings && s'.bindings == s.bindings[b := s'.bindings[b]]
      && Leased(s'.bindings[b], l, req, env.now)
      && Identified(s'.bindings[b], if b in s.bindings then Some(s.bindings[b]) else None, req)
  {
    GrantTakes(s, l, req, env, m);
    assert m.Some? ==> Kin(s.bindings, l, m.value, req);
    RowTaken(s, Activate(s, req, env).0, l, req, env, m);
  }

  /** It counts a seat if the row is new, and activates a licence that was issued; it writes no other licence, and no
      revocation, bundle or alert. */
  lemma ActivationCounts(s: State, l: Id, req: ActivateRequest, env: CallEnv, m: Option<Id>)
    requires Grants(s, l, req, env, m)
    ensures var s', lic := Activate(s, req, env).0, s.licenses[l];
      && s'.licenses == s.licenses[l :=
           if m.Some? then lic
           else if lic.status != LicenseStatus.Issued then lic.(seatUsed := lic.seatUsed + 1)
           else lic.(seatUsed := lic.seatUsed + 1, status := LicenseStatus.Active, activatedAt := Some(env.now))]
      && s'.revocations == s.revocations && s'.bundles == s.bundles && s'.alerts == s.alerts
  {
    GrantTakes(s, l, req, env, m);
  }

  lemma LeaseGranted(s: State, l: Id, req: ActivateRequest, env: CallEnv)
    requires UuidsOk(s) && l in s.licenses && Enter(s, l, s.licenses[l], req, env).1.Granted?
    ensures var (s', reply) := Enter(s, l, s.licenses[l], req, env);
      var b, lic := SeatOf(s, l, req, env), s.licenses[l];
      var end, grace := env.now + 86_400 * SECOND, env.now + 345_600 * SECOND;
      && reply == Granted(env.newToken,
                          LeasePayload(lic.publicId, req.fingerprint, lic.activeUntil, end, grace, env.now))
      && s'.leases == s.leases[env.newToken := Lease(l, b, end, grace)]
      && s'.tokens == s.tokens[env.newToken := CachedLease(l, b, grace)]
  {
    EnterTokens(s, l, s.licenses[l], req, env);
  }

  /** It answers and stores a lease of a day with three days of grace, for the host of the request. */
  lemma ActivationLease(s: State, l: Id, req: ActivateRequest, env: CallEnv, m: Option<Id>)
    requires Grants(s, l, req, env, m)
    ensures var (s', reply) := Activate(s, req, env);
      var b, lic := Seat(m, env), s.licenses[l];
      var end, grace := env.now + 86_400 * SECOND, env.now + 345_600 * SECOND;
      && reply == Granted(env.newToken,
                          LeasePayload(lic.publicId, req.fingerprint, lic.activeUntil, end, grace, env.now))
      && s'.leases == s.leases[env.newToken := Lease(l, b, end, grace)]
      && s'.tokens == s.tokens[env.newToken := CachedLease(l, b, grace)]
  {
    GrantTakes(s, l, req, env, m);
    LeaseGranted(s, l, req, env);
  }

  // ----- renewal -----

  /** The token stands for binding `b`: by its cache entry while that lives, else by its row. */
  predicate StandsFor(s: State, token: Id, now: Time, b: Id) {
    if token in s.tokens && now < s.tokens[token].deadline then b == s.tokens[token].binding
    else token in s.leases && b == s.leases[token].binding
  }

  /** The request comes from the installation of the row: the same fingerprint unless the row has a uid, and not
      another install id. */
  predicate FromHost(row: Binding, req: ValidateRequest) {
    (row.deploymentUid.Some? || row.fingerprint == req.fingerprint) && !OtherInstall(row.installId, req.installId)
  }

  /** The row is there, takes a seat, and is the requesting installation's. */
  predicate Recognised(s: State, b: Id, req: ValidateRequest) {
    b in s.bindings && s.bindings[b].status == BindingStatus.Active && FromHost(s.bindings[b], req)
  }

  /** Every answer of a renewal of a token that stands for `b`. */
  lemma RenewalAnswers(s: State, req: ValidateRequest, env: CallEnv, b: Id)
    requires StandsFor(s, req.token, env.now, b)
    ensures var reply := Validate(s, req, env).1;
      if !Recognised(s, b, req) then reply == Refused(ErrorCode.BindingMismatch)
      else if Lapsed(s, s.bindings[b].license, env.now) then reply == Refused(ErrorCode.LicenseExpired)
      else if !InForce(s, s.bindings[b].license, env.now) then reply == Refused(ErrorCode.LicenseRevoked)
      else if !env.keyReady then reply == Refused(KeyNotFound)
      else reply.Granted?
  {
  }

  /** When a renewal is granted. */
  lemma RenewedExactly(s: State, req: ValidateRequest, env: CallEnv)
    ensures Validate(s, req, env).1.Granted? <==>
      && env.keyReady
      && exists b :: StandsFor(s, req.token, env.now, b) && Recognised(s, b, req)
                     && InForce(s, s.bindings[b].license, env.now)
    ensures Validate(s, req, env).1 == Refused(ErrorCode.LeaseExpired) <==>
      forall b :: !StandsFor(s, req.token, env.now, b)
  {
    if b: Id :| StandsFor(s, req.token, env.now, b) {
      RenewalAnswers(s, req, env, b);
    } else {
      assert !StandsFor(s, req.token, env.now, if req.token in s.tokens then s.tokens[req.token].binding else 0);
      assert !StandsFor(s, req.token, env.now, if req.token in s.leases then s.leases[req.token].binding else 0);
    }
  }

  /** What a renewal leaves: the cache entry of the new token, for a day and three of grace, if it is granted; else
      nothing. */
  lemma RenewalWrites(s: State, req: ValidateRequest, env: CallEnv, b: Id)
    requires StandsFor(s, req.token, env.now, b)
    ensures var (s', reply) := Validate(s, req, env);
      var end, grace := env.now + 86_400 * SECOND, env.now + 345_600 * SECOND;
      if reply.Refused? then s' == s
      else
        && b in s.bindings && s.bindings[b].license in s.licenses
        && var row := s.bindings[b];
           var lic := s.licenses[row.license];
           && reply == Granted(env.newToken,
                               LeasePayload(lic.publicId, row.fingerprint, lic.activeUntil, end, grace, env.now))
           && s' == s.(tokens := s.tokens[env.newToken := CachedLease(row.license, b, grace)],
                       uuids := s.uuids + {env.newToken})
  {
  }
}
