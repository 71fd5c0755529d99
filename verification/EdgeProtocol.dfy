/**
 * Online activation and lease renewal (forge-edge), each call as a function from the committed
 * state to the next one and the reply.
 */
module EdgeProtocol {
  import opened Basics
  import opened Tables

  const LEASE_TTL: int := 24 * 3600 * SECOND
  const LEASE_GRACE: int := 72 * 3600 * SECOND
  const FUZZY_MIN: nat := 2

  datatype ErrorCode =
    | ResourceNotFound | LicenseRevoked | LicenseExpired | BindingMismatch | LeaseExpired
    | SeatExceeded | SeatLockBusy | KeyNotFound | RateLimited | InternalError

  datatype ActivateRequest = ActivateRequest(
    onlineCode: Id, fingerprint: string, installId: Option<string>,
    signals: Option<map<string, string>>, deploymentUid: Option<string>)

  datatype ValidateRequest = ValidateRequest(token: Id, fingerprint: string, installId: Option<string>)

  /** What a call takes from its surroundings: the clock, the order in which the database scans
      `fingerprint_bindings`, whether the seat lock and a signing key can be had, fresh identifiers. */
  datatype CallEnv = CallEnv(now: Time, scan: seq<Id>, lockFree: bool, keyReady: bool, newBinding: Id, newToken: Id)

  /** The signed content of a lease; `license` is the public identifier. */
  datatype LeasePayload = LeasePayload(
    license: Id, fingerprint: string, activeUntil: Option<Time>, expiresAt: Time, graceUntil: Time, issuedAt: Time)

  datatype Reply = Granted(token: Id, lease: LeasePayload) | Refused(code: ErrorCode)

  /** Truth of an optional string: present and not empty. */
  predicate Filled(o: Option<string>) {
    o.Some? && o.value != ""
  }

  predicate FilledMap(o: Option<map<string, string>>) {
    o.Some? && o.value != map[]
  }

  // ----- what a licence must satisfy -----

  ghost function FindByCode(licenses: map<Id, License>, code: Id): Option<Id> {
    if exists l :: HasCode(licenses, l, code) then
      var l :| HasCode(licenses, l, code);
      Some(l)
    else None
  }

  function AssertValidWindow(lic: License, now: Time): Option<ErrorCode> {
    if lic.deletedAt.Some? then Some(LicenseRevoked)
    else if lic.status == Revoked then Some(LicenseRevoked)
    else if lic.activeUntil.Some? && now >= lic.activeUntil.value then Some(LicenseExpired)
    else None
  }

  // ----- identity matching -----

  datatype Rule = ByUid | ByFingerprint | BySignals

  function Agreeing(mine: map<string, string>, stored: map<string, string>): set<string> {
    AgreeingIn(mine.Keys, mine, stored)
  }

  function AgreeingIn(keys: set<string>, mine: map<string, string>, stored: map<string, string>): set<string> {
    set k | k in keys && k in mine && k in stored && mine[k] == stored[k]
  }

  lemma AgreeingStep(keys: set<string>, k: string, mine: map<string, string>, stored: map<string, string>)
    requires k !in keys && k in mine
    ensures |AgreeingIn(keys + {k}, mine, stored)|
         == |AgreeingIn(keys, mine, stored)| + if k in stored && mine[k] == stored[k] then 1 else 0
  {
    if k in stored && mine[k] == stored[k] {
      assert AgreeingIn(keys + {k}, mine, stored) == AgreeingIn(keys, mine, stored) + {k};
    } else {
      assert AgreeingIn(keys + {k}, mine, stored) == AgreeingIn(keys, mine, stored);
    }
  }

  predicate Fits(b: Binding, req: ActivateRequest, rule: Rule) {
    match rule
    case ByUid => b.deploymentUid == req.deploymentUid
    case ByFingerprint => b.deploymentUid.None? && b.fingerprint == req.fingerprint
    case BySignals =>
      && b.deploymentUid.None? && FilledMap(b.signals) && req.signals.Some?
      && |Agreeing(req.signals.value, b.signals.value)| >= FUZZY_MIN
  }

  function FirstFit(rows: seq<Id>, bindings: map<Id, Binding>, req: ActivateRequest, rule: Rule): (r: Option<Id>)
    ensures r.Some? ==> r.value in rows && r.value in bindings && Fits(bindings[r.value], req, rule)
    ensures r.None? ==> forall b :: b in rows && b in bindings ==> !Fits(bindings[b], req, rule)
  {
    if rows == [] then None
    else if rows[0] in bindings && Fits(bindings[rows[0]], req, rule) then Some(rows[0])
    else FirstFit(rows[1..], bindings, req, rule)
  }

  /** Deployment uid first; then the exact fingerprint; then at least two agreeing signals. */
  function MatchBinding(rows: seq<Id>, bindings: map<Id, Binding>, req: ActivateRequest): (r: Option<Id>)
    ensures r.Some? ==> r.value in rows && r.value in bindings
  {
    if Filled(req.deploymentUid) then FirstFit(rows, bindings, req, ByUid)
    else
      var exact := FirstFit(rows, bindings, req, ByFingerprint);
      if exact.Some? then exact
      else if FilledMap(req.signals) then FirstFit(rows, bindings, req, BySignals)
      else None
  }

  /** The active bindings of a licence, in scan order. */
  function ActiveRows(bindings: map<Id, Binding>, l: Id, scan: seq<Id>): seq<Id> {
    if scan == [] then []
    else
      var rest := ActiveRows(bindings, l, scan[..|scan| - 1]);
      var last := scan[|scan| - 1];
      if last in ActiveOf(bindings, l) then rest + [last] else rest
  }

  lemma {:induction false} ActiveRowsList(bindings: map<Id, Binding>, l: Id, scan: seq<Id>)
    requires forall i, j :: 0 <= i < j < |scan| ==> scan[i] != scan[j]
    ensures var rows := ActiveRows(bindings, l, scan);
            && (forall b :: b in rows <==> b in scan && b in ActiveOf(bindings, l))
            && (forall i, j :: 0 <= i < j < |rows| ==> rows[i] != rows[j])
  {
    if scan != [] {
      var init := scan[..|scan| - 1];
      ActiveRowsList(bindings, l, init);
      assert forall b :: b in scan <==> b in init || b == scan[|scan| - 1];
      assert scan[|scan| - 1] !in init;
    }
  }

  /** However the table is scanned, the query returns each active binding of the licence once. */
  lemma ActiveRowsListing(bindings: map<Id, Binding>, l: Id, scan: seq<Id>)
    requires Listing(scan, bindings.Keys)
    ensures Listing(ActiveRows(bindings, l, scan), ActiveOf(bindings, l))
    ensures |ActiveRows(bindings, l, scan)| == |ActiveOf(bindings, l)|
  {
    ActiveRowsList(bindings, l, scan);
    ListingSize(ActiveRows(bindings, l, scan), ActiveOf(bindings, l));
  }

  // ----- the critical section -----

  function Refreshed(b: Binding, req: ActivateRequest, now: Time): Binding {
    b.(installId := if Filled(b.installId) then b.installId else req.installId,
       signals := if FilledMap(req.signals) then req.signals else b.signals,
       deploymentUid := if Filled(req.deploymentUid) then req.deploymentUid else b.deploymentUid,
       fingerprint := req.fingerprint,
       lastHeartbeat := Some(now))
  }

  function NewBinding(l: Id, req: ActivateRequest, now: Time): Binding {
    Binding(l, req.fingerprint, BindingStatus.Active, req.installId, req.signals, req.deploymentUid, Some(now), None,
      None)
  }

  predicate InstallMismatch(b: Binding, installId: Option<string>) {
    Filled(b.installId) && Filled(installId) && b.installId != installId
  }

  /** The licence row after a seat was taken on it as it was `loaded`: the columns set are written, the others stay. */
  function Occupied(lic: License, loaded: License, now: Time): License {
    var seated := lic.(seatUsed := loaded.seatUsed + 1);
    if loaded.status == Issued then seated.(status := LicenseStatus.Active, activatedAt := Some(now)) else seated
  }

  datatype Seating = Seated(state: State, binding: Id) | Rejected(state: State, code: ErrorCode)

  /** The section run under the seat lock.  A collision on the unique index aborts the transaction. */
  function TakeSeat(s: State, l: Id, loaded: License, req: ActivateRequest, env: CallEnv): (seating: Seating)
    requires l in s.licenses
    ensures seating.Seated? ==> seating.binding in seating.state.bindings && l in seating.state.licenses
  {
    var rows := ActiveRows(s.bindings, l, env.scan);
    var existing := MatchBinding(rows, s.bindings, req);
    if existing.Some? then
      var b := existing.value;
      if InstallMismatch(s.bindings[b], req.installId) then Rejected(s, BindingMismatch)
      else if Collides(s.bindings, b, l, req.fingerprint) then Rejected(s, InternalError)
      else Seated(s.(bindings := s.bindings[b := Refreshed(s.bindings[b], req, env.now)]), b)
    else if |rows| >= loaded.seatLimit then
      Rejected(s.(alerts := s.alerts + [CloneAlert(l, |rows| + 1, loaded.seatLimit)]), SeatExceeded)
    else if Collides(s.bindings, env.newBinding, l, req.fingerprint) then Rejected(s, InternalError)
    else
      Seated(s.(bindings := s.bindings[env.newBinding := NewBinding(l, req, env.now)],
                licenses := s.licenses[l := Occupied(s.licenses[l], loaded, env.now)],
                uuids := s.uuids + {env.newBinding}),
             env.newBinding)
  }

  function LeaseFor(lic: License, b: Binding, now: Time): LeasePayload {
    LeasePayload(lic.publicId, b.fingerprint, lic.activeUntil, now + LEASE_TTL, now + LEASE_TTL + LEASE_GRACE, now)
  }

  /** The cache entry, which is written whether or not the database session commits. */
  function Cached(s: State, l: Id, b: Id, env: CallEnv): State {
    s.(tokens := s.tokens[env.newToken := CachedLease(l, b, env.now + LEASE_TTL + LEASE_GRACE)],
       uuids := s.uuids + {env.newToken})
  }

  /** Cache entry, lease row and binding columns, as activate commits them. */
  function Minted(s: State, l: Id, b: Id, env: CallEnv): State
    requires b in s.bindings
  {
    Cached(s, l, b, env).(
      leases := s.leases[env.newToken := Lease(l, b, env.now + LEASE_TTL, env.now + LEASE_TTL + LEASE_GRACE)],
      bindings := s.bindings[b := s.bindings[b].(leaseExpiresAt := Some(env.now + LEASE_TTL))])
  }

  /** What the checks before the lock give: the licence to take a seat of, or a refusal. */
  datatype Admission = Admitted(license: Id) | Barred(code: ErrorCode)

  ghost function Admit(s: State, code: Id, now: Time): (a: Admission)
    ensures a.Admitted? ==> a.license in s.licenses
  {
    var found := FindByCode(s.licenses, code);
    if found.None? || s.licenses[found.value].mode != Online then Barred(ResourceNotFound)
    else
      var window := AssertValidWindow(s.licenses[found.value], now);
      if window.Some? then Barred(window.value)
      else if IsRevoked(s.revocations, found.value) then Barred(LicenseRevoked)
      else Admitted(found.value)
  }

  /** The rest of an activation of licence `l`, whose row was `loaded` for the checks: lock, section, lease, commit.
      A licence deleted since then fails the foreign key or the update. */
  function Enter(s: State, l: Id, loaded: License, req: ActivateRequest, env: CallEnv): (State, Reply) {
    if !env.lockFree then (s, Refused(SeatLockBusy))
    else if l !in s.licenses then (s, Refused(InternalError))
    else
      match TakeSeat(s, l, loaded, req, env)
      case Rejected(s', code) => (s', Refused(code))
      case Seated(s', b) =>
        if !env.keyReady then (s, Refused(KeyNotFound))
        else (Minted(s', l, b, env), Granted(env.newToken, LeaseFor(loaded, s'.bindings[b], env.now)))
  }

  /** An activation as one step: nothing happens between its checks and the rest. */
  ghost function Activate(s: State, req: ActivateRequest, env: CallEnv): (State, Reply) {
    match Admit(s, req.onlineCode, env.now)
    case Barred(code) => (s, Refused(code))
    case Admitted(l) => Enter(s, l, s.licenses[l], req, env)
  }

  // ----- renewal -----

  /** The binding a token stands for: from the cache while the key lives, else from the lease row. */
  function BindingOfToken(s: State, token: Id, now: Time): Option<Id> {
    if token in s.tokens && now < s.tokens[token].deadline then Some(s.tokens[token].binding)
    else if token in s.leases then Some(s.leases[token].binding)
    else None
  }

  /** What the checks of a renewal give: its binding, or a refusal. */
  datatype Renewal = Renewable(binding: Id) | Unrenewable(code: ErrorCode)

  function CheckRenewal(s: State, req: ValidateRequest, now: Time): (r: Renewal)
    ensures r.Renewable? ==> r.binding in s.bindings && s.bindings[r.binding].license in s.licenses
  {
    var bound := BindingOfToken(s, req.token, now);
    if bound.None? then Unrenewable(LeaseExpired)
    else if bound.value !in s.bindings || s.bindings[bound.value].status != BindingStatus.Active then
      Unrenewable(BindingMismatch)
    else
      var b := s.bindings[bound.value];
      if b.deploymentUid.None? && b.fingerprint != req.fingerprint then Unrenewable(BindingMismatch)
      else if InstallMismatch(b, req.installId) then Unrenewable(BindingMismatch)
      else if b.license !in s.licenses then Unrenewable(LicenseRevoked)
      else
        var window := AssertValidWindow(s.licenses[b.license], now);
        if window.Some? then Unrenewable(window.value)
        else if IsRevoked(s.revocations, b.license) then Unrenewable(LicenseRevoked)
        else Renewable(bound.value)
  }

  /** The rest of a renewal, on the rows as loaded for its checks.  Renewal never commits: of its writes only the cache
      entry of the new token lasts. */
  function Renew(s: State, b: Id, row: Binding, lic: License, env: CallEnv): (State, Reply) {
    if !env.keyReady then (s, Refused(KeyNotFound))
    else (Cached(s, row.license, b, env), Granted(env.newToken, LeaseFor(lic, row, env.now)))
  }

  function Validate(s: State, req: ValidateRequest, env: CallEnv): (State, Reply) {
    match CheckRenewal(s, req, env.now)
    case Unrenewable(code) => (s, Refused(code))
    case Renewable(b) => Renew(s, b, s.bindings[b], s.licenses[s.bindings[b].license], env)
  }
}
