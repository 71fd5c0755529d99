/** What issuing, revoking, deleting, the jobs and the list generation answer and write, in columns. */
module AuthorityRules {
  import opened Basics
  import opened Tables
  import opened EdgeProtocol
  import opened IssuanceProtocol
  import opened CrlProtocol
  import opened Server
  import opened Revocations
  import opened CrlLedger
  import EdgeRules
  import Jobs = WorkerProtocol
  import Offline = OfflineProtocol
  import Sdks = SdkProtocol
  import Agreement = SdkAgreement

  // ----- issuing -----

  predicate HexText(t: string) {
    |t| == 64 && forall i :: 0 <= i < |t| ==> t[i] in "0123456789abcdef"
  }

  lemma HexDigits(c: char)
    ensures LowerHex(c) <==> c in "0123456789abcdef"
  {
    var digits := "0123456789abcdef";
    if '0' <= c <= '9' {
      assert digits[c as int - '0' as int] == c;
    } else if 'a' <= c <= 'f' {
      assert digits[c as int - 'a' as int + 10] == c;
    }
  }

  /** A deployment id is 64 lower-case hexadecimal digits; the pattern lets one newline follow. */
  lemma DeploymentIdExactly(s: string)
    ensures IsFingerprint(s) <==> exists t :: HexText(t) && (s == t || s == t + "\n")
  {
    forall c ensures LowerHex(c) <==> c in "0123456789abcdef" {
      HexDigits(c);
    }
    if IsFingerprint(s) {
      assert HexText(s[..64]);
      assert s == s[..64] || s == s[..64] + "\n";
    }
  }

  /** What customer, product and key allow. */
  predicate OrderAnswer(req: IssueRequest, code: AdminCode) {
    && (code == NotFound <==> !req.resolved)
    && (code == ProductInactive <==> req.resolved && !req.productActive)
    && (code == AdminCode.KeyNotFound <==> req.resolved && req.productActive && !req.masterReady)
    && (code == Done <==> req.resolved && req.productActive && req.masterReady)
  }

  /** The licences are those before and one in row `l`, and nothing else changed but the identifiers in use. */
  ghost predicate AddsLicense(s: State, s': State, l: Id, ids: set<Id>) {
    && l in s'.licenses && s'.licenses == s.licenses[l := s'.licenses[l]]
    && s' == s.(licenses := s'.licenses, uuids := s.uuids + ids)
  }

  predicate Untouched(lic: License) {
    lic.activatedAt == None && lic.revokedAt == None && lic.deletedAt == None
  }

  /** An online order: an issued licence with the code, the end and the seats ordered, none of them taken. */
  lemma OnlineOrder(s: State, req: IssueRequest)
    ensures var (s', code) := IssueOnline(s, req);
      && OrderAnswer(req, code)
      && if code != Done then s' == s
         else
           && AddsLicense(s, s', req.row, {req.row, req.publicId, req.code})
           && var lic := s'.licenses[req.row];
              && lic.publicId == req.publicId && lic.mode == Online && lic.onlineCode == Some(req.code)
              && lic.boundFingerprint == None && lic.activeUntil == req.activeUntil
              && lic.seatLimit == req.seatLimit && lic.seatUsed == 0 && lic.status == LicenseStatus.Issued
              && Untouched(lic)
  {
  }

  /** An offline order: an active licence of one seat, taken, bound to the deployment id ordered and with its end. */
  lemma OfflineOrder(s: State, req: IssueRequest)
    ensures var (s', code) := IssueOffline(s, req);
      && (if !IsFingerprint(req.deploymentId) then code == DeploymentIdInvalid else OrderAnswer(req, code))
      && if code != Done then s' == s
         else
           && AddsLicense(s, s', req.row, {req.row, req.publicId})
           && var lic := s'.licenses[req.row];
              && lic.publicId == req.publicId && lic.mode == Mode.Offline && lic.onlineCode == None
              && lic.boundFingerprint == Some(req.deploymentId) && lic.activeUntil == req.activeUntil
              && lic.seatLimit == 1 && lic.seatUsed == 1 && lic.status == LicenseStatus.Active
              && Untouched(lic)
  {
  }

  predicate BeforeEnd(end: Option<Time>, now: Time) {
    end.Some? ==> now < end.value
  }

  /** The code ordered is admitted exactly until the end ordered. */
  lemma OnlineOrderAdmits(s: State, req: IssueRequest, now: Time)
    requires TablesOk(s) && LedgerOk(s) && FreshIssue(s, req) && IssueOnline(s, req).1 == Done
    ensures Admit(IssueOnline(s, req).0, req.code, now) == Admitted(req.row) <==> BeforeEnd(req.activeUntil, now)
    ensures Admit(IssueOnline(s, req).0, req.code, now) in {Admitted(req.row), Barred(ErrorCode.LicenseExpired)}
  {
    var s' := IssueOnline(s, req).0;
    TablesOkIssueOnline(s, req);
    LedgerAfterIssue(s, req.row, OnlineLicense(req));
    EdgeRules.AdmittedExactly(s', req.code, now);
    assert EdgeRules.Holds(s', req.row, req.code);
    forall r | r in s'.revocations ensures s'.revocations[r].license != Some(req.row) {
      assert Describes(s.licenses, s.revocations[r]);
    }
    if !BeforeEnd(req.activeUntil, now) {
      assert EdgeRules.Lapsed(s', req.row, now);
    } else {
      assert EdgeRules.InForce(s', req.row, now);
    }
  }

  /** The signed payload unlocks, in each of the three languages, exactly the host ordered, exactly until the end
      ordered, and not once the list names it. */
  lemma OfflineOrderUnlocks(s: State, req: IssueRequest, c: Offline.Call)
    requires IssueOffline(s, req).1 == Done
    requires c.parsed == Offline.Signed(Agreement.PayloadOf(IssueOffline(s, req).0.licenses[req.row])) && !c.stateful
    ensures Offline.Unlocked(Offline.VerifyOffline(Offline.FRESH, c).1) <==>
      c.fingerprint == req.deploymentId && BeforeEnd(req.activeUntil, c.now) && req.publicId !in c.revoked
    ensures Offline.Unlocked(Sdks.GoVerify(Sdks.GoMemory(None, 0), c).1)
         == Offline.Unlocked(Sdks.NodeVerify(Offline.FRESH, c).1)
         == Offline.Unlocked(Offline.VerifyOffline(Offline.FRESH, c).1)
  {
    Agreement.IssuedPayloadsAgree(req, c);
  }

  // ----- revoking and deleting -----

  /** A licence that is there is revoked now and gets a revocation row with its public identifier and mode, unless it is
      revoked, or has such a row, already; nothing else is written. */
  lemma RevokeWrites(s: State, l: Id, now: Time, row: Id)
    ensures var (s', code) := Revoke(s, l, now, row);
      if l !in s.licenses || s.licenses[l].deletedAt != None then (s', code) == (s, NotFound)
      else if s.licenses[l].status == LicenseStatus.Revoked then (s', code) == (s, Done)
      else
        var lic := s.licenses[l];
        && code == Done
        && s'.licenses == s.licenses[l := lic.(status := LicenseStatus.Revoked, revokedAt := Some(now))]
        && (if EdgeRules.HasRevocation(s, l) then s'.revocations == s.revocations && s'.uuids == s.uuids
            else
              && s'.revocations == s.revocations[row := Revocation(Some(l), Some(lic.publicId), Some(lic.mode), None)]
              && s'.uuids == s.uuids + {row})
        && s' == s.(licenses := s'.licenses, revocations := s'.revocations, uuids := s'.uuids)
  {
  }

  lemma {:induction false} AlertsKept(alerts: seq<CloneAlert>, l: Id, a: CloneAlert)
    ensures multiset(AlertsExcept(alerts, l))[a] == if a.license == l then 0 else multiset(alerts)[a]
  {
    if alerts != [] {
      var init, last := alerts[..|alerts| - 1], alerts[|alerts| - 1];
      AlertsKept(init, l, a);
      assert alerts == init + [last];
    }
  }

  /** Of bindings, leases and alerts exactly those of the licence go; all revocation rows stay as they are, but for the
      reference to the licence. */
  lemma DeleteWrites(s: State, l: Id)
    ensures var (s', code) := Delete(s, l);
      if l !in s.licenses || s.licenses[l].deletedAt != None then (s', code) == (s, NotFound)
      else
        && code == Done && s'.licenses == s.licenses - {l}
        && (forall b :: b in s'.bindings <==> b in s.bindings && s.bindings[b].license != l)
        && (forall b :: b in s'.bindings ==> s'.bindings[b] == s.bindings[b])
        && (forall t :: t in s'.leases <==> t in s.leases && s.leases[t].license != l)
        && (forall t :: t in s'.leases ==> s'.leases[t] == s.leases[t])
        && (forall a :: multiset(s'.alerts)[a] == if a.license == l then 0 else multiset(s.alerts)[a])
        && s'.revocations.Keys == s.revocations.Keys
        && (forall r :: r in s.revocations ==>
              s'.revocations[r] == if s.revocations[r].license == Some(l) then s.revocations[r].(license := None)
                                   else s.revocations[r])
        && s'.tokens == s.tokens && s'.bundles == s.bundles && s'.uuids == s.uuids
  {
    forall a
      ensures multiset(AlertsExcept(s.alerts, l))[a] == if a.license == l then 0 else multiset(s.alerts)[a]
    {
      AlertsKept(s.alerts, l, a);
    }
  }

  // ----- the jobs -----

  /** An active, undeleted row that last gave a sign of life more than 600 seconds ago. */
  predicate Silent(row: Binding, now: Time) {
    && row.status == BindingStatus.Active && row.deletedAt == None
    && row.lastHeartbeat.Some? && now - row.lastHeartbeat.value > 600 * SECOND
  }

  /** The reaper: silent rows die, and nothing else of any row changes. */
  lemma ReapedExactly(s: State, now: Time, b: Id)
    requires b in s.bindings
    ensures var s' := Jobs.Reap(s, now);
      && s'.bindings.Keys == s.bindings.Keys
      && s'.bindings[b] == (if Silent(s.bindings[b], now) then s.bindings[b].(status := Dead) else s.bindings[b])
      && s'.licenses.Keys == s.licenses.Keys
      && s' == s.(bindings := s'.bindings, licenses := s'.licenses)
    ensures forall l :: l in s.licenses ==>
      Jobs.Reap(s, now).licenses[l].(seatUsed := 0) == s.licenses[l].(seatUsed := 0)
  {
  }

  /** The sweep: a licence past its end becomes expired unless it is expired, revoked or locked. */
  lemma SweptExactly(s: State, now: Time, l: Id)
    requires l in s.licenses
    ensures var s', lic := Jobs.Sweep(s, now), s.licenses[l];
      && s'.licenses.Keys == s.licenses.Keys && s' == s.(licenses := s'.licenses)
      && s'.licenses[l] ==
         if lic.activeUntil.Some? && lic.activeUntil.value < now
            && (lic.status.Issued? || lic.status.Active? || lic.status.Expiring?)
         then lic.(status := LicenseStatus.Expired) else lic
  {
  }

  // ----- the list -----

  /** The highest version so far, zero if there is none. */
  ghost predicate Highest(v: int, bundles: seq<CrlBundle>) {
    && (if bundles == [] then v == 0 else exists i :: 0 <= i < |bundles| && bundles[i].version == v)
    && forall i :: 0 <= i < |bundles| ==> bundles[i].version <= v
  }

  lemma {:induction false} LatestIsHighest(bundles: seq<CrlBundle>)
    ensures bundles != [] ==> LatestVersion(bundles).Some? && Highest(LatestVersion(bundles).value, bundles)
    ensures bundles == [] ==> LatestVersion(bundles).None?
  {
    if bundles != [] {
      var init, last := bundles[..|bundles| - 1], |bundles| - 1;
      LatestIsHighest(init);
      assert bundles[last].version == LatestVersion(bundles).value
          || (init != [] && Highest(LatestVersion(bundles).value, init));
      if init != [] && LatestVersion(init) == LatestVersion(bundles) {
        var i :| 0 <= i < |init| && init[i].version == LatestVersion(init).value;
        assert bundles[i].version == LatestVersion(bundles).value;
      }
    }
  }

  predicate OfOfflineLicense(r: Revocation) {
    r.mode == Some(Mode.Offline) && r.publicId.Some?
  }

  /** The next version, the time, and the public identifiers of all offline revocations in ascending order. */
  ghost predicate IsNextList(bundle: CrlBundle, s: State, now: Time) {
    && bundle.generatedAt == now && Highest(bundle.version - 1, s.bundles) && StrictlyAscending(bundle.revoked)
    && forall p :: p in bundle.revoked <==>
         exists r :: r in s.revocations && OfOfflineLicense(s.revocations[r]) && s.revocations[r].publicId == Some(p)
  }

  /** Offline revocations without a stamp get this one; nothing else changes. */
  ghost predicate StampsNew(before: map<Id, Revocation>, after: map<Id, Revocation>, version: int) {
    && after.Keys == before.Keys
    && forall r :: r in before ==>
         after[r] == if OfOfflineLicense(before[r]) && before[r].crlVersion == None
                     then before[r].(crlVersion := Some(version)) else before[r]
  }

  /** A new list: the next version, now, with the public identifiers of all offline revocations in ascending order; and
      each of those rows that has no stamp gets the version. */
  lemma ListWrites(s: State, now: Time, scan: seq<Id>)
    requires RevocationsOk(s.licenses, s.revocations) && Listing(scan, s.revocations.Keys)
    ensures var s' := Generate(s, now, scan);
      && |s'.bundles| == |s.bundles| + 1 && s.bundles == s'.bundles[..|s.bundles|]
      && IsNextList(s'.bundles[|s.bundles|], s, now)
      && StampsNew(s.revocations, s'.revocations, s'.bundles[|s.bundles|].version)
      && s' == s.(bundles := s'.bundles, revocations := s'.revocations)
  {
    LatestIsHighest(s.bundles);
    PublicIdsExact(s.revocations, scan);
    SortedStrictly(PublicIds(s.revocations, scan));
  }
}
