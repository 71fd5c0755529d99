/** The published lists over whole runs: versions, contents and stamps agree. */
module CrlLedger {
  import opened Basics
  import opened Tables
  import opened EdgeProtocol
  import opened IssuanceProtocol
  import opened CrlProtocol
  import opened Server
  import opened Revocations
  import Jobs = WorkerProtocol

  /** Versions are 1, 2, ..., n in order of publication, and each list ascends without repetition. */
  ghost predicate Numbered(bundles: seq<CrlBundle>) {
    forall i :: 0 <= i < |bundles| ==> bundles[i].version == i + 1 && StrictlyAscending(bundles[i].revoked)
  }

  /** A publishable revocation is in a list exactly from the version stamped on it. */
  ghost predicate StampExact(r: Revocation, bundles: seq<CrlBundle>) {
    && (r.crlVersion.Some? ==> Publishable(r) && 1 <= r.crlVersion.value <= |bundles|)
    && (Publishable(r) ==> forall i :: 0 <= i < |bundles| ==>
          (r.publicId.value in bundles[i].revoked <==> r.crlVersion.Some? && r.crlVersion.value <= bundles[i].version))
  }

  ghost predicate RevokedOffline(revocations: map<Id, Revocation>, p: Id) {
    exists r :: r in revocations && Publishable(revocations[r]) && revocations[r].publicId == Some(p)
  }

  /** Nothing is listed that was not revoked. */
  ghost predicate Accounted(revocations: map<Id, Revocation>, bundles: seq<CrlBundle>) {
    forall i, p :: 0 <= i < |bundles| && p in bundles[i].revoked ==> RevokedOffline(revocations, p)
  }

  ghost predicate CrlOk(s: State) {
    && Numbered(s.bundles)
    && (forall r :: r in s.revocations ==> StampExact(s.revocations[r], s.bundles))
    && Accounted(s.revocations, s.bundles)
  }

  lemma {:induction false} LatestIsLast(bundles: seq<CrlBundle>)
    requires Numbered(bundles)
    ensures NextVersion(bundles) == |bundles| + 1
  {
    if bundles != [] {
      LatestIsLast(bundles[..|bundles| - 1]);
    }
  }

  ghost predicate Distinct(s: seq<Id>) {
    forall i, j :: 0 <= i < j < |s| ==> s[i] != s[j]
  }

  lemma {:induction false} DistinctCounts(s: seq<Id>, x: Id)
    requires Distinct(s)
    ensures multiset(s)[x] <= 1
  {
    if s != [] {
      var init := s[..|s| - 1];
      assert s == init + [s[|s| - 1]];
      DistinctCounts(init, x);
      if x == s[|s| - 1] {
        assert x !in init;
      }
    }
  }

  lemma TwiceCounts(s: seq<Id>, i: nat, j: nat)
    requires i < j < |s| && s[i] == s[j]
    ensures multiset(s)[s[i]] >= 2
  {
    assert s == s[..j] + [s[j]] + s[j + 1..];
    assert s[i] in s[..j];
  }

  /** Sorting a list without repetition gives the same elements, strictly ascending. */
  lemma SortedStrictly(s: seq<Id>)
    requires Distinct(s)
    ensures StrictlyAscending(Sorted(s))
    ensures forall x :: x in Sorted(s) <==> x in s
  {
    var t := Sorted(s);
    SortedSorts(s);
    forall i, j | 0 <= i < j < |t| ensures t[i] < t[j] {
      if t[i] == t[j] {
        TwiceCounts(t, i, j);
        DistinctCounts(s, t[i]);
      }
    }
    forall x ensures x in t <==> x in s {
      assert x in multiset(t) <==> x in multiset(s);
    }
  }

  /** The query returns the public identifiers of the publishable revocations, each once. */
  lemma {:induction false} PublicIdsExact(revocations: map<Id, Revocation>, scan: seq<Id>)
    requires forall i, j :: 0 <= i < j < |scan| ==> scan[i] != scan[j]
    requires forall r, q :: r in revocations && q in revocations && r != q ==>
      revocations[r].publicId != revocations[q].publicId
    ensures var ids := PublicIds(revocations, scan);
      && Distinct(ids)
      && forall p :: p in ids <==> exists r ::
        r in scan && r in revocations && Publishable(revocations[r]) && revocations[r].publicId == Some(p)
  {
    var ids := PublicIds(revocations, scan);
    if scan != [] {
      var init, last := scan[..|scan| - 1], scan[|scan| - 1];
      PublicIdsExact(revocations, init);
      assert forall r :: r in scan <==> r in init || r == last;
      assert last !in init;
      var before := PublicIds(revocations, init);
      if last in revocations && Publishable(revocations[last]) {
        assert revocations[last].publicId.value !in before;
        assert forall p :: p in ids <==> p in before || p == revocations[last].publicId.value;
      }
    }
  }

  lemma CrlAfterGenerate(s: State, now: Time, scan: seq<Id>)
    requires RevocationsOk(s.licenses, s.revocations) && CrlOk(s) && Listing(scan, s.revocations.Keys)
    ensures CrlOk(Generate(s, now, scan))
  {
    var s' := Generate(s, now, scan);
    var ids := PublicIds(s.revocations, scan);
    PublicIdsExact(s.revocations, scan);
    SortedStrictly(ids);
    LatestIsLast(s.bundles);
    assert Numbered(s'.bundles);
    forall r | r in s'.revocations ensures StampExact(s'.revocations[r], s'.bundles) {
      StampAfterGenerate(s, now, scan, r);
    }
    AccountedAfterGenerate(s, now, scan);
  }

  lemma AccountedAfterGenerate(s: State, now: Time, scan: seq<Id>)
    requires Accounted(s.revocations, s.bundles)
    requires forall p :: p in Sorted(PublicIds(s.revocations, scan)) ==> RevokedOffline(s.revocations, p)
    ensures Accounted(Generate(s, now, scan).revocations, Generate(s, now, scan).bundles)
  {
    var s' := Generate(s, now, scan);
    forall i, p | 0 <= i < |s'.bundles| && p in s'.bundles[i].revoked
      ensures RevokedOffline(s'.revocations, p)
    {
      assert i < |s.bundles| ==> s'.bundles[i] == s.bundles[i];
      assert RevokedOffline(s.revocations, p);
      var r :| r in s.revocations && Publishable(s.revocations[r]) && s.revocations[r].publicId == Some(p);
      assert s'.revocations[r].publicId == Some(p);
    }
  }

  lemma StampAfterGenerate(s: State, now: Time, scan: seq<Id>, r: Id)
    requires CrlOk(s) && r in s.revocations
    requires NextVersion(s.bundles) == |s.bundles| + 1
    requires Publishable(s.revocations[r]) ==> s.revocations[r].publicId.value in Sorted(PublicIds(s.revocations, scan))
    ensures StampExact(Generate(s, now, scan).revocations[r], Generate(s, now, scan).bundles)
  {
    assert StampExact(s.revocations[r], s.bundles);
  }

  /** A licence without a revocation row has none under its public identifier. */
  lemma NotPublished(s: State, l: Id)
    requires TablesOk(s) && LedgerOk(s) && l in s.licenses && !IsRevoked(s.revocations, l)
    ensures !RevokedOffline(s.revocations, s.licenses[l].publicId)
  {
    forall r | r in s.revocations && Publishable(s.revocations[r])
      ensures s.revocations[r].publicId != Some(s.licenses[l].publicId)
    {
      assert Describes(s.licenses, s.revocations[r]);
    }
  }

  lemma CrlAfterRevoke(s: State, l: Id, now: Time, row: Id)
    requires TablesOk(s) && LedgerOk(s) && CrlOk(s) && row !in s.uuids
    ensures CrlOk(Revoke(s, l, now, row).0)
  {
    var s' := Revoke(s, l, now, row).0;
    if s'.revocations != s.revocations {
      var lic := s.licenses[l];
      NotPublished(s, l);
      assert !RevokedOffline(s.revocations, lic.publicId);
      assert StampExact(s'.revocations[row], s.bundles);
      AccountedStill(s, s');
    }
  }

  /** Rows are only added, or change in nothing but the reference to their licence. */
  lemma AccountedStill(s: State, s': State)
    requires CrlOk(s) && s'.bundles == s.bundles
    requires forall r :: r in s.revocations ==>
      r in s'.revocations && s'.revocations[r] == s.revocations[r].(license := s'.revocations[r].license)
    ensures Accounted(s'.revocations, s'.bundles)
  {
    forall i, p | 0 <= i < |s.bundles| && p in s.bundles[i].revoked
      ensures RevokedOffline(s'.revocations, p)
    {
      assert RevokedOffline(s.revocations, p);
      var r :| r in s.revocations && Publishable(s.revocations[r]) && s.revocations[r].publicId == Some(p);
      assert s'.revocations[r].publicId == Some(p);
    }
  }

  lemma CrlAfterDelete(s: State, l: Id)
    requires CrlOk(s)
    ensures CrlOk(Delete(s, l).0)
  {
    var s' := Delete(s, l).0;
    AccountedStill(s, s');
    forall r | r in s'.revocations ensures StampExact(s'.revocations[r], s'.bundles) {
      assert StampExact(s.revocations[r], s.bundles);
    }
  }

  lemma CrlNext(s: State, step: Step)
    requires TablesOk(s) && LedgerOk(s) && CrlOk(s) && Enabled(s, step)
    ensures CrlOk(Next(s, step))
  {
    match step
    case StepActivate(req, env) => ActivateEffect(s, req, env);
    case StepValidate(req, env) => ValidateEffect(s, req, env);
    case StepRevoke(l, now, row) => CrlAfterRevoke(s, l, now, row);
    case StepDelete(l) => CrlAfterDelete(s, l);
    case StepGenerate(now, scan) => CrlAfterGenerate(s, now, scan);
    case _ =>
  }

  lemma {:induction false} CrlRun(steps: seq<Step>)
    requires ValidRun(INITIAL, steps)
    ensures CrlOk(Run(INITIAL, steps))
  {
    if steps != [] {
      var init := steps[..|steps| - 1];
      CrlRun(init);
      LedgerRun(init);
      CrlNext(Run(INITIAL, init), steps[|steps| - 1]);
    }
  }

  /** Stamp exactness in every reachable state, deleted licences included. */
  lemma StampIsFirstListing(steps: seq<Step>, r: Id, v: nat)
    requires ValidRun(INITIAL, steps) && r in Run(INITIAL, steps).revocations
    requires Run(INITIAL, steps).revocations[r].mode == Some(Offline) && 1 <= v <= |Run(INITIAL, steps).bundles|
    ensures var s := Run(INITIAL, steps);
      var rev := s.revocations[r];
      && s.bundles[v - 1].version == v && StrictlyAscending(s.bundles[v - 1].revoked)
      && rev.publicId.Some?
      && (rev.publicId.value in s.bundles[v - 1].revoked <==> rev.crlVersion.Some? && rev.crlVersion.value <= v)
  {
    CrlRun(steps);
    LedgerRun(steps);
    var s := Run(INITIAL, steps);
    assert Describes(s.licenses, s.revocations[r]);
    assert StampExact(s.revocations[r], s.bundles);
  }

  /** What a bundle lists, every later bundle lists. */
  lemma ListsAreNested(s: State, i: nat, j: nat, p: Id)
    requires CrlOk(s) && i <= j < |s.bundles| && p in s.bundles[i].revoked
    ensures p in s.bundles[j].revoked
  {
    assert RevokedOffline(s.revocations, p);
    var r :| r in s.revocations && Publishable(s.revocations[r]) && s.revocations[r].publicId == Some(p);
    assert StampExact(s.revocations[r], s.bundles);
  }

  /** Bundles are never withdrawn or changed. */
  lemma {:induction false} BundlesOnlyGrow(s: State, steps: seq<Step>)
    requires ValidRun(s, steps)
    ensures s.bundles <= Run(s, steps).bundles
  {
    if steps != [] {
      var init, step := steps[..|steps| - 1], steps[|steps| - 1];
      BundlesOnlyGrow(s, init);
      if !step.StepGenerate? {
        BundlesUntouched(Run(s, init), step);
      }
    }
  }

  /** The query names every publishable revocation, whether or not its licence still exists. */
  lemma QueryFinds(s: State, scan: seq<Id>, p: Id)
    requires RevocationsOk(s.licenses, s.revocations) && Listing(scan, s.revocations.Keys)
    requires RevokedOffline(s.revocations, p)
    ensures p in Sorted(PublicIds(s.revocations, scan))
  {
    PublicIdsExact(s.revocations, scan);
    SortedStrictly(PublicIds(s.revocations, scan));
    var r :| r in s.revocations && Publishable(s.revocations[r]) && s.revocations[r].publicId == Some(p);
    assert r in scan;
  }

  lemma NextListIsComplete(steps: seq<Step>, now: Time, scan: seq<Id>, r: Id)
    requires ValidRun(INITIAL, steps) && Listing(scan, Run(INITIAL, steps).revocations.Keys)
    requires r in Run(INITIAL, steps).revocations && Run(INITIAL, steps).revocations[r].mode == Some(Offline)
    ensures var s := Run(INITIAL, steps);
      s.revocations[r].publicId.Some? && s.revocations[r].publicId.value in Sorted(PublicIds(s.revocations, scan))
  {
    var s := Run(INITIAL, steps);
    LedgerRun(steps);
    assert Describes(s.licenses, s.revocations[r]);
    QueryFinds(s, scan, s.revocations[r].publicId.value);
  }

  // ----- from a revocation to every later list -----

  /** Licence `p` is revoked offline, and every bundle from index `from` on lists it. */
  ghost predicate PublishedFrom(s: State, from: nat, p: Id) {
    && RevokedOffline(s.revocations, p) && from <= |s.bundles|
    && forall i :: from <= i < |s.bundles| ==> p in s.bundles[i].revoked
  }

  /** What identifies a revocation stays, through deletion of the licence as well. */
  ghost predicate RevocationsKept(before: map<Id, Revocation>, after: map<Id, Revocation>) {
    forall r :: r in before ==> r in after && after[r].publicId == before[r].publicId && after[r].mode == before[r].mode
  }

  lemma KeptByWriters(s: State, step: Step)
    requires Enabled(s, step) && s.revocations.Keys <= s.uuids
    requires step.StepRevoke? || step.StepGenerate? || step.StepDelete?
    ensures RevocationsKept(s.revocations, Next(s, step).revocations)
  {
  }

  lemma RevocationsKeptNext(s: State, step: Step)
    requires Enabled(s, step) && s.revocations.Keys <= s.uuids
    ensures RevocationsKept(s.revocations, Next(s, step).revocations)
  {
    if step.StepRevoke? || step.StepGenerate? || step.StepDelete? {
      KeptByWriters(s, step);
    } else {
      RevocationsUntouched(s, step);
    }
  }

  lemma RevokedOfflineStays(before: map<Id, Revocation>, after: map<Id, Revocation>, p: Id)
    requires RevocationsKept(before, after) && RevokedOffline(before, p)
    ensures RevokedOffline(after, p)
  {
    var r :| r in before && Publishable(before[r]) && before[r].publicId == Some(p);
    assert r in after && Publishable(after[r]);
  }

  lemma BundlesUntouched(s: State, step: Step)
    requires Enabled(s, step) && !step.StepGenerate?
    ensures Next(s, step).bundles == s.bundles
  {
    match step
    case StepActivate(req, env) => ActivateEffect(s, req, env);
    case StepValidate(req, env) => ValidateEffect(s, req, env);
    case _ =>
  }

  lemma PublishedNext(s: State, step: Step, from: nat, p: Id)
    requires TablesOk(s) && LedgerOk(s) && Enabled(s, step) && PublishedFrom(s, from, p)
    ensures PublishedFrom(Next(s, step), from, p)
  {
    RevocationsKeptNext(s, step);
    RevokedOfflineStays(s.revocations, Next(s, step).revocations, p);
    if step.StepGenerate? {
      QueryFinds(s, step.scan, p);
    } else {
      BundlesUntouched(s, step);
    }
  }

  lemma {:induction false} PublishedRun(s: State, steps: seq<Step>, from: nat, p: Id)
    requires TablesOk(s) && LedgerOk(s) && ValidRun(s, steps) && PublishedFrom(s, from, p)
    ensures PublishedFrom(Run(s, steps), from, p)
  {
    if steps != [] {
      var init := steps[..|steps| - 1];
      PublishedRun(s, init, from, p);
      LedgerStays(s, init);
      PublishedNext(Run(s, init), steps[|steps| - 1], from, p);
    }
  }

  /** A revocation that succeeded is there for the next list. */
  lemma RevokePublishes(s: State, l: Id, now: Time, row: Id)
    requires TablesOk(s) && LedgerOk(s) && row !in s.uuids && l in s.licenses && s.licenses[l].mode == Offline
    requires Revoke(s, l, now, row).1 == Done
    ensures var s' := Revoke(s, l, now, row).0;
      TablesOk(s') && LedgerOk(s') && PublishedFrom(s', |s'.bundles|, s.licenses[l].publicId)
  {
    var s' := Revoke(s, l, now, row).0;
    LedgerAfterRevoke(s, l, now, row);
    TablesOkRevoke(s, l, now, row);
    RevokedRow(s, l, now, row);
    assert IsRevoked(s'.revocations, l);
    RevokedIsPublishable(s'.licenses, s'.revocations, l);
  }

  lemma RevokedIsPublishable(licenses: map<Id, License>, revocations: map<Id, Revocation>, l: Id)
    requires RevocationsOk(licenses, revocations) && IsRevoked(revocations, l)
    requires l in licenses && licenses[l].mode == Offline
    ensures RevokedOffline(revocations, licenses[l].publicId)
  {
    var r :| r in revocations && revocations[r].license == Some(l);
    assert Describes(licenses, revocations[r]);
    assert Publishable(revocations[r]);
  }

  /** After a successful revocation of an offline licence, every list generated by any continuation, deletion of the
      licence included, names it. */
  lemma RevocationIsPublished(steps: seq<Step>, l: Id, now: Time, row: Id, after: seq<Step>, i: nat)
    requires ValidRun(INITIAL, steps) && row !in Run(INITIAL, steps).uuids
    requires l in Run(INITIAL, steps).licenses && Run(INITIAL, steps).licenses[l].mode == Offline
    requires Revoke(Run(INITIAL, steps), l, now, row).1 == Done
    requires var s := Revoke(Run(INITIAL, steps), l, now, row).0;
      ValidRun(s, after) && |s.bundles| <= i < |Run(s, after).bundles|
    ensures Run(INITIAL, steps).licenses[l].publicId
      in Run(Revoke(Run(INITIAL, steps), l, now, row).0, after).bundles[i].revoked
  {
    var before := Run(INITIAL, steps);
    var s := Revoke(before, l, now, row).0;
    LedgerRun(steps);
    RevokePublishes(before, l, now, row);
    PublishedRun(s, after, |s.bundles|, before.licenses[l].publicId);
  }
}
