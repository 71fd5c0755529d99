/** Publication of the certificate revocation list, as a function from the committed state to the next one. */
module CrlProtocol {
  import opened Basics
  import opened Tables

  predicate Publishable(r: Revocation) {
    r.mode == Some(Offline) && r.publicId.Some?
  }

  /** The public identifiers the query returns, in scan order. */
  function PublicIds(revocations: map<Id, Revocation>, scan: seq<Id>): seq<Id> {
    if scan == [] then []
    else
      var rest := PublicIds(revocations, scan[..|scan| - 1]);
      var r := scan[|scan| - 1];
      if r in revocations && Publishable(revocations[r]) then rest + [revocations[r].publicId.value] else rest
  }

  ghost predicate Ascending(s: seq<Id>) {
    forall i, j :: 0 <= i < j < |s| ==> s[i] <= s[j]
  }

  ghost predicate StrictlyAscending(s: seq<Id>) {
    forall i, j :: 0 <= i < j < |s| ==> s[i] < s[j]
  }

  function Insert(s: seq<Id>, x: Id): seq<Id> {
    if s == [] || x <= s[0] then [x] + s else [s[0]] + Insert(s[1..], x)
  }

  /** `sorted`. */
  function Sorted(s: seq<Id>): seq<Id> {
    if s == [] then [] else Insert(Sorted(s[1..]), s[0])
  }

  lemma {:induction false} InsertContents(s: seq<Id>, x: Id)
    ensures multiset(Insert(s, x)) == multiset(s) + multiset{x}
  {
    if s != [] {
      assert s == [s[0]] + s[1..];
      InsertContents(s[1..], x);
    }
  }

  lemma {:induction false} InsertAscends(s: seq<Id>, x: Id)
    requires Ascending(s)
    ensures Ascending(Insert(s, x))
    ensures Insert(s, x) != [] && (Insert(s, x)[0] == x || (s != [] && Insert(s, x)[0] == s[0]))
  {
    if s != [] && x > s[0] {
      var rest := Insert(s[1..], x);
      InsertAscends(s[1..], x);
      assert forall i :: 0 <= i < |rest| ==> rest[0] <= rest[i];
    }
  }

  lemma {:induction false} SortedSorts(s: seq<Id>)
    ensures Ascending(Sorted(s)) && multiset(Sorted(s)) == multiset(s)
  {
    if s != [] {
      assert s == [s[0]] + s[1..];
      SortedSorts(s[1..]);
      InsertContents(Sorted(s[1..]), s[0]);
      InsertAscends(Sorted(s[1..]), s[0]);
    }
  }

  /** The highest version among the bundles, as `ORDER BY version DESC` finds it. */
  function LatestVersion(bundles: seq<CrlBundle>): Option<int> {
    if bundles == [] then None
    else
      var rest := LatestVersion(bundles[..|bundles| - 1]);
      var v := bundles[|bundles| - 1].version;
      if rest.Some? && rest.value >= v then rest else Some(v)
  }

  function NextVersion(bundles: seq<CrlBundle>): int {
    var latest := LatestVersion(bundles);
    if latest.Some? then latest.value + 1 else 1
  }

  function Stamped(r: Revocation, version: int): Revocation {
    if Publishable(r) && r.crlVersion.None? then r.(crlVersion := Some(version)) else r
  }

  function Generate(s: State, now: Time, scan: seq<Id>): State {
    var version := NextVersion(s.bundles);
    s.(bundles := s.bundles + [CrlBundle(version, Sorted(PublicIds(s.revocations, scan)), now)],
       revocations := map r | r in s.revocations :: Stamped(s.revocations[r], version))
  }
}

/** The CRL service as it runs. */
module Crl {
  import opened Basics
  import opened Tables
  import opened CrlProtocol

  class CrlService {
    const db: Store

    constructor (db: Store)
      ensures this.db == db
    {
      this.db := db;
    }

    method Latest() returns (version: Option<int>)
      ensures version == LatestVersion(db.bundles)
    {
      version := None;
      for i := 0 to |db.bundles|
        invariant version == LatestVersion(db.bundles[..i])
      {
        assert db.bundles[..i + 1][..i] == db.bundles[..i];
        if version.None? || version.value < db.bundles[i].version {
          version := Some(db.bundles[i].version);
        }
      }
      assert db.bundles[..|db.bundles|] == db.bundles;
    }

    method SelectPublished(scan: seq<Id>) returns (ids: seq<Id>)
      ensures ids == PublicIds(db.revocations, scan)
    {
      ids := [];
      for i := 0 to |scan|
        invariant ids == PublicIds(db.revocations, scan[..i])
      {
        assert scan[..i + 1][..i] == scan[..i];
        if scan[i] in db.revocations && Publishable(db.revocations[scan[i]]) {
          ids := ids + [db.revocations[scan[i]].publicId.value];
        }
      }
      assert scan[..|scan|] == scan;
    }

    method Generate(now: Time, scan: seq<Id>) returns (bundle: CrlBundle)
      requires Listing(scan, db.revocations.Keys)
      modifies db
      ensures db.Snapshot() == CrlProtocol.Generate(old(db.Snapshot()), now, scan)
      ensures db.bundles == old(db.bundles) + [bundle]
    {
      var rows := SelectPublished(scan);
      var revokedIds := Sorted(rows);
      var latest := Latest();
      var version := if latest.Some? then latest.value + 1 else 1;
      bundle := CrlBundle(version, revokedIds, now);
      db.bundles := db.bundles + [bundle];
      Stamp(version, scan);
    }

    method Stamp(version: int, scan: seq<Id>)
      requires Listing(scan, db.revocations.Keys)
      modifies db`revocations
      ensures db.revocations == map r | r in old(db.revocations) :: Stamped(old(db.revocations)[r], version)
    {
      ghost var before := db.revocations;
      for i := 0 to |scan|
        invariant db.revocations.Keys == before.Keys
        invariant forall r :: r in before ==>
          db.revocations[r] == if r in scan[..i] then Stamped(before[r], version) else before[r]
      {
        var rev := db.revocations[scan[i]];
        assert scan[i] !in scan[..i];
        assert scan[..i + 1] == scan[..i] + [scan[i]];
        if Publishable(rev) && rev.crlVersion.None? {
          db.revocations := db.revocations[scan[i] := rev.(crlVersion := Some(version))];
        }
      }
      assert scan[..|scan|] == scan;
    }
  }
}
