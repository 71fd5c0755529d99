/** The background jobs, each as a function from the committed state to the next one. */
module WorkerProtocol {
  import opened Basics
  import opened Tables

  const HEARTBEAT_WINDOW: int := 600 * SECOND

  predicate IsStale(b: Binding, now: Time) {
    IsActive(b) && b.lastHeartbeat.Some? && b.lastHeartbeat.value < now - HEARTBEAT_WINDOW
  }

  function Stale(bindings: map<Id, Binding>, now: Time): set<Id> {
    set b | b in bindings && IsStale(bindings[b], now)
  }

  function StaleOf(bindings: map<Id, Binding>, now: Time, l: Id): set<Id> {
    set b | b in bindings && bindings[b].license == l && IsStale(bindings[b], now)
  }

  function Buried(bindings: map<Id, Binding>, dead: set<Id>): map<Id, Binding> {
    map b | b in bindings :: if b in dead then bindings[b].(status := Dead) else bindings[b]
  }

  /** Every stale binding dies; each licence gives back as many seats as it lost bindings, if it has them. */
  function Reap(s: State, now: Time): State {
    s.(bindings := Buried(s.bindings, Stale(s.bindings, now)),
       licenses := map l | l in s.licenses ::
         var n := |StaleOf(s.bindings, now, l)|;
         if s.licenses[l].seatUsed >= n then s.licenses[l].(seatUsed := s.licenses[l].seatUsed - n) else s.licenses[l])
  }

  predicate Sweepable(lic: License, now: Time) {
    lic.activeUntil.Some? && lic.activeUntil.value < now && lic.status !in {Expired, Revoked, Locked}
  }

  function Sweep(s: State, now: Time): State {
    s.(licenses := map l | l in s.licenses ::
         if Sweepable(s.licenses[l], now) then s.licenses[l].(status := Expired) else s.licenses[l])
  }

  /** How many of `rows` belong to licence `l`. */
  function Tally(rows: seq<Id>, bindings: map<Id, Binding>, l: Id): nat {
    if rows == [] then 0
    else
      var last := rows[|rows| - 1];
      Tally(rows[..|rows| - 1], bindings, l) + if last in bindings && bindings[last].license == l then 1 else 0
  }

  function OwnedBy(rows: seq<Id>, bindings: map<Id, Binding>, l: Id): set<Id> {
    set b | b in rows && b in bindings && bindings[b].license == l
  }

  lemma {:induction false} TallyCounts(rows: seq<Id>, bindings: map<Id, Binding>, l: Id)
    requires forall i, j :: 0 <= i < j < |rows| ==> rows[i] != rows[j]
    ensures Tally(rows, bindings, l) == |OwnedBy(rows, bindings, l)|
  {
    if rows != [] {
      var init, last := rows[..|rows| - 1], rows[|rows| - 1];
      TallyCounts(init, bindings, l);
      assert rows == init + [last];
      assert last !in OwnedBy(init, bindings, l);
      if last in bindings && bindings[last].license == l {
        assert OwnedBy(rows, bindings, l) == OwnedBy(init, bindings, l) + {last};
      } else {
        assert OwnedBy(rows, bindings, l) == OwnedBy(init, bindings, l);
      }
    }
  }

  lemma TallyOfStale(rows: seq<Id>, bindings: map<Id, Binding>, now: Time, l: Id)
    requires Listing(rows, Stale(bindings, now))
    ensures Tally(rows, bindings, l) == |StaleOf(bindings, now, l)|
  {
    TallyCounts(rows, bindings, l);
    assert StaleOf(bindings, now, l) == OwnedBy(rows, bindings, l);
  }

  lemma TalliesOfStale(rows: seq<Id>, bindings: map<Id, Binding>, now: Time)
    requires Listing(rows, Stale(bindings, now))
    ensures forall l :: Tally(rows, bindings, l) == |StaleOf(bindings, now, l)|
  {
    forall l ensures Tally(rows, bindings, l) == |StaleOf(bindings, now, l)| {
      TallyOfStale(rows, bindings, now, l);
    }
  }

  /** Every licence gave back the seats counted for it, if it had them. */
  ghost predicate GaveBack(before: map<Id, License>, after: map<Id, License>, perLicense: map<Id, nat>) {
    && after.Keys == before.Keys
    && forall l :: l in before ==>
         var n := if l in perLicense then perLicense[l] else 0;
         var lic := before[l];
         after[l] == if lic.seatUsed >= n then lic.(seatUsed := lic.seatUsed - n) else lic
  }

  lemma GaveBackStale(s: State, now: Time, after: map<Id, License>, perLicense: map<Id, nat>)
    requires GaveBack(s.licenses, after, perLicense)
    requires forall l :: (if l in perLicense then perLicense[l] else 0) == |StaleOf(s.bindings, now, l)|
    ensures after == Reap(s, now).licenses
  {
  }

  lemma NothingStale(s: State, now: Time)
    requires Listing([], Stale(s.bindings, now))
    ensures Reap(s, now) == s
  {
    forall l ensures StaleOf(s.bindings, now, l) == {} {
      assert forall b :: b in StaleOf(s.bindings, now, l) ==> b in Stale(s.bindings, now);
    }
    assert Reap(s, now).licenses == s.licenses;
    assert Reap(s, now).bindings == s.bindings;
  }
}

/** The Celery tasks as they run. */
module Worker {
  import opened Basics
  import opened Tables
  import opened WorkerProtocol

  class Tasks {
    const db: Store

    constructor (db: Store)
      ensures this.db == db
    {
      this.db := db;
    }

    method SelectStale(now: Time, scan: seq<Id>) returns (dead: seq<Id>)
      requires Listing(scan, db.bindings.Keys)
      ensures Listing(dead, Stale(db.bindings, now))
    {
      var cutoff := now - HEARTBEAT_WINDOW;
      dead := [];
      for i := 0 to |scan|
        invariant forall b :: b in dead <==> b in scan[..i] && b in Stale(db.bindings, now)
        invariant forall j, k :: 0 <= j < k < |dead| ==> dead[j] != dead[k]
      {
        assert scan[i] in scan && scan[i] !in scan[..i];
        var b := db.bindings[scan[i]];
        if b.status == BindingStatus.Active && b.deletedAt.None?
           && b.lastHeartbeat.Some? && b.lastHeartbeat.value < cutoff {
          dead := dead + [scan[i]];
        }
        assert scan[..i + 1] == scan[..i] + [scan[i]];
      }
      assert scan[..|scan|] == scan;
    }

    /** The counting dictionary: licence to number of rows. */
    method CountPerLicense(dead: seq<Id>) returns (perLicense: map<Id, nat>)
      requires forall b :: b in dead ==> b in db.bindings
      ensures forall l :: (if l in perLicense then perLicense[l] else 0) == Tally(dead, db.bindings, l)
    {
      perLicense := map[];
      for i := 0 to |dead|
        invariant forall l :: (if l in perLicense then perLicense[l] else 0) == Tally(dead[..i], db.bindings, l)
      {
        assert dead[..i + 1][..i] == dead[..i];
        var l := db.bindings[dead[i]].license;
        perLicense := perLicense[l := (if l in perLicense then perLicense[l] else 0) + 1];
      }
      assert dead[..|dead|] == dead;
    }

    /** One guarded update per entry of the dictionary. */
    method ReleaseSeats(perLicense: map<Id, nat>)
      modifies db`licenses
      ensures GaveBack(old(db.licenses), db.licenses, perLicense)
    {
      ghost var before := db.licenses;
      var todo := perLicense.Keys;
      while todo != {}
        invariant todo <= perLicense.Keys
        invariant db.licenses.Keys == before.Keys
        invariant forall l :: l in db.licenses ==>
          var n := if l in perLicense && l !in todo then perLicense[l] else 0;
          db.licenses[l] == if before[l].seatUsed >= n then before[l].(seatUsed := before[l].seatUsed - n)
            else before[l]
        decreases todo
      {
        var l :| l in todo;
        var n := perLicense[l];
        if l in db.licenses && db.licenses[l].seatUsed >= n {
          db.licenses := db.licenses[l := db.licenses[l].(seatUsed := db.licenses[l].seatUsed - n)];
        }
        todo := todo - {l};
      }
    }

    /** The bulk update of the rows found. */
    method Bury(dead: seq<Id>)
      modifies db`bindings
      ensures forall stale: set<Id> | Listing(dead, stale) :: db.bindings == Buried(old(db.bindings), stale)
    {
      db.bindings := map b | b in db.bindings :: if b in dead then db.bindings[b].(status := Dead) else db.bindings[b];
    }

    method ReapDeadBindings(now: Time, scan: seq<Id>) returns (reaped: nat)
      requires Listing(scan, db.bindings.Keys)
      modifies db
      ensures db.Snapshot() == Reap(old(db.Snapshot()), now)
      ensures reaped == |Stale(old(db.bindings), now)|
    {
      ghost var s := db.Snapshot();
      var dead := SelectStale(now, scan);
      ListingSize(dead, Stale(db.bindings, now));
      if dead == [] {
        NothingStale(s, now);
        return 0;
      }
      var perLicense := CountPerLicense(dead);
      TalliesOfStale(dead, s.bindings, now);
      Bury(dead);
      ReleaseSeats(perLicense);
      assert db.bindings == Buried(s.bindings, Stale(s.bindings, now));
      GaveBackStale(s, now, db.licenses, perLicense);
      reaped := |dead|;
    }

    method SweepExpiredLicenses(now: Time) returns (flipped: nat)
      modifies db`licenses
      ensures db.Snapshot() == Sweep(old(db.Snapshot()), now)
      ensures flipped == |set l | l in old(db.licenses) && Sweepable(old(db.licenses)[l], now)|
    {
      var late := set l | l in db.licenses && Sweepable(db.licenses[l], now);
      db.licenses := map l | l in db.licenses :: if l in late then db.licenses[l].(status := Expired)
        else db.licenses[l];
      flipped := |late|;
    }
  }
}
