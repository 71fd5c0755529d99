/** forge-edge as it runs: loops and updates in place, proved to do what EdgeProtocol says. */
module Edge {
  import opened Basics
  import opened Tables
  import opened EdgeProtocol

  class EdgeService {
    const db: Store

    constructor (db: Store)
      ensures this.db == db
    {
      this.db := db;
    }

    method CheckRevoked(l: Id) returns (revoked: bool)
      ensures revoked == IsRevoked(db.revocations, l)
    {
      revoked := exists r | r in db.revocations :: db.revocations[r].license == Some(l);
    }

    method ActiveBindings(l: Id, scan: seq<Id>) returns (rows: seq<Id>)
      ensures rows == ActiveRows(db.bindings, l, scan)
    {
      rows := [];
      for i := 0 to |scan|
        invariant rows == ActiveRows(db.bindings, l, scan[..i])
      {
        assert scan[..i + 1][..i] == scan[..i];
        if scan[i] in db.bindings && db.bindings[scan[i]].license == l && IsActive(db.bindings[scan[i]]) {
          rows := rows + [scan[i]];
        }
      }
      assert scan[..|scan|] == scan;
    }

    method CountOverlap(signals: map<string, string>, stored: map<string, string>) returns (overlap: nat)
      ensures overlap == |Agreeing(signals, stored)|
    {
      overlap := 0;
      var todo, done := signals.Keys, {};
      while todo != {}
        invariant todo !! done && todo + done == signals.Keys
        invariant overlap == |AgreeingIn(done, signals, stored)|
        decreases todo
      {
        var k :| k in todo;
        AgreeingStep(done, k, signals, stored);
        if k in stored && signals[k] == stored[k] {
          overlap := overlap + 1;
        }
        todo, done := todo - {k}, done + {k};
      }
      assert done == signals.Keys;
    }

    method FindFirst(rows: seq<Id>, req: ActivateRequest, rule: Rule) returns (r: Option<Id>)
      ensures r == FirstFit(rows, db.bindings, req, rule)
    {
      for i := 0 to |rows|
        invariant FirstFit(rows, db.bindings, req, rule) == FirstFit(rows[i..], db.bindings, req, rule)
      {
        if rows[i] in db.bindings {
          var b := db.bindings[rows[i]];
          var fits := false;
          match rule {
            case ByUid => fits := b.deploymentUid == req.deploymentUid;
            case ByFingerprint => fits := b.deploymentUid.None? && b.fingerprint == req.fingerprint;
            case BySignals =>
              if b.deploymentUid.None? && FilledMap(b.signals) && req.signals.Some? {
                var overlap := CountOverlap(req.signals.value, b.signals.value);
                fits := overlap >= FUZZY_MIN;
              }
          }
          if fits {
            return Some(rows[i]);
          }
        }
      }
      r := None;
    }

    method FindBinding(rows: seq<Id>, req: ActivateRequest) returns (r: Option<Id>)
      ensures r == MatchBinding(rows, db.bindings, req)
    {
      if Filled(req.deploymentUid) {
        r := FindFirst(rows, req, ByUid);
        return;
      }
      r := FindFirst(rows, req, ByFingerprint);
      if r.None? && FilledMap(req.signals) {
        r := FindFirst(rows, req, BySignals);
      }
    }

    /** Signs a lease and caches its token; `commit` says whether the session goes on to commit. */
    method MintLease(l: Id, lic: License, b: Id, env: CallEnv, commit: bool) returns (reply: Reply)
      requires b in db.bindings
      modifies db
      ensures reply == Granted(env.newToken, old(LeaseFor(lic, db.bindings[b], env.now)))
      ensures db.Snapshot() == if commit then Minted(old(db.Snapshot()), l, b, env)
        else Cached(old(db.Snapshot()), l, b, env)
    {
      var expires := env.now + LEASE_TTL;
      var grace := expires + LEASE_GRACE;
      var payload := LeasePayload(lic.publicId, db.bindings[b].fingerprint, lic.activeUntil, expires, grace, env.now);
      if commit {
        db.leases := db.leases[env.newToken := Lease(l, b, expires, grace)];
        db.bindings := db.bindings[b := db.bindings[b].(leaseExpiresAt := Some(expires))];
      }
      db.tokens := db.tokens[env.newToken := CachedLease(l, b, grace)];
      db.uuids := db.uuids + {env.newToken};
      reply := Granted(env.newToken, payload);
    }

    /** The section under the seat lock; a code means the call is refused. */
    method Seat(l: Id, loaded: License, req: ActivateRequest, env: CallEnv) returns (seat: Option<Id>, code: ErrorCode)
      requires l in db.licenses
      modifies db
      ensures match TakeSeat(old(db.Snapshot()), l, loaded, req, env)
              case Seated(s', b) => seat == Some(b) && db.Snapshot() == s'
              case Rejected(s', c) => seat == None && code == c && db.Snapshot() == s'
    {
      seat, code := None, InternalError;
      var rows := ActiveBindings(l, env.scan);
      var existing := FindBinding(rows, req);
      if existing.Some? {
        var b := existing.value;
        if InstallMismatch(db.bindings[b], req.installId) {
          code := BindingMismatch;
        } else if !Collides(db.bindings, b, l, req.fingerprint) {
          var row := db.bindings[b];
          row := row.(installId := if Filled(row.installId) then row.installId else req.installId);
          row := row.(signals := if FilledMap(req.signals) then req.signals else row.signals);
          row := row.(deploymentUid := if Filled(req.deploymentUid) then req.deploymentUid else row.deploymentUid);
          row := row.(fingerprint := req.fingerprint, lastHeartbeat := Some(env.now));
          db.bindings := db.bindings[b := row];
          seat := Some(b);
        }
      } else {
        var activeCount := |rows|;
        if activeCount >= loaded.seatLimit {
          db.alerts := db.alerts + [CloneAlert(l, activeCount + 1, loaded.seatLimit)];
          code := SeatExceeded;
        } else if !Collides(db.bindings, env.newBinding, l, req.fingerprint) {
          db.bindings := db.bindings[env.newBinding := NewBinding(l, req, env.now)];
          db.uuids := db.uuids + {env.newBinding};
          OccupySeat(l, loaded, env.now);
          seat := Some(env.newBinding);
        }
      }
    }

    /** The columns set on the licence object, written back at the commit. */
    method OccupySeat(l: Id, loaded: License, now: Time)
      requires l in db.licenses
      modifies db`licenses
      ensures db.licenses == old(db.licenses)[l := Occupied(old(db.licenses)[l], loaded, now)]
    {
      var lic := db.licenses[l].(seatUsed := loaded.seatUsed + 1);
      if loaded.status == Issued {
        lic := lic.(status := LicenseStatus.Active, activatedAt := Some(now));
      }
      db.licenses := db.licenses[l := lic];
    }

    /** The checks before the lock. */
    method Check(code: Id, now: Time) returns (a: Admission)
      requires CodesUnique(db.licenses)
      ensures a == Admit(db.Snapshot(), code, now)
    {
      if l :| l in db.licenses && db.licenses[l].onlineCode == Some(code) && db.licenses[l].deletedAt.None? {
        assert HasCode(db.licenses, l, code);
        assert FindByCode(db.licenses, code) == Some(l);
        if db.licenses[l].mode != Online {
          return Barred(ResourceNotFound);
        }
        var window := AssertValidWindow(db.licenses[l], now);
        if window.Some? {
          return Barred(window.value);
        }
        var revoked := CheckRevoked(l);
        if revoked {
          return Barred(LicenseRevoked);
        }
        return Admitted(l);
      }
      assert forall l :: !HasCode(db.licenses, l, code);
      return Barred(ResourceNotFound);
    }

    /** Lock, section, lease and commit, on the licence as loaded for the checks. */
    method TakeSeatAndMint(l: Id, loaded: License, req: ActivateRequest, env: CallEnv) returns (reply: Reply)
      requires env.newBinding !in db.bindings
      modifies db
      ensures (db.Snapshot(), reply) == Enter(old(db.Snapshot()), l, loaded, req, env)
    {
      if !env.lockFree {
        return Refused(SeatLockBusy);
      }
      if l !in db.licenses {
        // deleted since it was loaded: the transaction fails
        return Refused(InternalError);
      }
      var licenses, bindings, uuids := db.licenses, db.bindings, db.uuids;
      var seat, code := Seat(l, loaded, req, env);
      if seat.None? {
        return Refused(code);
      }
      if !env.keyReady {
        // no commit: the session is rolled back
        db.licenses, db.bindings, db.uuids := licenses, bindings, uuids;
        return Refused(KeyNotFound);
      }
      reply := MintLease(l, loaded, seat.value, env, true);
    }

    method Activate(req: ActivateRequest, env: CallEnv) returns (reply: Reply)
      requires CodesUnique(db.licenses)
      requires Listing(env.scan, db.bindings.Keys) && env.newBinding !in db.bindings
      modifies db
      ensures (db.Snapshot(), reply) == EdgeProtocol.Activate(old(db.Snapshot()), req, env)
    {
      var admission := Check(req.onlineCode, env.now);
      match admission
      case Barred(code) => reply := Refused(code);
      case Admitted(l) => reply := TakeSeatAndMint(l, db.licenses[l], req, env);
    }

    method Validate(req: ValidateRequest, env: CallEnv) returns (reply: Reply)
      modifies db
      ensures (db.Snapshot(), reply) == EdgeProtocol.Validate(old(db.Snapshot()), req, env)
    {
      var cached := req.token in db.tokens && env.now < db.tokens[req.token].deadline;
      if !cached && req.token !in db.leases {
        return Refused(LeaseExpired);
      }
      var id := if cached then db.tokens[req.token].binding else db.leases[req.token].binding;
      if id !in db.bindings || db.bindings[id].status != BindingStatus.Active {
        return Refused(BindingMismatch);
      }
      var b := db.bindings[id];
      if b.deploymentUid.None? && b.fingerprint != req.fingerprint {
        return Refused(BindingMismatch);
      }
      if InstallMismatch(b, req.installId) {
        return Refused(BindingMismatch);
      }
      if b.license !in db.licenses {
        return Refused(LicenseRevoked);
      }
      var window := AssertValidWindow(db.licenses[b.license], env.now);
      if window.Some? {
        return Refused(window.value);
      }
      var revoked := CheckRevoked(b.license);
      if revoked {
        return Refused(LicenseRevoked);
      }
      if !env.keyReady {
        return Refused(KeyNotFound);
      }
      reply := MintLease(b.license, db.licenses[b.license], id, env, false);
    }
  }
}
