/** Issuing, revoking and deleting licences, each as a function from the committed state to the next one. */
module IssuanceProtocol {
  import opened Basics
  import opened Tables

  datatype AdminCode = Done | NotFound | ProductInactive | KeyNotFound | DeploymentIdInvalid

  /** `resolved`: customer and product exist; the three fresh identifiers are the row's, the public one and the code. */
  datatype IssueRequest = IssueRequest(
    now: Time, activeUntil: Option<Time>, seatLimit: nat, deploymentId: string,
    resolved: bool, productActive: bool, masterReady: bool, row: Id, publicId: Id, code: Id)

  predicate LowerHex(c: char) {
    '0' <= c <= '9' || 'a' <= c <= 'f'
  }

  /** `^[0-9a-f]{64}$` with Python's `match`: `$` also matches before one final newline. */
  predicate IsFingerprint(s: string) {
    && (|s| == 64 || (|s| == 65 && s[64] == '\n'))
    && forall i :: 0 <= i < 64 ==> LowerHex(s[i])
  }

  function Resolve(req: IssueRequest): AdminCode {
    if !req.resolved then NotFound
    else if !req.productActive then ProductInactive
    else if !req.masterReady then KeyNotFound
    else Done
  }

  function OnlineLicense(req: IssueRequest): License {
    License(req.publicId, Online, Some(req.code), None, req.activeUntil, req.seatLimit, 0, Issued, None, None, None)
  }

  function OfflineLicense(req: IssueRequest): License {
    License(req.publicId, Offline, None, Some(req.deploymentId), req.activeUntil, 1, 1, LicenseStatus.Active,
            None, None, None)
  }

  function IssueOnline(s: State, req: IssueRequest): (State, AdminCode) {
    if Resolve(req) != Done then (s, Resolve(req))
    else (s.(licenses := s.licenses[req.row := OnlineLicense(req)],
             uuids := s.uuids + {req.row, req.publicId, req.code}), Done)
  }

  function IssueOffline(s: State, req: IssueRequest): (State, AdminCode) {
    if !IsFingerprint(req.deploymentId) then (s, DeploymentIdInvalid)
    else if Resolve(req) != Done then (s, Resolve(req))
    else (s.(licenses := s.licenses[req.row := OfflineLicense(req)], uuids := s.uuids + {req.row, req.publicId}), Done)
  }

  /** Revoking copies the public identifier and the mode, so that the row can outlive its licence. */
  function Revoke(s: State, l: Id, now: Time, row: Id): (State, AdminCode) {
    if l !in s.licenses || s.licenses[l].deletedAt.Some? then (s, NotFound)
    else if s.licenses[l].status == Revoked then (s, Done)
    else
      var lic := s.licenses[l];
      var s' := s.(licenses := s.licenses[l := lic.(status := Revoked, revokedAt := Some(now))]);
      if IsRevoked(s.revocations, l) then (s', Done)
      else
        (s'.(revocations := s.revocations[row := Revocation(Some(l), Some(lic.publicId), Some(lic.mode), None)],
             uuids := s.uuids + {row}), Done)
  }

  function Detached(r: Revocation, l: Id): Revocation {
    if r.license == Some(l) then r.(license := None) else r
  }

  function AlertsExcept(alerts: seq<CloneAlert>, l: Id): (rest: seq<CloneAlert>)
    ensures forall i :: 0 <= i < |rest| ==> rest[i].license != l
  {
    if alerts == [] then []
    else
      var rest := AlertsExcept(alerts[..|alerts| - 1], l);
      var last := alerts[|alerts| - 1];
      if last.license == l then rest else rest + [last]
  }

  /** Hard delete: bindings, leases and alerts go with the licence, a revocation only loses its reference. */
  function Delete(s: State, l: Id): (State, AdminCode) {
    if l !in s.licenses || s.licenses[l].deletedAt.Some? then (s, NotFound)
    else
      (s.(licenses := s.licenses - {l},
          bindings := map b | b in s.bindings && s.bindings[b].license != l :: s.bindings[b],
          leases := map t | t in s.leases && s.leases[t].license != l :: s.leases[t],
          alerts := AlertsExcept(s.alerts, l),
          revocations := map r | r in s.revocations :: Detached(s.revocations[r], l)), Done)
  }

  /** No row but a revocation is left of licence `l`, and that one does not refer to it. */
  ghost predicate Purged(s: State, l: Id) {
    && l !in s.licenses && !IsRevoked(s.revocations, l)
    && (forall b :: b in s.bindings ==> s.bindings[b].license != l)
    && (forall t :: t in s.leases ==> s.leases[t].license != l)
    && (forall i :: 0 <= i < |s.alerts| ==> s.alerts[i].license != l)
  }

  /** Every revocation row keeps its public identifier, mode and stamp. */
  ghost predicate RowsKept(before: map<Id, Revocation>, after: map<Id, Revocation>) {
    before.Keys <= after.Keys
    && forall r :: r in before ==> before[r].(license := None) == after[r].(license := None)
  }

  lemma DeletePurges(s: State, l: Id)
    requires Delete(s, l).1 == Done
    ensures Purged(Delete(s, l).0, l)
  {
  }

  /** The repository's soft delete. */
  function SoftDelete(s: State, l: Id, now: Time): State {
    if l in s.licenses then s.(licenses := s.licenses[l := s.licenses[l].(deletedAt := Some(now))]) else s
  }
}

/** The issuance service and the delete handler as they run. */
module Issuance {
  import opened Basics
  import opened Tables
  import opened IssuanceProtocol

  class IssuanceService {
    const db: Store

    constructor (db: Store)
      ensures this.db == db
    {
      this.db := db;
    }

    method IssueOnline(req: IssueRequest) returns (code: AdminCode)
      modifies db
      ensures (db.Snapshot(), code) == IssuanceProtocol.IssueOnline(old(db.Snapshot()), req)
    {
      code := Resolve(req);
      if code == Done {
        db.licenses := db.licenses[req.row := OnlineLicense(req)];
        db.uuids := db.uuids + {req.row, req.publicId, req.code};
      }
    }

    method IssueOffline(req: IssueRequest) returns (code: AdminCode)
      modifies db
      ensures (db.Snapshot(), code) == IssuanceProtocol.IssueOffline(old(db.Snapshot()), req)
    {
      if !IsFingerprint(req.deploymentId) {
        return DeploymentIdInvalid;
      }
      code := Resolve(req);
      if code == Done {
        db.licenses := db.licenses[req.row := OfflineLicense(req)];
        db.uuids := db.uuids + {req.row, req.publicId};
      }
    }

    method Revoke(l: Id, now: Time, row: Id) returns (code: AdminCode)
      modifies db
      ensures (db.Snapshot(), code) == IssuanceProtocol.Revoke(old(db.Snapshot()), l, now, row)
      ensures code == Done <==> l in old(db.licenses) && old(db.licenses)[l].deletedAt.None?
      ensures code == Done ==> l in db.licenses && db.licenses[l].status == Revoked
      ensures code == Done && old(db.licenses)[l].status != Revoked ==> IsRevoked(db.revocations, l)
      ensures row !in old(db.revocations) ==> RowsKept(old(db.revocations), db.revocations)
    {
      if l !in db.licenses || db.licenses[l].deletedAt.Some? {
        return NotFound;
      }
      var lic := db.licenses[l];
      code := Done;
      if lic.status == Revoked {
        return;
      }
      db.licenses := db.licenses[l := lic.(status := Revoked, revokedAt := Some(now))];
      if !IsRevoked(db.revocations, l) {
        db.revocations := db.revocations[row := Revocation(Some(l), Some(lic.publicId), Some(lic.mode), None)];
        db.uuids := db.uuids + {row};
        assert db.revocations[row].license == Some(l);
      }
    }

    method DeleteLicense(l: Id) returns (code: AdminCode)
      modifies db
      ensures (db.Snapshot(), code) == Delete(old(db.Snapshot()), l)
      ensures code == Done ==> Purged(db.Snapshot(), l)
      ensures RowsKept(old(db.revocations), db.revocations)
    {
      if l !in db.licenses || db.licenses[l].deletedAt.Some? {
        return NotFound;
      }
      db.licenses := db.licenses - {l};
      db.bindings := map b | b in db.bindings && db.bindings[b].license != l :: db.bindings[b];
      db.leases := map t | t in db.leases && db.leases[t].license != l :: db.leases[t];
      db.alerts := AlertsExcept(db.alerts, l);
      db.revocations := map r | r in db.revocations :: Detached(db.revocations[r], l);
      code := Done;
      DeletePurges(old(db.Snapshot()), l);
    }
  }
}
