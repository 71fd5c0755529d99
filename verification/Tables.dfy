/** The rows of the licence database and the keys of the lease cache. */
module Tables {
  import opened Basics

  datatype Mode = Online | Offline
  datatype LicenseStatus = Issued | Active | Expiring | Expired | Revoked | Locked
  datatype BindingStatus = Active | Released | Blocked | Dead

  datatype License = License(
    publicId: Id, mode: Mode, onlineCode: Option<Id>, boundFingerprint: Option<string>, activeUntil: Option<Time>,
    seatLimit: nat, seatUsed: int, status: LicenseStatus,
    activatedAt: Option<Time>, revokedAt: Option<Time>, deletedAt: Option<Time>)

  datatype Binding = Binding(
    license: Id, fingerprint: string, status: BindingStatus, installId: Option<string>,
    signals: Option<map<string, string>>, deploymentUid: Option<string>,
    lastHeartbeat: Option<Time>, leaseExpiresAt: Option<Time>, deletedAt: Option<Time>)

  datatype Revocation = Revocation(license: Option<Id>, publicId: Option<Id>, mode: Option<Mode>,
    crlVersion: Option<int>)

  datatype CrlBundle = CrlBundle(version: int, revoked: seq<Id>, generatedAt: Time)

  /** A row of `leases`, keyed by token. */
  datatype Lease = Lease(license: Id, binding: Id, expiresAt: Time, graceUntil: Time)

  /** A cached lease: the key disappears at `deadline`. */
  datatype CachedLease = CachedLease(license: Id, binding: Id, deadline: Time)

  datatype CloneAlert = CloneAlert(license: Id, aliveIdentities: int, seatLimit: int)

  /** `uuids` is every identifier handed out so far; a new one is never among them. */
  datatype State = State(
    licenses: map<Id, License>, bindings: map<Id, Binding>, revocations: map<Id, Revocation>,
    bundles: seq<CrlBundle>, leases: map<Id, Lease>, tokens: map<Id, CachedLease>,
    alerts: seq<CloneAlert>, uuids: set<Id>)

  /** The tables as the services see them: fields that every service updates in place. */
  class Store {
    var licenses: map<Id, License>
    var bindings: map<Id, Binding>
    var revocations: map<Id, Revocation>
    var bundles: seq<CrlBundle>
    var leases: map<Id, Lease>
    var tokens: map<Id, CachedLease>
    var alerts: seq<CloneAlert>
    var uuids: set<Id>

    constructor ()
      ensures Snapshot() == State(map[], map[], map[], [], map[], map[], [], {})
    {
      licenses, bindings, revocations, bundles := map[], map[], map[], [];
      leases, tokens, alerts, uuids := map[], map[], [], {};
    }

    ghost function Snapshot(): State
      reads this
    {
      State(licenses, bindings, revocations, bundles, leases, tokens, alerts, uuids)
    }
  }

  predicate IsActive(b: Binding) {
    b.status == BindingStatus.Active && b.deletedAt.None?
  }

  /** The bindings that occupy a seat of licence `l`. */
  function ActiveOf(bindings: map<Id, Binding>, l: Id): set<Id> {
    set b | b in bindings && bindings[b].license == l && IsActive(bindings[b])
  }

  /** The partial unique index on (license, fingerprint): rows not soft-deleted, whatever their status. */
  predicate Collides(bindings: map<Id, Binding>, self: Id, l: Id, fingerprint: string) {
    exists b | b in bindings ::
      b != self && bindings[b].license == l && bindings[b].fingerprint == fingerprint && bindings[b].deletedAt.None?
  }

  ghost predicate HasCode(licenses: map<Id, License>, l: Id, code: Id) {
    l in licenses && licenses[l].onlineCode == Some(code) && licenses[l].deletedAt.None?
  }

  /** The unique index on the online codes of undeleted licences. */
  ghost predicate CodesUnique(licenses: map<Id, License>) {
    forall l, m, code :: HasCode(licenses, l, code) && HasCode(licenses, m, code) ==> l == m
  }

  predicate IsRevoked(revocations: map<Id, Revocation>, l: Id) {
    exists r | r in revocations :: revocations[r].license == Some(l)
  }
}
