/** The online clients of the SDKs: a cached lease, its token and the grace window. */
module OnlineProtocol {
  import opened Basics
  import opened EdgeProtocol
  import Offline = OfflineProtocol

  datatype Sdk = Python | Go | Node

  /** What the transport delivers: no connection, a success with its lease, or an error body with its code. */
  datatype Answer =
    | NoConnection
    | Success(token: Id, lease: LeasePayload, signatureValid: bool)
    | Failure(code: Option<ErrorCode>)

  datatype Client = Client(lastLease: Option<LeasePayload>, token: Option<Id>)

  datatype OnlineVerdict = OnlineVerdict(status: Offline.Status, lease: Option<LeasePayload>)

  predicate IsUnlocked(v: OnlineVerdict) {
    v.status == Offline.Active || v.status == Offline.Expiring
  }

  const PYTHON_DEFINITIVE: set<ErrorCode> :=
    {ErrorCode.LicenseRevoked, LicenseExpired, BindingMismatch, LeaseExpired, ResourceNotFound}
  const GO_DEFINITIVE: set<ErrorCode> :=
    {ErrorCode.LicenseRevoked, LicenseExpired, BindingMismatch, LeaseExpired, ResourceNotFound}

  /** The codes on which a client locks at once; Node knows only the revocation. */
  function Definitive(sdk: Sdk): set<ErrorCode> {
    match sdk
    case Python => PYTHON_DEFINITIVE
    case Go => GO_DEFINITIVE
    case Node => {ErrorCode.LicenseRevoked}
  }

  function Accept(cl: Client, token: Id, lease: LeasePayload, valid: bool): (Client, OnlineVerdict) {
    if valid then (Client(Some(lease), Some(token)), OnlineVerdict(Offline.Active, Some(lease)))
    else (cl, OnlineVerdict(Offline.Locked, None))
  }

  function GraceOrLock(cl: Client, now: Time): OnlineVerdict {
    if cl.lastLease.Some? && now < cl.lastLease.value.graceUntil then OnlineVerdict(Offline.Active, cl.lastLease)
    else OnlineVerdict(Offline.Locked, None)
  }

  function OnActivate(cl: Client, answer: Answer): (Client, OnlineVerdict) {
    match answer
    case NoConnection => (cl, OnlineVerdict(Offline.Locked, None))
    case Success(token, lease, valid) => Accept(cl, token, lease, valid)
    case Failure(code) =>
      (cl, OnlineVerdict(if code == Some(ErrorCode.LicenseRevoked) then Offline.Revoked else Offline.Locked, None))
  }

  function OnRevalidate(sdk: Sdk, cl: Client, now: Time, answer: Answer): (Client, OnlineVerdict) {
    if cl.token.None? then (cl, OnlineVerdict(Offline.Locked, None))
    else
      match answer
      case NoConnection => (cl, GraceOrLock(cl, now))
      case Success(token, lease, valid) => Accept(cl, token, lease, valid)
      case Failure(code) =>
        if code == Some(ErrorCode.LicenseRevoked) then (cl, OnlineVerdict(Offline.Revoked, None))
        else if code.Some? && code.value in Definitive(sdk) then (cl, OnlineVerdict(Offline.Locked, None))
        else (cl, GraceOrLock(cl, now))
  }

  /** An honest answer carries what the service replied, signed. */
  function Carried(reply: Reply): Answer {
    match reply
    case Granted(token, lease) => Success(token, lease, true)
    case Refused(code) => Failure(Some(code))
  }
}

/** The client as it runs. */
module OnlineClients {
  import opened Basics
  import opened EdgeProtocol
  import opened OnlineProtocol
  import Offline = OfflineProtocol

  class OnlineClient {
    const sdk: Sdk
    var lastLease: Option<LeasePayload>
    var token: Option<Id>

    constructor (sdk: Sdk)
      ensures this.sdk == sdk && Cache() == Client(None, None)
    {
      this.sdk := sdk;
      lastLease, token := None, None;
    }

    ghost function Cache(): Client
      reads this
    {
      Client(lastLease, token)
    }

    method AcceptLease(token: Id, lease: LeasePayload, valid: bool) returns (v: OnlineVerdict)
      modifies this
      ensures (Cache(), v) == Accept(old(Cache()), token, lease, valid)
    {
      if !valid {
        return OnlineVerdict(Offline.Locked, None);
      }
      lastLease, this.token := Some(lease), Some(token);
      v := OnlineVerdict(Offline.Active, Some(lease));
    }

    method Activate(answer: Answer) returns (v: OnlineVerdict)
      modifies this
      ensures (Cache(), v) == OnActivate(old(Cache()), answer)
    {
      match answer
      case NoConnection => v := OnlineVerdict(Offline.Locked, None);
      case Success(token, lease, valid) => v := AcceptLease(token, lease, valid);
      case Failure(code) =>
        v := OnlineVerdict(if code == Some(ErrorCode.LicenseRevoked) then Offline.Revoked else Offline.Locked, None);
    }

    method Revalidate(now: Time, answer: Answer) returns (v: OnlineVerdict)
      modifies this
      ensures (Cache(), v) == OnRevalidate(sdk, old(Cache()), now, answer)
    {
      if token.None? {
        return OnlineVerdict(Offline.Locked, None);
      }
      match answer
      case NoConnection => v := GraceOrLock(Client(lastLease, token), now);
      case Success(token, lease, valid) => v := AcceptLease(token, lease, valid);
      case Failure(code) =>
        if code == Some(ErrorCode.LicenseRevoked) {
          v := OnlineVerdict(Offline.Revoked, None);
        } else if code.Some? && code.value in Definitive(sdk) {
          v := OnlineVerdict(Offline.Locked, None);
        } else {
          v := GraceOrLock(Client(lastLease, token), now);
        }
    }
  }
}
