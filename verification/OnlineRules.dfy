/** What the online clients answer and keep, with the codes written out. */
module OnlineRules {
  import opened Basics
  import opened EdgeProtocol
  import opened OnlineProtocol
  import Offline = OfflineProtocol

  /** A success whose lease is signed by the authority. */
  predicate Genuine(answer: Answer) {
    answer.Success? && answer.signatureValid
  }

  /** An answer that rejects the ticket: five codes to Python and Go, the revocation alone to Node. */
  predicate Rejects(sdk: Sdk, answer: Answer) {
    && answer.Failure? && answer.code.Some?
    && (answer.code.value == ErrorCode.LicenseRevoked
        || (sdk != Node && answer.code.value in
              {ErrorCode.LicenseExpired, ErrorCode.BindingMismatch, ErrorCode.LeaseExpired, ResourceNotFound}))
  }

  /** No answer, or one that decides nothing. */
  predicate Undecided(sdk: Sdk, answer: Answer) {
    !answer.Success? && !Rejects(sdk, answer)
  }

  /** The client keeps what it had, or the lease and the token of a genuine success. */
  predicate Keeps(cl: Client, cl': Client, answer: Answer) {
    if Genuine(answer) then cl' == Client(Some(answer.lease), Some(answer.token)) else cl' == cl
  }

  predicate RevokedAnswer(answer: Answer) {
    answer == Failure(Some(ErrorCode.LicenseRevoked))
  }

  /** An activation unlocks on a genuine success only, and then keeps its lease. */
  lemma ActivateVerdicts(cl: Client, answer: Answer)
    ensures var (cl', v) := OnActivate(cl, answer);
      && Keeps(cl, cl', answer)
      && (IsUnlocked(v) <==> Genuine(answer)) && (v.status == Offline.Revoked <==> RevokedAnswer(answer))
      && v.status in {Offline.Active, Offline.Revoked, Offline.Locked}
      && v.lease == if Genuine(answer) then Some(answer.lease) else None
  {
  }

  /** A renewal, which needs a token, unlocks on a genuine success, and on an undecided answer while grace is left. */
  lemma RevalidateVerdicts(sdk: Sdk, cl: Client, now: Time, answer: Answer)
    ensures var (cl', v) := OnRevalidate(sdk, cl, now, answer);
      var riding := Undecided(sdk, answer) && cl.lastLease.Some? && now < cl.lastLease.value.graceUntil;
      && (if cl.token.Some? then Keeps(cl, cl', answer) else cl' == cl)
      && (IsUnlocked(v) <==> cl.token.Some? && (Genuine(answer) || riding))
      && (v.status == Offline.Revoked <==> cl.token.Some? && RevokedAnswer(answer))
      && v.status in {Offline.Active, Offline.Revoked, Offline.Locked}
      && v.lease == if !IsUnlocked(v) then None else if Genuine(answer) then Some(answer.lease) else cl.lastLease
  {
  }

  /** A lease that the authority did not sign changes nothing and unlocks nothing. */
  lemma ForgedLease(sdk: Sdk, cl: Client, now: Time, token: Id, lease: LeasePayload)
    ensures var answer := Success(token, lease, false);
      && OnActivate(cl, answer).0 == OnRevalidate(sdk, cl, now, answer).0 == cl
      && !IsUnlocked(OnActivate(cl, answer).1) && !IsUnlocked(OnRevalidate(sdk, cl, now, answer).1)
  {
  }
}
