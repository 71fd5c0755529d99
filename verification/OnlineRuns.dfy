/** Two runs of the authority and a client: the delay of a call counts, and Node rides the grace window. */
module OnlineRuns {
  import opened Basics
  import opened Tables
  import opened EdgeProtocol
  import opened IssuanceProtocol
  import opened Server
  import opened Revocations
  import opened OnlineProtocol
  import opened OnlineSurvival
  import opened Scenarios
  import Offline = OfflineProtocol

  const NOBODY: Client := Client(None, None)
  const JOIN: ActivateRequest := ActivateRequest(3, "host", None, None, None)

  function Lease0(end: Option<Time>, now: Time): LeasePayload {
    LeasePayload(2, "host", end, now + LEASE_TTL, now + LEASE_TTL + LEASE_GRACE, now)
  }

  /** An order, and a call of the client that passed its checks. */
  function Ticket(end: Option<Time>): map<Id, Flight> {
    map[9 := Joining(JOIN, 1, OnlineLicense(Order(end, 1)), 0, true)]
  }

  const ARRIVE: Event := Event(0, Python, ArriveJoin(9, JOIN, true, Up))

  function Buy(end: Option<Time>): Event {
    Event(0, Python, Authority(StepIssueOnline(Order(end, 1))))
  }

  function Bought(end: Option<Time>): World {
    World(Ordered(end, 1), NOBODY, map[])
  }

  function Asked(end: Option<Time>): World {
    World(Ordered(end, 1), NOBODY, Ticket(end))
  }

  lemma BuyStep(end: Option<Time>)
    ensures Leads(START, Buy(end), Bought(end))
  {
    OrderIsFilled(end, 1);
  }

  lemma AskStep(end: Option<Time>)
    requires end.Some? ==> 0 < end.value
    ensures Leads(Bought(end), ARRIVE, Asked(end))
  {
    NewLicenseAdmits(end, 1, 0);
  }

  // ----- the delay between a call's checks and its end -----

  const REVOKE: Event := Event(0, Python, Authority(StepRevoke(1, 0, 4)))

  function Revoked0(): World {
    World(Revoke(Ordered(None, 1), 1, 0, 4).0, NOBODY, Ticket(None))
  }

  lemma RevokeStep()
    ensures Leads(Asked(None), REVOKE, Revoked0())
    ensures Ends(Asked(None), REVOKE, 1)
  {
  }

  function Finish0(now: Time): Event {
    Event(now, Python, Finish(9, Call(now, [], 5, 6), Up))
  }

  ghost function Late(now: Time): World {
    After(Revoked0(), Finish0(now))
  }

  lemma RevokedTables()
    ensures var s := Revoked0().authority;
      s.bindings == map[] && s.licenses.Keys == {1} && s.uuids == {1, 2, 3, 4} && s.tokens == map[] && s.leases == map[]
  {
  }

  lemma LateStep(now: Time)
    ensures Leads(Revoked0(), Finish0(now), Late(now))
    ensures Late(now).client == Client(Some(Lease0(None, now)), Some(6))
  {
    RevokedTables();
    FirstSeat(Revoked0().authority, OnlineLicense(Order(None, 1)), JOIN, now);
  }

  /** A renewal that does not reach the service: no connection, or refused by the limit of the route. */
  predicate Kept(answer: Answer) {
    answer == NoConnection || answer == Failure(Some(RateLimited))
  }

  ghost function LateHistory(delay: Time, answer: Answer): History {
    var last := Event(delay + LEASE_TTL + LEASE_GRACE - 1, Python, Alone(true, answer));
    History([Buy(None), ARRIVE, REVOKE, Finish0(delay), last],
            [START, Bought(None), Asked(None), Revoked0(), Late(delay), After(Late(delay), last)])
  }

  /** The bound with the delay is reached: a call checked before the revocation and finished `delay` after it leaves the
      client unlocked until a nanosecond before 345600 s and the delay have passed since the revocation, when it is
      offline or when its renewal is refused for its rate. */
  lemma DelayIsNeeded(delay: Time, answer: Answer)
    requires delay >= 0 && Kept(answer)
    ensures var h := LateHistory(delay, answer);
      && Valid(h) && Prompt(h, delay) && Ends(h.worlds[2], h.events[2], 1)
      && h.events[4].now == h.events[2].now + delay + 345_600 * SECOND - 1
      && IsUnlocked(VerdictAt(h, 4))
      && VerdictAt(h, 4).lease.value.license == h.worlds[2].authority.licenses[1].publicId
  {
    BuyStep(None);
    AskStep(None);
    RevokeStep();
    LateStep(delay);
    KeptStep(delay, answer);
    LateIsValid(delay, answer);
  }

  lemma KeptStep(delay: Time, answer: Answer)
    requires Kept(answer) && Late(delay).client == Client(Some(Lease0(None, delay)), Some(6))
    ensures var h := LateHistory(delay, answer);
      && Leads(Late(delay), h.events[4], h.worlds[5])
      && VerdictAt(h, 4) == OnlineVerdict(Offline.Active, Some(Lease0(None, delay)))
  {
  }

  lemma LateIsValid(delay: Time, answer: Answer)
    requires delay >= 0 && Kept(answer)
    requires Leads(START, Buy(None), Bought(None)) && Leads(Bought(None), ARRIVE, Asked(None))
    requires Leads(Asked(None), REVOKE, Revoked0()) && Leads(Revoked0(), Finish0(delay), Late(delay))
    requires Leads(Late(delay), LateHistory(delay, answer).events[4], LateHistory(delay, answer).worlds[5])
    ensures Valid(LateHistory(delay, answer)) && Prompt(LateHistory(delay, answer), delay)
  {
    var h := LateHistory(delay, answer);
    forall i: nat | i < |h.events| ensures StepAt(h, i) && PromptAt(h.worlds[i], h.events[i], delay) {
      if i == 0 {
      } else if i == 1 {
      } else if i == 2 {
      } else if i == 3 {
      } else {
      }
    }
  }

  // ----- Node -----

  const END: Time := 3600 * SECOND

  ghost function Holding0(): World {
    After(Asked(Some(END)), Finish0(0))
  }

  lemma HoldingStep()
    ensures Leads(Asked(Some(END)), Finish0(0), Holding0())
    ensures Holding0() == World(Joined(Some(END), 1, JOIN, 0), Client(Some(Lease0(Some(END), 0)), Some(6)), map[])
  {
    FirstActivation(Some(END), 1, JOIN, 0);
    NewLicenseAdmits(Some(END), 1, 0);
    assert Ticket(Some(END)) - {9} == map[];
  }

  const SWEEP: Event := Event(END, Python, Authority(StepSweep(END)))

  ghost function Swept0(): World {
    After(Holding0(), SWEEP)
  }

  const RENEW: Event := Event(END, Node, ArriveRenew(10, ValidateRequest(6, "host", None), true, Up))

  ghost function NodeHistory(): History {
    History([Buy(Some(END)), ARRIVE, Finish0(0), SWEEP, RENEW],
            [START, Bought(Some(END)), Asked(Some(END)), Holding0(), Swept0(), After(Swept0(), RENEW)])
  }

  lemma RenewStep()
    requires Swept0().flights == map[] && Swept0().client.token == Some(6)
    ensures Leads(Holding0(), SWEEP, Swept0()) && Leads(Swept0(), RENEW, After(Swept0(), RENEW))
  {
  }

  lemma RefusedButUnlocked(w: World, e: Event, lease: LeasePayload)
    requires e.sdk == Node && e.action.ArriveRenew? && e.action.mine && e.action.link.Up?
    requires CheckRenewal(w.authority, e.action.renewal, e.now) == Unrenewable(LicenseExpired)
    requires w.client.token.Some? && w.client.lastLease == Some(lease) && e.now < lease.graceUntil
    ensures IsUnlocked(ClientIn(w, e).1)
  {
  }

  lemma SweptState()
    ensures var w := Swept0();
      && w.client == Client(Some(Lease0(Some(END), 0)), Some(6)) && w.flights == map[]
      && Over(w.authority, 2, END)
      && CheckRenewal(w.authority, RENEW.action.renewal, END) == Unrenewable(LicenseExpired)
  {
    HoldingStep();
    var s := Swept0().authority;
    assert BindingOfToken(s, 6, END) == Some(5);
    assert s.licenses.Keys == {1} && s.bindings[5].license == 1;
  }

  /** A licence ends, a Node client asks to renew and hears the refusal, and stays unlocked. */
  lemma NodeStillUnlocked()
    ensures var h := NodeHistory();
      && Valid(h) && Over(h.worlds[4].authority, 2, h.events[3].now)
      && h.events[4].action.ArriveRenew? && h.events[4].action.mine && h.events[4].action.link.Up?
      && h.worlds[4].client.lastLease.Some? && h.worlds[4].client.lastLease.value.license == 2
      && h.events[4].sdk == Node && IsUnlocked(VerdictAt(h, 4))
  {
    BuyStep(Some(END));
    AskStep(Some(END));
    HoldingStep();
    SweptState();
    RenewStep();
    RefusedButUnlocked(Swept0(), RENEW, Lease0(Some(END), 0));
    NodeIsValid();
  }

  lemma NodeIsValid()
    requires Leads(START, Buy(Some(END)), Bought(Some(END))) && Leads(Bought(Some(END)), ARRIVE, Asked(Some(END)))
    requires Leads(Asked(Some(END)), Finish0(0), Holding0()) && Leads(Holding0(), SWEEP, Swept0())
    requires Leads(Swept0(), RENEW, After(Swept0(), RENEW))
    ensures Valid(NodeHistory())
  {
    var h := NodeHistory();
    forall i: nat | i < |h.events| ensures StepAt(h, i) {
      if i == 0 {
      } else if i == 1 {
      } else if i == 2 {
      } else if i == 3 {
      } else {
      }
    }
  }
}
