/** Concrete runs: the first activation of a new licence, on which the others build. */
module Scenarios {
  import opened Basics
  import opened Tables
  import opened EdgeProtocol
  import opened IssuanceProtocol
  import opened CrlProtocol
  import opened Server
  import Jobs = WorkerProtocol

  /** An order for an online licence: row 1, public identifier 2, code 3. */
  function Order(end: Option<Time>, seats: nat): IssueRequest {
    IssueRequest(0, end, seats, "", true, true, true, 1, 2, 3)
  }

  function Ordered(end: Option<Time>, seats: nat): State {
    State(map[1 := OnlineLicense(Order(end, seats))], map[], map[], [], map[], map[], [], {1, 2, 3})
  }

  lemma OrderIsFilled(end: Option<Time>, seats: nat)
    requires seats >= 1
    ensures Enabled(INITIAL, StepIssueOnline(Order(end, seats)))
    ensures Next(INITIAL, StepIssueOnline(Order(end, seats))) == Ordered(end, seats)
  {
  }

  /** A call at `now` that gets the lock and a key. */
  function Call(now: Time, scan: seq<Id>, binding: Id, token: Id): CallEnv {
    CallEnv(now, scan, true, true, binding, token)
  }

  lemma CodeIsFound(s: State, code: Id)
    requires s.licenses.Keys == {1} && HasCode(s.licenses, 1, code)
    ensures FindByCode(s.licenses, code) == Some(1)
  {
  }

  lemma NewLicenseAdmits(end: Option<Time>, seats: nat, now: Time)
    requires end.Some? ==> now < end.value
    ensures Admit(Ordered(end, seats), 3, now) == Admitted(1)
  {
    var s := Ordered(end, seats);
    assert HasCode(s.licenses, 1, 3);
    CodeIsFound(s, 3);
  }

  function FirstRow(req: ActivateRequest, now: Time): Binding {
    NewBinding(1, req, now).(leaseExpiresAt := Some(now + LEASE_TTL))
  }

  /** After the first activation: binding 5, token 6. */
  function Joined(end: Option<Time>, seats: nat, req: ActivateRequest, now: Time): State {
    var lic := OnlineLicense(Order(end, seats));
    State(map[1 := Occupied(lic, lic, now)], map[5 := FirstRow(req, now)], map[], [],
          map[6 := Lease(1, 5, now + LEASE_TTL, now + LEASE_TTL + LEASE_GRACE)],
          map[6 := CachedLease(1, 5, now + LEASE_TTL + LEASE_GRACE)], [], {1, 2, 3, 5, 6})
  }

  /** In an empty table any host takes the first seat, whatever else happened to the licence row since it was loaded. */
  lemma FirstSeat(s: State, loaded: License, req: ActivateRequest, now: Time)
    requires s.bindings == map[] && 1 in s.licenses && loaded.seatLimit >= 1
    ensures var (s', reply) := Enter(s, 1, loaded, req, Call(now, [], 5, 6));
      && reply == Granted(6, LeaseFor(loaded, NewBinding(1, req, now), now))
      && s'.bindings == map[5 := FirstRow(req, now)]
      && s'.licenses == s.licenses[1 := Occupied(s.licenses[1], loaded, now)]
      && s'.revocations == s.revocations && s'.bundles == s.bundles && s'.alerts == s.alerts
      && s'.tokens == s.tokens[6 := CachedLease(1, 5, now + LEASE_TTL + LEASE_GRACE)]
      && s'.leases == s.leases[6 := Lease(1, 5, now + LEASE_TTL, now + LEASE_TTL + LEASE_GRACE)]
      && s'.uuids == s.uuids + {5, 6}
  {
    var env := Call(now, [], 5, 6);
    assert ActiveRows(s.bindings, 1, []) == [];
    assert MatchBinding([], s.bindings, req) == None;
    assert !Collides(s.bindings, 5, 1, req.fingerprint);
    assert TakeSeat(s, 1, loaded, req, env).Seated?;
  }

  lemma FirstActivation(end: Option<Time>, seats: nat, req: ActivateRequest, now: Time)
    requires seats >= 1 && req.onlineCode == 3 && (end.Some? ==> now < end.value)
    ensures var s := Ordered(end, seats);
      && FreshCall(s, Call(now, [], 5, 6))
      && Activate(s, req, Call(now, [], 5, 6))
        == (Joined(end, seats, req, now), Granted(6, LeaseFor(s.licenses[1], NewBinding(1, req, now), now)))
  {
    var s := Ordered(end, seats);
    NewLicenseAdmits(end, seats, now);
    FirstSeat(s, s.licenses[1], req, now);
    var s', expected := Activate(s, req, Call(now, [], 5, 6)).0, Joined(end, seats, req, now);
    assert s'.uuids == expected.uuids && s'.licenses == expected.licenses;
    assert s'.tokens == expected.tokens && s'.leases == expected.leases;
  }

  lemma TwoSteps(first: Step, second: Step)
    requires Enabled(INITIAL, first) && Enabled(Next(INITIAL, first), second)
    ensures ValidRun(INITIAL, [first, second]) && Run(INITIAL, [first, second]) == Next(Next(INITIAL, first), second)
  {
    assert [first, second][..1] == [first] && [first][..0] == [];
    assert Run(INITIAL, []) == INITIAL && ValidRun(INITIAL, []);
    assert Run(INITIAL, [first]) == Next(INITIAL, first) && ValidRun(INITIAL, [first]);
  }

  /** Issue and activate, as a run. */
  lemma JoinedIsReached(end: Option<Time>, seats: nat, req: ActivateRequest, now: Time)
    requires seats >= 1 && req.onlineCode == 3 && (end.Some? ==> now < end.value)
    ensures var steps := [StepIssueOnline(Order(end, seats)), StepActivate(req, Call(now, [], 5, 6))];
      ValidRun(INITIAL, steps) && Run(INITIAL, steps) == Joined(end, seats, req, now)
  {
    OrderIsFilled(end, seats);
    FirstActivation(end, seats, req, now);
    TwoSteps(StepIssueOnline(Order(end, seats)), StepActivate(req, Call(now, [], 5, 6)));
  }

  lemma JoinedAdmits(end: Option<Time>, seats: nat, req: ActivateRequest, joined: Time, now: Time)
    requires end.Some? ==> now < end.value
    ensures Admit(Joined(end, seats, req, joined), 3, now) == Admitted(1)
  {
    var s := Joined(end, seats, req, joined);
    assert HasCode(s.licenses, 1, 3);
    CodeIsFound(s, 3);
  }
}
