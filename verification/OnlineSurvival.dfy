/**
 * The authority and one online client together.  A call is checked when it arrives and answered when it finishes;
 * anything may happen in between.
 */
module OnlineSurvival {
  import opened Basics
  import opened Tables
  import opened EdgeProtocol
  import opened IssuanceProtocol
  import opened Server
  import opened Revocations
  import opened TokenLedger
  import opened OnlineProtocol
  import Offline = OfflineProtocol

  // ----- definitive codes -----

  /** A renewal with the token of a licence that was revoked, deleted or is past its end fails on every path, with a
      code that Python and Go both take as definitive; so they are not unlocked, however much grace is left. */
  lemma DefinitiveCodeClosure(s: State, p: Id, req: ValidateRequest, env: CallEnv, cl: Client, sdk: Sdk)
    requires TokensOk(s) && TokenNames(s, req.token, p) && Over(s, p, env.now)
    ensures var reply := Validate(s, req, env).1;
      && reply.Refused? && reply.code in PYTHON_DEFINITIVE && reply.code in GO_DEFINITIVE
      && (sdk != Node ==> !IsUnlocked(OnRevalidate(sdk, cl, env.now, Carried(reply)).1))
  {
    OverTokenFails(s, req.token, p, req, env);
  }

  /** Node locks at once only on the revocation code: on the others it stays unlocked exactly while grace is left. */
  lemma NodeRidesGrace(s: State, p: Id, req: ValidateRequest, env: CallEnv, cl: Client)
    requires TokensOk(s) && TokenNames(s, req.token, p) && Over(s, p, env.now) && cl.token.Some?
    ensures IsUnlocked(OnRevalidate(Node, cl, env.now, Carried(Validate(s, req, env).1)).1) <==>
      Validate(s, req, env).1 != Refused(ErrorCode.LicenseRevoked)
      && cl.lastLease.Some? && env.now < cl.lastLease.value.graceUntil
  {
    OverTokenFails(s, req.token, p, req, env);
  }

  // ----- calls in flight -----

  /** A call that passed its checks at `since`, with the rows it loaded for them; `mine`: it is the client's own. */
  datatype Flight =
    | Joining(request: ActivateRequest, license: Id, loaded: License, since: Time, mine: bool)
    | Renewing(binding: Id, row: Binding, lic: License, since: Time, mine: bool)

  /** The public identifier of the licence a call was checked for. */
  function PublicOf(f: Flight): Id {
    if f.Joining? then f.loaded.publicId else f.lic.publicId
  }

  /** What a call does after its checks. */
  function Complete(s: State, f: Flight, env: CallEnv): (State, Reply) {
    match f
    case Joining(req, l, loaded, _, _) => Enter(s, l, loaded, req, env)
    case Renewing(b, row, lic, _, _) => Renew(s, b, row, lic, env)
  }

  datatype World = World(authority: State, client: Client, flights: map<Id, Flight>)

  datatype Link = Up | AnswerLost

  /** `Authority` is any other call or job, as one step.  `Alone` is a call of the client that does not reach the
      service: no connection, an error on the way, the rate limit of the route included, or an answer of somebody else,
      who can send any lease but not sign it. */
  datatype Action =
    | Authority(step: Step)
    | ArriveJoin(ticket: Id, join: ActivateRequest, mine: bool, link: Link)
    | ArriveRenew(ticket: Id, renewal: ValidateRequest, mine: bool, link: Link)
    | Finish(ticket: Id, env: CallEnv, link: Link)
    | Alone(renewing: bool, answer: Answer)

  datatype Event = Event(now: Time, sdk: Sdk, action: Action)

  /** The reply the service gives in an event, if any; a call that passes its checks is not answered yet. */
  ghost function ReplyIn(w: World, e: Event): Option<Reply> {
    match e.action
    case ArriveJoin(_, req, _, _) =>
      var a := Admit(w.authority, req.onlineCode, e.now);
      if a.Barred? then Some(Refused(a.code)) else None
    case ArriveRenew(_, req, _, _) =>
      var r := CheckRenewal(w.authority, req, e.now);
      if r.Unrenewable? then Some(Refused(r.code)) else None
    case Finish(t, env, _) => if t in w.flights then Some(Complete(w.authority, w.flights[t], env).1) else None
    case _ => None
  }

  ghost function FlightsIn(w: World, e: Event): map<Id, Flight> {
    match e.action
    case ArriveJoin(t, req, mine, _) =>
      var a := Admit(w.authority, req.onlineCode, e.now);
      if a.Barred? then w.flights
      else w.flights[t := Joining(req, a.license, w.authority.licenses[a.license], e.now, mine)]
    case ArriveRenew(t, req, mine, _) =>
      var r := CheckRenewal(w.authority, req, e.now);
      if r.Unrenewable? then w.flights
      else
        var row := w.authority.bindings[r.binding];
        w.flights[t := Renewing(r.binding, row, w.authority.licenses[row.license], e.now, mine)]
    case Finish(t, _, _) => w.flights - {t}
    case _ => w.flights
  }

  ghost function AuthorityIn(w: World, e: Event): State {
    match e.action
    case Authority(step) => Next(w.authority, step)
    case Finish(t, env, _) => if t in w.flights then Complete(w.authority, w.flights[t], env).0 else w.authority
    case _ => w.authority
  }

  function Heard(reply: Reply, link: Link): Answer {
    if link.Up? then Carried(reply) else NoConnection
  }

  /** The client's cache after a call of its own was answered, and its verdict. */
  function Hears(cl: Client, e: Event, renewing: bool, answer: Answer): (Client, OnlineVerdict) {
    if renewing then OnRevalidate(e.sdk, cl, e.now, answer) else OnActivate(cl, answer)
  }

  const SILENT: OnlineVerdict := OnlineVerdict(Offline.Locked, None)

  ghost function ClientIn(w: World, e: Event): (Client, OnlineVerdict) {
    var reply := ReplyIn(w, e);
    match e.action
    case Alone(renewing, answer) => Hears(w.client, e, renewing, answer)
    case ArriveJoin(_, _, mine, link) =>
      if mine && reply.Some? then Hears(w.client, e, false, Heard(reply.value, link)) else (w.client, SILENT)
    case ArriveRenew(_, _, mine, link) =>
      if mine && reply.Some? then Hears(w.client, e, true, Heard(reply.value, link)) else (w.client, SILENT)
    case Finish(t, _, link) =>
      if reply.Some? && w.flights[t].mine then Hears(w.client, e, w.flights[t].Renewing?, Heard(reply.value, link))
      else (w.client, SILENT)
    case Authority(_) => (w.client, SILENT)
  }

  ghost function After(w: World, e: Event): World {
    World(AuthorityIn(w, e), ClientIn(w, e).0, FlightsIn(w, e))
  }

  const START: World := World(INITIAL, Client(None, None), map[])

  /** A run: the events, and the world before each and after the last. */
  datatype History = History(events: seq<Event>, worlds: seq<World>)

  /** New identifiers are new, the clock is one for both sides, and the client renews with the token it holds. */
  ghost predicate Possible(w: World, e: Event) {
    match e.action
    case Authority(step) =>
      && Enabled(w.authority, step)
      && (step.StepActivate? || step.StepValidate? ==> step.env.now == e.now)
    case ArriveJoin(t, _, _, _) => t !in w.flights
    case ArriveRenew(t, req, mine, _) => t !in w.flights && (mine ==> w.client.token == Some(req.token))
    case Finish(t, env, _) => t in w.flights && FreshCall(w.authority, env) && env.now == e.now
    case Alone(_, answer) => !(answer.Success? && answer.signatureValid)
  }

  predicate Shaped(h: History) {
    |h.worlds| == |h.events| + 1
  }

  /** Event `e` may happen in world `w` and leads to `w'`. */
  ghost predicate Leads(w: World, e: Event, w': World) {
    Possible(w, e) && w' == After(w, e)
  }

  ghost predicate StepAt(h: History, i: nat)
    requires i < |h.events| && Shaped(h)
  {
    && Leads(h.worlds[i], h.events[i], h.worlds[i + 1])
    && (i > 0 ==> h.events[i - 1].now <= h.events[i].now)
  }

  ghost predicate Valid(h: History) {
    && Shaped(h) && h.worlds[0] == START
    && forall i: nat :: i < |h.events| ==> StepAt(h, i)
  }

  /** The client's verdict in an event. */
  ghost function VerdictAt(h: History, i: nat): OnlineVerdict
    requires i < |h.events| && Shaped(h)
  {
    ClientIn(h.worlds[i], h.events[i]).1
  }

  /** Every call finishes at most `delay` after its checks. */
  ghost predicate Prompt(h: History, delay: Time)
    requires Shaped(h)
  {
    forall i: nat :: i < |h.events| ==> PromptAt(h.worlds[i], h.events[i], delay)
  }

  ghost predicate PromptAt(w: World, e: Event, delay: Time) {
    e.action.Finish? && e.action.ticket in w.flights ==> e.now <= w.flights[e.action.ticket].since + delay
  }

  lemma {:induction false} ClockAdvances(h: History, i: nat, j: nat)
    requires Valid(h) && i <= j < |h.events|
    ensures h.events[i].now <= h.events[j].now
  {
    if i < j {
      assert StepAt(h, j);
      ClockAdvances(h, i, j - 1);
    }
  }

  // ----- what every world satisfies -----

  ghost predicate FlightOk(s: State, f: Flight) {
    match f
    case Joining(_, l, loaded, _, _) =>
      Named(s, l, loaded.publicId) && (l in s.licenses ==> s.licenses[l].mode == Online)
    case Renewing(b, row, lic, _, _) => BelongsTo(s, b, row.license) && Named(s, row.license, lic.publicId)
  }

  /** The client's token names the licence of its lease. */
  ghost predicate ClientOk(w: World) {
    w.client.token.Some? ==>
      w.client.lastLease.Some? && TokenNames(w.authority, w.client.token.value, w.client.lastLease.value.license)
  }

  ghost predicate WorldOk(w: World) {
    && TablesOk(w.authority) && LedgerOk(w.authority) && TokensOk(w.authority)
    && (forall t :: t in w.flights ==> FlightOk(w.authority, w.flights[t]))
    && ClientOk(w)
  }

  lemma CompleteOk(s: State, f: Flight, env: CallEnv)
    requires TablesOk(s) && LedgerOk(s) && FlightOk(s, f) && FreshCall(s, env)
    ensures TablesOk(Complete(s, f, env).0) && LedgerOk(Complete(s, f, env).0) && Evolves(s, Complete(s, f, env).0)
  {
    match f
    case Joining(req, l, loaded, _, _) =>
      TablesOkEnter(s, l, loaded, req, env);
      LedgerAfterEnter(s, l, loaded, req, env);
      EvolvesEnter(s, l, loaded, req, env);
    case Renewing(b, row, lic, _, _) => EvolvesRenew(s, b, row, lic, env);
  }

  /** A granted call was checked for the licence its lease and its token name, and mints at its end. */
  lemma CompleteMints(s: State, f: Flight, env: CallEnv)
    requires TablesOk(s) && FlightOk(s, f) && FreshCall(s, env) && Complete(s, f, env).1.Granted?
    ensures var (s', reply) := Complete(s, f, env);
      && reply.lease.license == PublicOf(f) && TokenNames(s', reply.token, PublicOf(f))
      && reply.lease.issuedAt == env.now && reply.lease.graceUntil == env.now + LEASE_TTL + LEASE_GRACE
  {
    match f
    case Joining(req, l, loaded, _, _) =>
      EnterTokens(s, l, loaded, req, env);
      EnterNames(s, l, loaded, req, env);
    case Renewing(b, row, lic, _, _) => RenewNames(s, b, row, lic, env);
  }

  lemma AuthorityEvolves(w: World, e: Event)
    requires WorldOk(w) && Possible(w, e)
    ensures var s' := AuthorityIn(w, e);
      TablesOk(s') && LedgerOk(s') && TokensOk(s') && (s' == w.authority || Evolves(w.authority, s'))
  {
    match e.action
    case Authority(step) =>
      TablesOkNext(w.authority, step);
      LedgerNext(w.authority, step);
      EvolvesNext(w.authority, step);
      TokensOkStay(w.authority, AuthorityIn(w, e));
    case Finish(t, env, _) =>
      CompleteOk(w.authority, w.flights[t], env);
      TokensOkStay(w.authority, AuthorityIn(w, e));
    case _ =>
  }

  lemma FlightStays(s: State, s': State, f: Flight)
    requires RowsEvolve(s, s') && FlightOk(s, f)
    ensures FlightOk(s', f)
  {
    if f.Renewing? {
      BelongingStays(s, s', f.binding, f.row.license);
    }
  }

  lemma NewFlightOk(w: World, e: Event, t: Id)
    requires TablesOk(w.authority) && Possible(w, e) && t in FlightsIn(w, e) && t !in w.flights
    ensures FlightOk(w.authority, FlightsIn(w, e)[t])
  {
    var s := w.authority;
    assert s.licenses.Keys <= s.uuids && s.bindings.Keys <= s.uuids;
    match e.action
    case ArriveJoin(_, req, _, _) => assert Admit(s, req.onlineCode, e.now).license in s.licenses.Keys;
    case ArriveRenew(_, req, _, _) =>
      var b := CheckRenewal(s, req, e.now).binding;
      assert b in s.bindings.Keys && s.bindings[b].license in s.licenses.Keys;
    case _ =>
  }

  lemma FlightsOkAfter(w: World, e: Event, t: Id)
    requires WorldOk(w) && Possible(w, e) && t in FlightsIn(w, e)
    ensures FlightOk(AuthorityIn(w, e), FlightsIn(w, e)[t])
  {
    AuthorityEvolves(w, e);
    if t in w.flights {
      if AuthorityIn(w, e) != w.authority {
        FlightStays(w.authority, AuthorityIn(w, e), w.flights[t]);
      }
    } else {
      NewFlightOk(w, e, t);
    }
  }

  /** The client's cache changes only when a call of its own was granted and heard. */
  lemma ClientChange(w: World, e: Event)
    requires Possible(w, e)
    ensures var (cl, v) := ClientIn(w, e);
      var reply := ReplyIn(w, e);
      && (cl == w.client
          || (e.action.Finish? && reply.Some? && reply.value.Granted?
              && cl == Client(Some(reply.value.lease), Some(reply.value.token))))
      && (IsUnlocked(v) ==> v.lease.Some?)
      && (IsUnlocked(v) ==>
            || (v.lease == w.client.lastLease && e.now < v.lease.value.graceUntil)
            || (e.action.Finish? && reply.Some? && reply.value.Granted? && v.lease == Some(reply.value.lease)))
  {
  }

  /** A lease the authority did not sign, whenever it comes and whatever it says, leaves the cache as it was and is not
      unlocked. */
  lemma ForgeryIsRefused(h: History, i: nat)
    requires Valid(h) && i < |h.events| && h.events[i].action.Alone? && h.events[i].action.answer.Success?
    ensures h.worlds[i + 1].client == h.worlds[i].client && !IsUnlocked(VerdictAt(h, i))
  {
    assert StepAt(h, i);
  }

  lemma ClientOkAfter(w: World, e: Event)
    requires WorldOk(w) && Possible(w, e)
    ensures ClientOk(After(w, e))
  {
    AuthorityEvolves(w, e);
    ClientChange(w, e);
    var cl := ClientIn(w, e).0;
    if cl != w.client {
      CompleteMints(w.authority, w.flights[e.action.ticket], e.action.env);
    } else if cl.token.Some? && AuthorityIn(w, e) != w.authority {
      NamesStay(w.authority, AuthorityIn(w, e), cl.token.value, cl.lastLease.value.license);
    }
  }

  lemma WorldOkAfter(w: World, e: Event)
    requires WorldOk(w) && Possible(w, e)
    ensures WorldOk(After(w, e))
  {
    AuthorityEvolves(w, e);
    ClientOkAfter(w, e);
    forall t | t in FlightsIn(w, e) ensures FlightOk(AuthorityIn(w, e), FlightsIn(w, e)[t]) {
      FlightsOkAfter(w, e, t);
    }
  }

  /** In every world the tables are in order, every token and every call in flight stands for the licence it was checked
      for, and the client's token for the licence of its lease. */
  lemma {:induction false} WorldsOk(h: History, n: nat)
    requires Valid(h) && n <= |h.events|
    ensures WorldOk(h.worlds[n])
  {
    if n > 0 {
      WorldsOk(h, n - 1);
      assert StepAt(h, n - 1);
      WorldOkAfter(h.worlds[n - 1], h.events[n - 1]);
    }
  }

  // ----- once over, over for good -----

  lemma OverAfterEvent(w: World, e: Event, p: Id, now: Time)
    requires WorldOk(w) && Possible(w, e) && Over(w.authority, p, now)
    ensures Over(AuthorityIn(w, e), p, now)
  {
    match e.action
    case Authority(step) => OverAfterStep(w.authority, step, p, now);
    case Finish(t, env, _) =>
      if w.flights[t].Joining? {
        var f := w.flights[t];
        assert FlightOk(w.authority, f);
        OverAfterEnter(w.authority, f.license, f.loaded, f.request, env, p, now);
      }
    case _ =>
  }

  lemma {:induction false} OverInEvents(h: History, k: nat, n: nat, p: Id, now: Time)
    requires Valid(h) && k <= n <= |h.events| && Over(h.worlds[k].authority, p, now)
    ensures Over(h.worlds[n].authority, p, now)
  {
    if k < n {
      OverInEvents(h, k, n - 1, p, now);
      WorldsOk(h, n - 1);
      assert StepAt(h, n - 1);
      OverAfterEvent(h.worlds[n - 1], h.events[n - 1], p, now);
    }
  }

  /** Once licence `p` is over, every later renewal by a Python or Go client with a lease for `p` that reaches the
      service, and whose answer reaches the client, is refused with a definitive code: the client is not unlocked,
      whatever grace is left. */
  lemma LaterRenewalsLock(h: History, k: nat, i: nat, p: Id)
    requires Valid(h) && k < i < |h.events| && Over(h.worlds[k + 1].authority, p, h.events[k].now)
    requires h.events[i].action.ArriveRenew? && h.events[i].action.mine && h.events[i].action.link.Up?
      && h.events[i].sdk != Node
    requires h.worlds[i].client.lastLease.Some? && h.worlds[i].client.lastLease.value.license == p
    ensures var reply := ReplyIn(h.worlds[i], h.events[i]);
      reply.Some? && reply.value.Refused? && reply.value.code in PYTHON_DEFINITIVE && reply.value.code in GO_DEFINITIVE
    ensures !IsUnlocked(VerdictAt(h, i))
  {
    var w, e := h.worlds[i], h.events[i];
    var env := CallEnv(e.now, [], true, true, 0, 0);
    WorldsOk(h, i);
    assert StepAt(h, i);
    OverInEvents(h, k + 1, i, p, h.events[k].now);
    ClockAdvances(h, k, i);
    DefinitiveCodeClosure(w.authority, p, e.action.renewal, env, w.client, e.sdk);
  }

  // ----- where unlocked verdicts come from -----

  ghost predicate Usable(s: State, p: Id, now: Time) {
    exists l :: l in s.licenses && s.licenses[l].publicId == p && AssertValidWindow(s.licenses[l], now).None?
                && !IsRevoked(s.revocations, l)
  }

  /** At event `j` a call for licence `p` passed its checks: the licence was unrevoked, undeleted and unexpired. */
  ghost predicate CheckedAt(h: History, j: nat, p: Id)
    requires Shaped(h)
  {
    j < |h.events| && Usable(h.worlds[j].authority, p, h.events[j].now)
  }

  /** Call `t`, for licence `p`, was in flight from event `j` up to the world after `n` events. */
  ghost predicate Aboard(h: History, t: Id, p: Id, j: nat, n: nat)
    requires Shaped(h)
  {
    j < n <= |h.events| && forall x: nat :: j < x <= n ==> InFlight(h.worlds[x], t, p, h.events[j].now)
  }

  predicate InFlight(w: World, t: Id, p: Id, since: Time) {
    t in w.flights && PublicOf(w.flights[t]) == p && w.flights[t].since == since
  }

  lemma AboardAt(h: History, t: Id, p: Id, j: nat, n: nat, x: nat)
    requires Shaped(h) && Aboard(h, t, p, j, n) && j < x <= n
    ensures InFlight(h.worlds[x], t, p, h.events[j].now)
  {
  }

  lemma ArrivalIsChecked(w: World, e: Event, t: Id)
    requires Possible(w, e) && t in FlightsIn(w, e) && t !in w.flights
    ensures FlightsIn(w, e)[t].since == e.now && Usable(w.authority, PublicOf(FlightsIn(w, e)[t]), e.now)
  {
    match e.action
    case ArriveJoin(_, req, _, _) =>
      var l := Admit(w.authority, req.onlineCode, e.now).license;
      assert l in w.authority.licenses && !IsRevoked(w.authority.revocations, l);
    case ArriveRenew(_, req, _, _) =>
      var l := w.authority.bindings[CheckRenewal(w.authority, req, e.now).binding].license;
      assert l in w.authority.licenses && !IsRevoked(w.authority.revocations, l);
    case _ =>
  }

  lemma OnlyArrivalsFly(w: World, e: Event, t: Id)
    requires Possible(w, e) && t in FlightsIn(w, e) && t in w.flights
    ensures FlightsIn(w, e)[t] == w.flights[t]
  {
  }

  lemma {:induction false} FlightSource(h: History, n: nat, t: Id) returns (j: nat)
    requires Valid(h) && n <= |h.events| && t in h.worlds[n].flights
    ensures var p := PublicOf(h.worlds[n].flights[t]);
      CheckedAt(h, j, p) && Aboard(h, t, p, j, n)
  {
    var w, e := h.worlds[n - 1], h.events[n - 1];
    assert StepAt(h, n - 1);
    var p := PublicOf(h.worlds[n].flights[t]);
    if t in w.flights {
      OnlyArrivalsFly(w, e, t);
      j := FlightSource(h, n - 1, t);
      assert InFlight(h.worlds[n - 1], t, p, h.events[j].now);
    } else {
      ArrivalIsChecked(w, e, t);
      j := n - 1;
    }
  }

  /** `lease` was minted at event `m` by a call checked at event `j` for the licence it names. */
  ghost predicate Journey(h: History, j: nat, m: nat, lease: LeasePayload)
    requires Shaped(h)
  {
    && j < m < |h.events| && h.events[m].action.Finish?
    && CheckedAt(h, j, lease.license) && Aboard(h, h.events[m].action.ticket, lease.license, j, m)
    && lease.issuedAt == h.events[m].now && lease.graceUntil == h.events[m].now + LEASE_TTL + LEASE_GRACE
  }

  lemma GrantIsJourney(h: History, m: nat) returns (j: nat)
    requires Valid(h) && m < |h.events| && h.events[m].action.Finish?
    requires ReplyIn(h.worlds[m], h.events[m]).Some? && ReplyIn(h.worlds[m], h.events[m]).value.Granted?
    ensures Journey(h, j, m, ReplyIn(h.worlds[m], h.events[m]).value.lease)
  {
    var w, e := h.worlds[m], h.events[m];
    assert StepAt(h, m);
    WorldsOk(h, m);
    CompleteMints(w.authority, w.flights[e.action.ticket], e.action.env);
    j := FlightSource(h, m, e.action.ticket);
  }

  lemma {:induction false} CachedLeaseSource(h: History, n: nat) returns (j: nat, m: nat)
    requires Valid(h) && n <= |h.events| && h.worlds[n].client.lastLease.Some?
    ensures m < n && Journey(h, j, m, h.worlds[n].client.lastLease.value)
  {
    var w, e := h.worlds[n - 1], h.events[n - 1];
    assert StepAt(h, n - 1);
    ClientChange(w, e);
    if h.worlds[n].client == w.client {
      j, m := CachedLeaseSource(h, n - 1);
    } else {
      m := n - 1;
      j := GrantIsJourney(h, m);
    }
  }

  /** Every unlocked verdict rests on a lease minted less than the lease and grace times ago, by a call that had passed
      its checks for a licence then usable. */
  lemma UnlockedHasLiveLease(h: History, i: nat) returns (j: nat, m: nat)
    requires Valid(h) && i < |h.events| && IsUnlocked(VerdictAt(h, i))
    ensures m <= i && VerdictAt(h, i).lease.Some? && Journey(h, j, m, VerdictAt(h, i).lease.value)
    ensures h.events[i].now < h.events[m].now + LEASE_TTL + LEASE_GRACE
  {
    var w, e := h.worlds[i], h.events[i];
    assert StepAt(h, i);
    ClientChange(w, e);
    var reply := ReplyIn(w, e);
    if e.action.Finish? && reply.Some? && reply.value.Granted? && VerdictAt(h, i).lease == Some(reply.value.lease) {
      m := i;
      j := GrantIsJourney(h, i);
    } else {
      j, m := CachedLeaseSource(h, i);
    }
  }

  // ----- survival of the end of a licence -----

  lemma OverIsNotUsable(s: State, p: Id, now: Time, later: Time)
    requires Over(s, p, now) && now <= later
    ensures !Usable(s, p, later)
  {
  }

  /** No call passes its checks for a licence that is over. */
  lemma CheckedBeforeTheEnd(h: History, k: nat, j: nat, p: Id)
    requires Valid(h) && k < |h.events| && Over(h.worlds[k + 1].authority, p, h.events[k].now)
    requires CheckedAt(h, j, p)
    ensures j <= k
  {
    if j > k {
      OverInEvents(h, k + 1, j, p, h.events[k].now);
      ClockAdvances(h, k, j);
      OverIsNotUsable(h.worlds[j].authority, p, h.events[k].now, h.events[j].now);
    }
  }

  /** If licence `p` is over right after event `k` and calls take at most `delay` from their checks to their end,
      nothing is unlocked for it once the delay and the lease and grace times have passed. */
  lemma SurvivalIsBounded(h: History, k: nat, i: nat, p: Id, delay: Time)
    requires Valid(h) && Prompt(h, delay) && delay >= 0
    requires k < i < |h.events| && Over(h.worlds[k + 1].authority, p, h.events[k].now)
    requires IsUnlocked(VerdictAt(h, i)) && VerdictAt(h, i).lease.value.license == p
    ensures h.events[i].now < h.events[k].now + delay + LEASE_TTL + LEASE_GRACE
  {
    var j, m := UnlockedHasLiveLease(h, i);
    CheckedBeforeTheEnd(h, k, j, p);
    ClockAdvances(h, j, k);
    assert PromptAt(h.worlds[m], h.events[m], delay);
    AboardAt(h, h.events[m].action.ticket, p, j, m, m);
  }

  /** No call for licence `p` is in flight. */
  ghost predicate NoneAboard(w: World, p: Id) {
    forall t, since :: !InFlight(w, t, p, since)
  }

  lemma LandedBefore(h: History, t: Id, p: Id, j: nat, k: nat, m: nat)
    requires Shaped(h) && Aboard(h, t, p, j, m) && j <= k < |h.events| && NoneAboard(h.worlds[k + 1], p)
    ensures m <= k
  {
  }

  /** Without the delay where no call for `p` was in flight when the licence ended. */
  lemma SurvivalWithoutFlights(h: History, k: nat, i: nat, p: Id)
    requires Valid(h) && k < i < |h.events| && Over(h.worlds[k + 1].authority, p, h.events[k].now)
    requires NoneAboard(h.worlds[k + 1], p)
    requires IsUnlocked(VerdictAt(h, i)) && VerdictAt(h, i).lease.value.license == p
    ensures h.events[i].now < h.events[k].now + LEASE_TTL + LEASE_GRACE
  {
    var j, m := UnlockedHasLiveLease(h, i);
    CheckedBeforeTheEnd(h, k, j, p);
    LandedBefore(h, h.events[m].action.ticket, p, j, k, m);
    ClockAdvances(h, m, k);
  }

  /** An event that ended licence row `l`: a revocation or a deletion that succeeded. */
  ghost predicate Ends(w: World, e: Event, l: Id) {
    e.action.Authority? &&
    match e.action.step
    case StepRevoke(m, now, row) => m == l && now == e.now && Revoke(w.authority, l, now, row).1 == Done
    case StepDelete(m) => m == l && l in w.authority.licenses && Delete(w.authority, l).1 == Done
    case _ => false
  }

  lemma EndIsOver(w: World, e: Event, l: Id)
    requires WorldOk(w) && Possible(w, e) && Ends(w, e, l)
    ensures l in w.authority.licenses && Over(AuthorityIn(w, e), w.authority.licenses[l].publicId, e.now)
  {
    match e.action.step
    case StepRevoke(_, now, row) => RevokeEnds(w.authority, l, now, row);
    case StepDelete(_) => DeleteEnds(w.authority, l, e.now);
    case _ =>
  }

  /** With the default settings nothing is unlocked for a licence 345600 s, and the longest delay of a call, after it
      was revoked or deleted. */
  lemma EndedWithinFourDays(h: History, k: nat, i: nat, l: Id, delay: Time)
    requires Valid(h) && Prompt(h, delay) && delay >= 0
    requires k < i < |h.events| && Ends(h.worlds[k], h.events[k], l)
    requires h.events[i].now >= h.events[k].now + delay + 345_600 * SECOND && IsUnlocked(VerdictAt(h, i))
    ensures l in h.worlds[k].authority.licenses && VerdictAt(h, i).lease.Some?
    ensures VerdictAt(h, i).lease.value.license != h.worlds[k].authority.licenses[l].publicId
  {
    WorldsOk(h, k);
    assert StepAt(h, k);
    EndIsOver(h.worlds[k], h.events[k], l);
    var j, m := UnlockedHasLiveLease(h, i);
    var p := h.worlds[k].authority.licenses[l].publicId;
    if VerdictAt(h, i).lease.value.license == p {
      SurvivalIsBounded(h, k, i, p, delay);
    }
  }
}
