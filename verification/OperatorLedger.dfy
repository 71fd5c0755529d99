/** Runs of the operator console: sessions follow the table of users, and an administrator is always left. */
module OperatorLedger {
  import opened Basics
  import opened Roles
  import opened RateProtocol
  import opened SessionProtocol
  import opened OperatorProtocol

  /** One request, with the cookie it carries. */
  datatype Step =
    | LoginStep(ip: string, credentials: Credentials, newSid: string)
    | VisitStep(sid: string, permission: string)
    | LogoutStep(sid: string)
    | CreateStep(sid: string, email: string, username: string, role: Role, password: Option<string>)
    | UpdateStep(sid: string, id: nat, body: UserUpdate)
    | ResetStep(sid: string, id: nat, password: Option<string>)
    | DeleteStep(sid: string, id: nat)
    | PasswordStep(sid: string, current: string, next: string)
    | EmailStep(sid: string, email: string)

  datatype Timed = Timed(step: Step, now: Time)

  function Needs(step: Step): string {
    match step
    case VisitStep(_, permission) => permission
    case DeleteStep(_, _) => USER_DELETE
    case _ => USER_WRITE
  }

  /** What a request does once its permission is granted to `actor`. */
  function Perform(s: OperatorState, step: Step, actor: nat): OperatorState {
    match step
    case CreateStep(_, email, username, role, password) => CreateUser(s, email, username, role, password).0
    case UpdateStep(_, id, body) => UpdateUser(s, actor, id, body).0
    case ResetStep(_, id, password) => ResetPassword(s, id, password).0
    case DeleteStep(_, id) => DeleteUser(s, actor, id).0
    case PasswordStep(_, current, next) => ChangePassword(s, actor, current, next).0
    case EmailStep(_, email) => ChangeEmail(s, actor, email).0
    case _ => s
  }

  function Guarded(s: OperatorState, p: Policy, step: Step, sid: string, now: Time): OperatorState {
    var (after, reply) := RequirePerm(s, p, sid, Needs(step), now);
    if reply.Done? then Perform(after, step, reply.id) else after
  }

  /** Requests about the operator itself need a session only. */
  function Own(s: OperatorState, p: Policy, step: Step, sid: string, now: Time): OperatorState {
    var (after, session) := CurrentUser(s, p, sid, now);
    if session.Some? then Perform(after, step, session.value.userId) else after
  }

  function Next(s: OperatorState, p: Policy, step: Step, now: Time): OperatorState {
    match step
    case LoginStep(ip, credentials, newSid) => Login(s, p, ip, credentials, newSid, now).0
    case LogoutStep(sid) => Logout(s, p, sid, now).0
    case PasswordStep(sid, _, _) => Own(s, p, step, sid, now)
    case EmailStep(sid, _) => Own(s, p, step, sid, now)
    case _ => Guarded(s, p, step, step.sid, now)
  }

  function Run(s: OperatorState, p: Policy, steps: seq<Timed>): OperatorState {
    if steps == [] then s
    else
      var last := steps[|steps| - 1];
      Next(Run(s, p, steps[..|steps| - 1]), p, last.step, last.now)
  }

  // --------------------------------------------------------------------------------------------- sessions

  /** A session's user may log in, has the session's role, and is indexed under; its key ends with the second of its
      absolute expiry at the latest. */
  predicate SessionOk(users: seq<User>, store: SessionState, sid: string)
    requires sid in store.sessions
  {
    var session := store.sessions[sid];
    && session.userId < |users|
    && users[session.userId].active && !users[session.userId].deleted
    && users[session.userId].role == session.role && session.permissions == PermissionsFor(session.role)
    && sid in Members(store, session.userId)
    && session.expires < (session.absoluteExpiry + 1) * SECOND
  }

  predicate SessionsOk(users: seq<User>, store: SessionState) {
    forall sid :: sid in store.sessions ==> SessionOk(users, store, sid)
  }

  lemma SecondsOf(now: Time)
    ensures Seconds(now) * SECOND <= now < (Seconds(now) + 1) * SECOND
  {
  }

  lemma CreateOk(users: seq<User>, store: SessionState, p: SessionPolicy, sid: string, id: nat, now: Time)
    requires SessionsOk(users, store) && p.idle <= p.absolute
    requires id < |users| && users[id].active && !users[id].deleted
    ensures SessionsOk(users, Create(store, p, sid, id, users[id].role, now))
  {
    SecondsOf(now);
    var after := Create(store, p, sid, id, users[id].role, now);
    forall other | other in after.sessions ensures SessionOk(users, after, other) {
      if other != sid {
        assert SessionOk(users, store, other);
      }
    }
  }

  lemma GetOk(users: seq<User>, store: SessionState, p: SessionPolicy, sid: string, now: Time)
    requires SessionsOk(users, store)
    ensures SessionsOk(users, Get(store, p, sid, now).0)
  {
    SecondsOf(now);
    var after := Get(store, p, sid, now).0;
    DestroyOk(users, store, sid, now);
    if Live(store, sid, now) && Seconds(now) < store.sessions[sid].absoluteExpiry {
      assert SessionOk(users, store, sid);
      forall other | other in after.sessions ensures SessionOk(users, after, other) {
        assert SessionOk(users, store, other);
      }
    }
  }

  lemma DestroyOk(users: seq<User>, store: SessionState, sid: string, now: Time)
    requires SessionsOk(users, store)
    ensures SessionsOk(users, Destroy(store, sid, now))
  {
    var after := Destroy(store, sid, now);
    forall other | other in after.sessions ensures SessionOk(users, after, other) {
      assert SessionOk(users, store, other);
    }
  }

  /** After a global logout the user's row may change in any way: no session of theirs is left. */
  lemma DestroyAllOk(users: seq<User>, store: SessionState, id: nat, row: User)
    requires SessionsOk(users, store) && id < |users|
    ensures SessionsOk(users[id := row], DestroyAll(store, id))
    ensures forall sid :: sid in DestroyAll(store, id).sessions ==> store.sessions[sid].userId != id
  {
    var after := DestroyAll(store, id);
    forall sid | sid in after.sessions
      ensures SessionOk(users[id := row], after, sid) && store.sessions[sid].userId != id
    {
      assert SessionOk(users, store, sid);
    }
  }

  /** A change to a row that leaves its role and its right to log in alone. */
  lemma RowChangeOk(users: seq<User>, store: SessionState, id: nat, row: User)
    requires SessionsOk(users, store) && id < |users|
    requires row.role == users[id].role && (users[id].active ==> row.active) && (!users[id].deleted ==> !row.deleted)
    ensures SessionsOk(users[id := row], store)
  {
    forall sid | sid in store.sessions ensures SessionOk(users[id := row], store, sid) {
      assert SessionOk(users, store, sid);
    }
  }

  lemma PerformOk(s: OperatorState, step: Step, actor: nat)
    requires SessionsOk(s.users, s.store)
    ensures SessionsOk(Perform(s, step, actor).users, Perform(s, step, actor).store)
  {
    match step
    case CreateStep(_, email, username, role, password) =>
      var after := CreateUser(s, email, username, role, password).0;
      forall sid | sid in s.store.sessions ensures SessionOk(after.users, s.store, sid) {
        assert SessionOk(s.users, s.store, sid);
      }
    case UpdateStep(_, id, body) => UpdateOk(s, actor, id, body);
    case ResetStep(_, id, password) =>
      if Present(s.users, id) {
        DestroyAllOk(s.users, s.store, id, ResetPassword(s, id, password).0.users[id]);
        assert ResetPassword(s, id, password).0.users == s.users[id := ResetPassword(s, id, password).0.users[id]];
      }
    case DeleteStep(_, id) =>
      if Present(s.users, id) {
        DestroyAllOk(s.users, s.store, id, s.users[id].(deleted := true));
      }
    case PasswordStep(_, current, next) =>
      if Present(s.users, actor) {
        RowChangeOk(s.users, s.store, actor, s.users[actor].(password := next));
      }
    case EmailStep(_, email) =>
      if Present(s.users, actor) {
        RowChangeOk(s.users, s.store, actor, s.users[actor].(email := email));
      }
    case _ =>
  }

  lemma UpdateOk(s: OperatorState, actor: nat, id: nat, body: UserUpdate)
    requires SessionsOk(s.users, s.store)
    ensures SessionsOk(UpdateUser(s, actor, id, body).0.users, UpdateUser(s, actor, id, body).0.store)
  {
    if UpdateUser(s, actor, id, body).1.Done? {
      var u := s.users[id];
      if ChangesRole(u, body) || Disables(u, body) {
        DestroyAllOk(s.users, s.store, id, Updated(u, body));
      } else {
        RowChangeOk(s.users, s.store, id, Updated(u, body));
      }
    }
  }

  lemma LoginOk(s: OperatorState, p: Policy, ip: string, c: Credentials, sid: string, now: Time)
    requires SessionsOk(s.users, s.store) && p.sessions.idle <= p.sessions.absolute
    ensures SessionsOk(Login(s, p, ip, c, sid, now).0.users, Login(s, p, ip, c, sid, now).0.store)
  {
    var (rates, verdict) := Hit(s.rates, "login_ip:" + ip, p.loginsPerMinute, 60, now);
    if verdict.Admitted? {
      var (_, reply) := Authenticate(s.users, rates, p.login, c, now);
      if reply.Done? {
        CreateOk(s.users, s.store, p.sessions, sid, reply.id, now);
      }
    }
  }

  lemma NextOk(s: OperatorState, p: Policy, step: Step, now: Time)
    requires SessionsOk(s.users, s.store) && p.sessions.idle <= p.sessions.absolute
    ensures SessionsOk(Next(s, p, step, now).users, Next(s, p, step, now).store)
  {
    if step.LoginStep? {
      LoginOk(s, p, step.ip, step.credentials, step.newSid, now);
    } else {
      var (after, session) := CurrentUser(s, p, step.sid, now);
      GetOk(s.users, s.store, p.sessions, step.sid, now);
      if session.Some? {
        PerformOk(after, step, session.value.userId);
        DestroyOk(after.users, after.store, step.sid, now);
      }
    }
  }

  /** In every reachable state each stored session is in its user's index, its user is active, undeleted and of the
      session's role, and its key ends with its absolute expiry. */
  lemma {:induction false} SessionsRun(s: OperatorState, p: Policy, steps: seq<Timed>)
    requires SessionsOk(s.users, s.store) && p.sessions.idle <= p.sessions.absolute
    ensures SessionsOk(Run(s, p, steps).users, Run(s, p, steps).store)
  {
    if steps != [] {
      var before, last := steps[..|steps| - 1], steps[|steps| - 1];
      SessionsRun(s, p, before);
      NextOk(Run(s, p, before), p, last.step, last.now);
    }
  }

  lemma PermissionsAreRoles(role: Role, permission: string)
    requires permission != "*"
    ensures "*" in PermissionsFor(role) || permission in PermissionsFor(role) <==> RoleHas(role, permission)
  {
  }

  /** A request is accepted exactly when its session is live before its absolute expiry and the role its user holds
      now grants the permission; it is then accepted for that user. */
  lemma AcceptedIffRoleGrants(
      s: OperatorState, p: Policy, steps: seq<Timed>, sid: string, permission: string, now: Time)
    requires SessionsOk(s.users, s.store) && p.sessions.idle <= p.sessions.absolute && permission != "*"
    ensures var t := Run(s, p, steps);
      RequirePerm(t, p, sid, permission, now).1.Done? <==>
        && sid != "" && Live(t.store, sid, now)
        && now < t.store.sessions[sid].absoluteExpiry * SECOND
        && t.store.sessions[sid].userId < |t.users|
        && RoleHas(t.users[t.store.sessions[sid].userId].role, permission)
    ensures var t := Run(s, p, steps);
      var reply := RequirePerm(t, p, sid, permission, now).1;
      reply.Done? ==> reply.id == t.store.sessions[sid].userId && t.users[reply.id].active && !t.users[reply.id].deleted
  {
    var t := Run(s, p, steps);
    SessionsRun(s, p, steps);
    SecondsOf(now);
    if sid in t.store.sessions {
      assert SessionOk(t.users, t.store, sid);
      PermissionsAreRoles(t.store.sessions[sid].role, permission);
    }
  }

  /** A demoted, disabled, deleted or reset operator has no session left the moment the request is done. */
  lemma LoggedOutAtOnce(s: OperatorState, actor: nat, id: nat, body: UserUpdate, password: Option<string>)
    requires SessionsOk(s.users, s.store) && Present(s.users, id)
    ensures var (after, reply) := UpdateUser(s, actor, id, body);
      reply.Done? && (after.users[id].role != s.users[id].role || (s.users[id].active && !after.users[id].active)) ==>
        forall sid :: sid in after.store.sessions ==> after.store.sessions[sid].userId != id
    ensures var (after, reply) := DeleteUser(s, actor, id);
      reply.Done? ==> forall sid :: sid in after.store.sessions ==> after.store.sessions[sid].userId != id
    ensures forall sid :: sid in ResetPassword(s, id, password).0.store.sessions ==>
      ResetPassword(s, id, password).0.store.sessions[sid].userId != id
  {
    DestroyAllOk(s.users, s.store, id, s.users[id]);
  }

  /** An operator's own change of password logs nobody out, unlike a reset: a request accepted before it is accepted
      after it. */
  lemma OwnPasswordKeepsSessions(s: OperatorState, p: Policy, actor: nat, current: string, next: string,
                                 sid: string, permission: string, now: Time)
    requires RequirePerm(s, p, sid, permission, now).1.Done?
    ensures RequirePerm(ChangePassword(s, actor, current, next).0, p, sid, permission, now).1
      == RequirePerm(s, p, sid, permission, now).1
  {
  }

  /** Some login of the run began session `sid`, with this absolute expiry. */
  ghost predicate FromLogin(steps: seq<Timed>, p: Policy, sid: string, absoluteExpiry: int) {
    exists i :: 0 <= i < |steps| && steps[i].step.LoginStep? && steps[i].step.newSid == sid
      && absoluteExpiry == Seconds(steps[i].now) + p.sessions.absolute
  }

  lemma PerformKeepsExpiry(s: OperatorState, step: Step, actor: nat, sid: string)
    requires sid in Perform(s, step, actor).store.sessions
    ensures sid in s.store.sessions && Perform(s, step, actor).store.sessions[sid] == s.store.sessions[sid]
  {
  }

  lemma NextKeepsExpiry(s: OperatorState, p: Policy, step: Step, now: Time, sid: string)
    requires sid in Next(s, p, step, now).store.sessions
    ensures (step.LoginStep? && step.newSid == sid
             && Next(s, p, step, now).store.sessions[sid].absoluteExpiry == Seconds(now) + p.sessions.absolute)
         || (sid in s.store.sessions
             && Next(s, p, step, now).store.sessions[sid].absoluteExpiry == s.store.sessions[sid].absoluteExpiry)
  {
    if !step.LoginStep? {
      var (after, session) := CurrentUser(s, p, step.sid, now);
      if session.Some? && !step.LogoutStep? {
        var done := Perform(after, step, session.value.userId);
        if sid in done.store.sessions {
          PerformKeepsExpiry(after, step, session.value.userId, sid);
        }
      }
    }
  }

  /** A request that names session `sid`, or the login that begins it. */
  predicate Carries(step: Step, sid: string) {
    if step.LoginStep? then step.newSid == sid else step.sid == sid
  }

  lemma NextKeepsSession(s: OperatorState, p: Policy, step: Step, now: Time, sid: string)
    requires !Carries(step, sid) && sid in Next(s, p, step, now).store.sessions
    ensures sid in s.store.sessions && Next(s, p, step, now).store.sessions[sid] == s.store.sessions[sid]
  {
    if !step.LoginStep? {
      var (after, session) := CurrentUser(s, p, step.sid, now);
      if session.Some? && !step.LogoutStep? {
        var done := Perform(after, step, session.value.userId);
        if sid in done.store.sessions {
          PerformKeepsExpiry(after, step, session.value.userId, sid);
        }
      }
    }
  }

  lemma {:induction false} RunKeepsSession(s: OperatorState, p: Policy, steps: seq<Timed>, sid: string)
    requires forall i :: 0 <= i < |steps| ==> !Carries(steps[i].step, sid)
    requires sid in Run(s, p, steps).store.sessions
    ensures sid in s.store.sessions && Run(s, p, steps).store.sessions[sid] == s.store.sessions[sid]
  {
    if steps != [] {
      var before, last := steps[..|steps| - 1], steps[|steps| - 1];
      NextKeepsSession(Run(s, p, before), p, last.step, last.now, sid);
      RunKeepsSession(s, p, before, sid);
    }
  }

  lemma UseRenews(s: OperatorState, p: Policy, use: Timed, sid: string)
    requires Carries(use.step, sid) && sid != "" && p.sessions.idle >= 0
    requires use.step.LoginStep? ==> Login(s, p, use.step.ip, use.step.credentials, sid, use.now).1.Done?
    ensures var after := Next(s, p, use.step, use.now).store;
      sid in after.sessions ==> after.sessions[sid].expires <= use.now + p.sessions.idle * SECOND
  {
    if !use.step.LoginStep? {
      var (after, session) := CurrentUser(s, p, sid, use.now);
      if session.Some? && !use.step.LogoutStep? {
        var done := Perform(after, use.step, session.value.userId);
        if sid in done.store.sessions {
          PerformKeepsExpiry(after, use.step, session.value.userId, sid);
        }
      }
    }
  }

  /** A session is over once no request has carried it for the idle time, whatever else goes on meanwhile. */
  lemma IdleSessionsEnd(s: OperatorState, p: Policy, use: Timed, steps: seq<Timed>, sid: string,
                        permission: string, later: Time)
    requires Carries(use.step, sid) && sid != "" && p.sessions.idle >= 0
    requires use.step.LoginStep? ==> Login(s, p, use.step.ip, use.step.credentials, sid, use.now).1.Done?
    requires forall i :: 0 <= i < |steps| ==> !Carries(steps[i].step, sid)
    requires later >= use.now + p.sessions.idle * SECOND
    ensures RequirePerm(Run(Next(s, p, use.step, use.now), p, steps), p, sid, permission, later).1
      == Refused(AuthRequired)
  {
    var after := Next(s, p, use.step, use.now);
    UseRenews(s, p, use, sid);
    if sid in Run(after, p, steps).store.sessions {
      RunKeepsSession(after, p, steps, sid);
    }
  }

  /** Renewal never moves an absolute expiry: every stored session has the one its login gave it. */
  lemma {:induction false} ExpirySetAtLogin(s: OperatorState, p: Policy, steps: seq<Timed>, sid: string)
    requires s.store.sessions == map[] && sid in Run(s, p, steps).store.sessions
    ensures FromLogin(steps, p, sid, Run(s, p, steps).store.sessions[sid].absoluteExpiry)
  {
    if steps != [] {
      var before, last := steps[..|steps| - 1], steps[|steps| - 1];
      NextKeepsExpiry(Run(s, p, before), p, last.step, last.now, sid);
      if sid in Run(s, p, before).store.sessions {
        ExpirySetAtLogin(s, p, before, sid);
      }
    }
  }

  // ---------------------------------------------------------------------------------------- administrators

  lemma {:induction false} CountUpdate(users: seq<User>, id: nat, row: User)
    requires id < |users|
    ensures ActiveSuperAdmins(users[id := row]) == ActiveSuperAdmins(users)
      - (if IsActiveSuperAdmin(users[id]) then 1 else 0) + (if IsActiveSuperAdmin(row) then 1 else 0)
  {
    var last := |users| - 1;
    if id < last {
      CountUpdate(users[..last], id, row);
      assert users[id := row][..last] == users[..last][id := row];
    } else {
      assert users[id := row][..last] == users[..last];
    }
  }

  lemma PerformKeepsAdmin(s: OperatorState, step: Step, actor: nat)
    requires ActiveSuperAdmins(s.users) >= 1
    ensures ActiveSuperAdmins(Perform(s, step, actor).users) >= 1
  {
    match step
    case CreateStep(_, email, username, role, password) =>
      var after := CreateUser(s, email, username, role, password).0;
      assert |after.users| > |s.users| ==> after.users[..|s.users|] == s.users;
    case UpdateStep(_, id, body) =>
      if Present(s.users, id) {
        CountUpdate(s.users, id, Updated(s.users[id], body));
      }
    case ResetStep(_, id, password) =>
      if Present(s.users, id) {
        CountUpdate(
          s.users, id, s.users[id].(password := if password.Some? then password.value else s.users[id].email));
      }
    case DeleteStep(_, id) =>
      if Present(s.users, id) {
        CountUpdate(s.users, id, s.users[id].(deleted := true));
      }
    case PasswordStep(_, current, next) =>
      if Present(s.users, actor) {
        CountUpdate(s.users, actor, s.users[actor].(password := next));
      }
    case EmailStep(_, email) =>
      if Present(s.users, actor) {
        CountUpdate(s.users, actor, s.users[actor].(email := email));
      }
    case _ =>
  }

  /** From any state with an active super-admin, every run by any operators keeps at least one. */
  lemma {:induction false} AlwaysAnAdministrator(s: OperatorState, p: Policy, steps: seq<Timed>)
    requires ActiveSuperAdmins(s.users) >= 1
    ensures ActiveSuperAdmins(Run(s, p, steps).users) >= 1
  {
    if steps != [] {
      var before, last := steps[..|steps| - 1], steps[|steps| - 1];
      AlwaysAnAdministrator(s, p, before);
      var t := Run(s, p, before);
      if !last.step.LoginStep? {
        var (after, session) := CurrentUser(t, p, last.step.sid, last.now);
        if session.Some? {
          PerformKeepsAdmin(after, last.step, session.value.userId);
        }
      }
    }
  }

  // ----------------------------------------------------------------------------------------------- addresses

  /** No two rows, deleted ones included, have the same address. */
  predicate EmailsUnique(users: seq<User>) {
    forall i, j :: 0 <= i < j < |users| ==> users[i].email != users[j].email
  }

  lemma {:induction false} FindsTheHolder(users: seq<User>, email: string, includeDeleted: bool, id: nat)
    requires id < |users| && users[id].email == email && (includeDeleted || !users[id].deleted)
    ensures FindByEmail(users, email, includeDeleted).Some?
    ensures EmailsUnique(users) ==> FindByEmail(users, email, includeDeleted) == Some(id)
  {
    var last := |users| - 1;
    if id < last {
      FindsTheHolder(users[..last], email, includeDeleted, id);
    }
  }

  lemma PerformKeepsEmails(s: OperatorState, step: Step, actor: nat)
    requires EmailsUnique(s.users)
    ensures EmailsUnique(Perform(s, step, actor).users)
  {
    if step.CreateStep? {
      forall i: nat | i < |s.users| && s.users[i].email == step.email
        ensures FindByEmail(s.users, step.email, true).Some?
      {
        FindsTheHolder(s.users, step.email, true, i);
      }
    } else if step.EmailStep? {
      forall i: nat | i < |s.users| && s.users[i].email == step.email
        ensures FindByEmail(s.users, step.email, true) == Some(i)
      {
        FindsTheHolder(s.users, step.email, true, i);
      }
    }
  }

  /** Addresses stay unique over every run, so an address names at most one account. */
  lemma {:induction false} EmailsRun(s: OperatorState, p: Policy, steps: seq<Timed>)
    requires EmailsUnique(s.users)
    ensures EmailsUnique(Run(s, p, steps).users)
  {
    if steps != [] {
      var before, last := steps[..|steps| - 1], steps[|steps| - 1];
      EmailsRun(s, p, before);
      var t := Run(s, p, before);
      if !last.step.LoginStep? {
        var (after, session) := CurrentUser(t, p, last.step.sid, last.now);
        if session.Some? {
          PerformKeepsEmails(after, last.step, session.value.userId);
        }
      }
    }
  }

  // --------------------------------------------------------------------------------------------- accounts

  /** Whom a login admits: exactly the present, active account with that address, its password and, if it has a second
      factor, a valid code, while the address is not locked. */
  lemma LoginAdmitsExactly(users: seq<User>, rates: RateState, p: LoginPolicy, c: Credentials, now: Time, id: nat)
    requires EmailsUnique(users)
    ensures Authenticate(users, rates, p, c, now).1 == Done(id) <==>
      && !Locked(rates, c.email, now)
      && Present(users, id) && users[id].email == c.email && users[id].password == c.password && users[id].active
      && (users[id].twofa ==> c.code.Some? && c.code.value != "" && c.totpOk)
  {
    if Present(users, id) && users[id].email == c.email {
      FindsTheHolder(users, c.email, false, id);
    }
  }

  /** A new account may log in at once, with its address as password if none was given. */
  lemma NewUserLogsIn(s: OperatorState, email: string, username: string, role: Role, password: Option<string>,
                      p: LoginPolicy, now: Time)
    requires EmailsUnique(s.users) && CreateUser(s, email, username, role, password).1.Done?
    requires !Locked(s.rates, email, now)
    ensures var secret := if password.Some? then password.value else email;
      Authenticate(CreateUser(s, email, username, role, password).0.users, s.rates, p,
                   Credentials(email, secret, None, false), now).1 == Done(|s.users|)
  {
    var step := CreateStep("", email, username, role, password);
    PerformKeepsEmails(s, step, 0);
    var secret := if password.Some? then password.value else email;
    LoginAdmitsExactly(Perform(s, step, 0).users, s.rates, p, Credentials(email, secret, None, false), now, |s.users|);
  }

  /** A deleted or disabled account cannot log in, whatever is presented. */
  lemma RemovedUserStaysOut(s: OperatorState, actor: nat, id: nat, body: UserUpdate, p: LoginPolicy, c: Credentials,
                            now: Time)
    requires EmailsUnique(s.users) && Present(s.users, id) && body.active == Set(false)
    ensures DeleteUser(s, actor, id).1.Done? ==>
      Authenticate(DeleteUser(s, actor, id).0.users, s.rates, p, c, now).1 != Done(id)
    ensures UpdateUser(s, actor, id, body).1.Done? ==>
      Authenticate(UpdateUser(s, actor, id, body).0.users, s.rates, p, c, now).1 != Done(id)
  {
    PerformKeepsEmails(s, DeleteStep("", id), actor);
    PerformKeepsEmails(s, UpdateStep("", id, body), actor);
    LoginAdmitsExactly(DeleteUser(s, actor, id).0.users, s.rates, p, c, now, id);
    LoginAdmitsExactly(UpdateUser(s, actor, id, body).0.users, s.rates, p, c, now, id);
  }
}
