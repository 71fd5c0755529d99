/** What the operator requests answer and write, in the fields of the requests and the rows. */
module OperatorRules {
  import opened Basics
  import opened Roles
  import opened RateProtocol
  import opened SessionProtocol
  import opened OperatorProtocol
  import opened OperatorLedger
  import L = LoginBounds

  // ----- roles -----

  /** What each role may do: a super-admin everything, an admin eight things, an auditor three. */
  lemma RolesExactly(role: Role, permission: string)
    ensures RoleHas(role, permission) <==>
      match role
      case SuperAdmin => true
      case Admin =>
        || permission == "platform.license.read" || permission == "platform.license.issue"
        || permission == "platform.license.update"
        || permission == "platform.product.read" || permission == "platform.product.write"
        || permission == "platform.customer.read" || permission == "platform.customer.write"
        || permission == "platform.crl.generate"
      case Auditor =>
        || permission == "platform.audit.read" || permission == "platform.audit.export"
        || permission == "platform.license.read"
  {
  }

  /** In every reachable state only a present, active super-admin may write or delete operators. */
  lemma OnlySuperAdminsManage(
      s: OperatorState, p: Policy, steps: seq<Timed>, sid: string, permission: string, now: Time)
    requires SessionsOk(s.users, s.store) && p.sessions.idle <= p.sessions.absolute
    requires permission == "platform.user.write" || permission == "platform.user.delete"
    ensures var t := Run(s, p, steps);
      var reply := RequirePerm(t, p, sid, permission, now).1;
      reply.Done? ==> reply.id < |t.users| && t.users[reply.id].role == SuperAdmin && t.users[reply.id].active
                      && !t.users[reply.id].deleted
  {
    AcceptedIffRoleGrants(s, p, steps, sid, permission, now);
    var t := Run(s, p, steps);
    if RequirePerm(t, p, sid, permission, now).1.Done? {
      RolesExactly(t.users[t.store.sessions[sid].userId].role, permission);
    }
  }

  /** The account of the session a request carries, if the session's key lives. */
  ghost predicate Carrier(s: OperatorState, step: Step, now: Time, id: nat) {
    && !step.LoginStep? && step.sid in s.store.sessions && now < s.store.sessions[step.sid].expires
    && s.store.sessions[step.sid].userId == id < |s.users| && s.users[id].active && !s.users[id].deleted
  }

  /** Two tables of users that agree but for row `id`. */
  ghost predicate OthersSame(users: seq<User>, after: seq<User>, id: nat) {
    |users| == |after| && forall i :: 0 <= i < |users| && i != id ==> after[i] == users[i]
  }

  /** In every reachable state a request changes the table of users only if a present, active super-admin sends it, or
      an operator who changes the own row. */
  lemma OnlySuperAdminsWrite(s: OperatorState, p: Policy, steps: seq<Timed>, step: Step, now: Time) returns (id: nat)
    requires SessionsOk(s.users, s.store) && p.sessions.idle <= p.sessions.absolute
    requires Next(Run(s, p, steps), p, step, now).users != Run(s, p, steps).users
    ensures var t := Run(s, p, steps);
      && Carrier(t, step, now, id)
      && (t.users[id].role == SuperAdmin || OthersSame(t.users, Next(t, p, step, now).users, id))
  {
    var t := Run(s, p, steps);
    SessionsRun(s, p, steps);
    id := t.store.sessions[step.sid].userId;
    assert SessionOk(t.users, t.store, step.sid);
    if !step.PasswordStep? && !step.EmailStep? {
      OnlySuperAdminsManage(s, p, steps, step.sid, Needs(step), now);
    }
  }

  // ----- login -----

  /** A present account with this address and password. */
  predicate Known(users: seq<User>, c: Credentials, id: nat) {
    id < |users| && !users[id].deleted && users[id].email == c.email && users[id].password == c.password
  }

  predicate GivesCode(c: Credentials) {
    c.code.Some? && c.code.value != ""
  }

  /** The failures and locks of every other address stay, and this one has none. */
  predicate Cleared(before: RateState, after: RateState, email: string) {
    && after.buckets == before.buckets
    && after.failures == before.failures - {email} && after.locks == before.locks - {email}
  }

  /** Every answer of a login, and what it does to the counters. */
  lemma LoginAnswers(users: seq<User>, rates: RateState, p: LoginPolicy, c: Credentials, now: Time, id: nat)
    requires EmailsUnique(users)
    ensures var (after, reply) := Authenticate(users, rates, p, c, now);
      if c.email in rates.locks && now < rates.locks[c.email] then (after, reply) == (rates, Refused(AccountLocked))
      else if forall i: nat :: !Known(users, c, i) then
        (after, reply) == (RecordLoginFailure(rates, p, c.email, now), Refused(InvalidCredentials))
      else Known(users, c, id) ==>
        if !users[id].active then (after, reply) == (rates, Refused(AccountDisabled))
        else if users[id].twofa && !GivesCode(c) then (after, reply) == (rates, Refused(CodeRequired))
        else if users[id].twofa && !c.totpOk then
          (after, reply) == (RecordLoginFailure(rates, p, c.email, now), Refused(CodeInvalid))
        else reply == Done(id) && Cleared(rates, after, c.email)
  {
    if Known(users, c, id) {
      FindsTheHolder(users, c.email, false, id);
    }
    var found := FindByEmail(users, c.email, false);
    assert found.Some? && users[found.value].password == c.password ==> Known(users, c, found.value);
  }

  /** How many logins of the address `ip` the present minute has seen. */
  function LoginsThisMinute(rates: RateState, ip: string, now: Time): nat {
    var bucket := ("login_ip:" + ip, now / SECOND / 60);
    if bucket in rates.buckets && now < rates.buckets[bucket].expires then rates.buckets[bucket].count else 0
  }

  /** The session a login begins: of the account and its present role, with the idle and the absolute time of the
      policy. */
  predicate Begun(session: Session, user: User, id: nat, p: SessionPolicy, now: Time) {
    && session.userId == id && session.role == user.role
    && session.permissions == PermissionsFor(user.role)
    && session.absoluteExpiry == now / SECOND + p.absolute && session.expires == now + p.idle * SECOND
  }

  /** A login is counted first, and refused when its minute is full; it begins one session, and that only if the
      account is authenticated. */
  lemma LoginWrites(s: OperatorState, p: Policy, ip: string, c: Credentials, sid: string, now: Time)
    ensures var (after, reply) := Login(s, p, ip, c, sid, now);
      && after.users == s.users
      && LoginsThisMinute(after.rates, ip, now) == LoginsThisMinute(s.rates, ip, now) + 1
      && (reply == Refused(LoginBlocked) <==> LoginsThisMinute(s.rates, ip, now) >= p.loginsPerMinute)
      && (reply.Refused? ==> after.store == s.store)
      && (reply.Done? ==>
            && reply.id < |s.users| && sid in after.store.sessions
            && after.store.sessions == s.store.sessions[sid := after.store.sessions[sid]]
            && Begun(after.store.sessions[sid], s.users[reply.id], reply.id, p.sessions, now)
            && sid in Members(after.store, reply.id))
  {
  }

  // ----- sessions -----

  /** A session that is looked up while its key lives is kept alive for the idle time, but not beyond its absolute
      expiry; at that it is gone.  No other session changes. */
  lemma LookupRenews(s: SessionState, p: SessionPolicy, sid: string, now: Time, other: string)
    ensures var (after, found) := Get(s, p, sid, now);
      && (found.Some? <==> sid in s.sessions && now < s.sessions[sid].expires
                           && now / SECOND < s.sessions[sid].absoluteExpiry)
      && (found.Some? ==>
            && found.value == s.sessions[sid] && after.index == s.index && sid in after.sessions
            && var left := s.sessions[sid].absoluteExpiry - now / SECOND;
               after.sessions[sid] == s.sessions[sid].(expires := now + Lesser(p.idle, left) * SECOND))
      && (found.None? && sid in s.sessions && now < s.sessions[sid].expires ==> sid !in after.sessions)
      && (other != sid ==> (other in after.sessions <==> other in s.sessions))
      && (other != sid && other in s.sessions ==> after.sessions[other] == s.sessions[other])
  {
  }

  function Lesser(a: int, b: int): int {
    if b < a then b else a
  }

  /** A request without a live session is told so, and one with a session whose role does not do is told that. */
  lemma RefusalsExactly(s: OperatorState, p: Policy, sid: string, permission: string, now: Time)
    ensures var reply := RequirePerm(s, p, sid, permission, now).1;
      var live := sid != "" && sid in s.store.sessions && now < s.store.sessions[sid].expires
                  && now / SECOND < s.store.sessions[sid].absoluteExpiry;
      && (reply == Refused(AuthRequired) || reply == Refused(PermDenied)
          || (live && reply == Done(s.store.sessions[sid].userId)))
      && (reply == Refused(AuthRequired) <==> !live)
      && (reply.Done? ==> s.store.sessions[sid].permissions * {"*", permission} != {}
                          || RoleHas(s.store.sessions[sid].role, permission))
  {
  }

  /** A logout with a live session ends that session and no other. */
  lemma LogoutEnds(s: OperatorState, p: Policy, sid: string, now: Time, other: string)
    requires Logout(s, p, sid, now).1.Done?
    ensures var (after, reply) := Logout(s, p, sid, now);
      && sid in s.store.sessions && reply.id == s.store.sessions[sid].userId
      && sid !in after.store.sessions && after.users == s.users && after.rates == s.rates
      && (p.sessions.idle > 0 ==> after.store.index == s.store.index[reply.id := Members(s.store, reply.id) - {sid}])
      && (other != sid && other in s.store.sessions ==>
            other in after.store.sessions && after.store.sessions[other] == s.store.sessions[other])
  {
  }

  /** A global logout ends the sessions of the user's index and no other. */
  lemma LogoutEverywhere(s: SessionState, id: nat, sid: string)
    ensures var after := DestroyAll(s, id);
      && (sid in after.sessions <==> sid in s.sessions && !(id in s.index && sid in s.index[id]))
      && (sid in after.sessions ==> after.sessions[sid] == s.sessions[sid])
      && after.index == s.index - {id}
  {
  }

  // ----- administration -----

  ghost predicate ActiveSuperAdmin(users: seq<User>, id: nat) {
    id < |users| && users[id].role == SuperAdmin && users[id].active && !users[id].deleted
  }

  ghost predicate TwoSuperAdmins(users: seq<User>) {
    exists i, j :: i != j && ActiveSuperAdmin(users, i) && ActiveSuperAdmin(users, j)
  }

  lemma {:induction false} OneCounted(users: seq<User>)
    ensures ActiveSuperAdmins(users) >= 1 <==> exists i :: ActiveSuperAdmin(users, i)
  {
    if users != [] {
      var init, last := users[..|users| - 1], |users| - 1;
      OneCounted(init);
      if i :| ActiveSuperAdmin(init, i) {
        assert ActiveSuperAdmin(users, i);
      }
      if i :| ActiveSuperAdmin(users, i) && i != last {
        assert ActiveSuperAdmin(init, i);
      }
      assert IsActiveSuperAdmin(users[last]) <==> ActiveSuperAdmin(users, last);
    }
  }

  lemma {:induction false} TwoCounted(users: seq<User>)
    ensures ActiveSuperAdmins(users) >= 2 <==> TwoSuperAdmins(users)
  {
    if users != [] {
      var init, last := users[..|users| - 1], |users| - 1;
      TwoCounted(init);
      OneCounted(init);
      assert forall i :: i != last ==> (ActiveSuperAdmin(users, i) <==> ActiveSuperAdmin(init, i));
      assert IsActiveSuperAdmin(users[last]) <==> ActiveSuperAdmin(users, last);
      if i, j :| i != j && ActiveSuperAdmin(users, i) && ActiveSuperAdmin(users, j) {
        if i != last && j != last {
          assert TwoSuperAdmins(init);
        }
      }
    }
  }

  /** A new account: refused if any row has the address, deleted ones included; else an active row with the role asked
      for, whose password is the one given or the address. */
  lemma CreateWrites(s: OperatorState, email: string, username: string, role: Role, password: Option<string>)
    ensures var (after, reply) := CreateUser(s, email, username, role, password);
      if exists i :: 0 <= i < |s.users| && s.users[i].email == email then (after, reply) == (s, Refused(Conflict))
      else
        && reply == Done(|s.users|) && |after.users| == |s.users| + 1 && after.users[..|s.users|] == s.users
        && after.store == s.store && after.rates == s.rates
        && var row := after.users[|s.users|];
           && row.email == email && row.username == username && row.role == role
           && row.password == (if password.Some? then password.value else email)
           && row.active && !row.deleted && !row.twofa
  {
    if i: nat :| 0 <= i < |s.users| && s.users[i].email == email {
      FindsTheHolder(s.users, email, true, i);
    }
  }

  /** Only row `id` is another, and it keeps what the predicates beside this one do not name. */
  ghost predicate OneRow(s: OperatorState, after: OperatorState, id: nat) {
    && id < |s.users| == |after.users| && after.rates == s.rates
    && forall i :: 0 <= i < |s.users| && i != id ==> after.users[i] == s.users[i]
  }

  /** The request takes the super-admin role away or disables an active account. */
  predicate Weakens(u: User, body: UserUpdate) {
    || (u.role == SuperAdmin && (body.role == Set(Admin) || body.role == Set(Auditor)))
    || (u.active && body.active == Set(false))
  }

  /** A column has the value asked for, or else the one it had. */
  predicate TakesField<T(==)>(now: T, before: T, field: Field<T>) {
    if field.Set? then now == field.value else now == before
  }

  /** An update: nobody weakens its own account, no request weakens a super-admin without another active one, a null
      is refused, and else the fields given are set; the sessions go when the role changed or the account was
      disabled. */
  lemma UpdateAnswers(s: OperatorState, actor: nat, id: nat, body: UserUpdate)
    ensures var (after, reply) := UpdateUser(s, actor, id, body);
      if id >= |s.users| || s.users[id].deleted then (after, reply) == (s, Refused(NotFound))
      else
        var u := s.users[id];
        if actor == id && Weakens(u, body) then (after, reply) == (s, Refused(SelfLockout))
        else if Weakens(u, body) && u.role == SuperAdmin && !TwoSuperAdmins(s.users) then
          (after, reply) == (s, Refused(LastSuperAdmin))
        else if body.username == Null || body.role == Null || body.active == Null then
          (after, reply) == (s, Refused(CommitFailed))
        else
          && reply == Done(id) && OneRow(s, after, id)
          && var row := after.users[id];
             && TakesField(row.username, u.username, body.username) && TakesField(row.role, u.role, body.role)
             && TakesField(row.active, u.active, body.active)
             && row.email == u.email && row.password == u.password && row.twofa == u.twofa && !row.deleted
             && after.store
                == if row.role != u.role || (u.active && !row.active) then DestroyAll(s.store, id) else s.store
  {
    TwoCounted(s.users);
  }

  /** A reset: the password given, or the address, and every session of the account ends. */
  lemma ResetWrites(s: OperatorState, id: nat, password: Option<string>)
    ensures var (after, reply) := ResetPassword(s, id, password);
      if id >= |s.users| || s.users[id].deleted then (after, reply) == (s, Refused(NotFound))
      else
        && reply == Done(id) && OneRow(s, after, id) && after.store == DestroyAll(s.store, id)
        && after.users[id].(password := "") == s.users[id].(password := "")
        && after.users[id].password == if password.Some? then password.value else s.users[id].email
  {
  }

  /** A deletion: not of oneself, nor of a super-admin without another active one. */
  lemma DeleteAnswers(s: OperatorState, actor: nat, id: nat)
    ensures var (after, reply) := DeleteUser(s, actor, id);
      if id >= |s.users| || s.users[id].deleted then (after, reply) == (s, Refused(NotFound))
      else if actor == id then (after, reply) == (s, Refused(SelfLockout))
      else if s.users[id].role == SuperAdmin && !TwoSuperAdmins(s.users) then
        (after, reply) == (s, Refused(LastSuperAdmin))
      else
        && reply == Done(id) && OneRow(s, after, id) && after.store == DestroyAll(s.store, id)
        && after.users[id].deleted && after.users[id].(deleted := false) == s.users[id]
  {
    TwoCounted(s.users);
  }

  /** An operator's own password and address. */
  lemma OwnAccountWrites(s: OperatorState, actor: nat, current: string, next: string, email: string)
    ensures var (after, reply) := ChangePassword(s, actor, current, next);
      if actor >= |s.users| || s.users[actor].deleted then (after, reply) == (s, Refused(AuthRequired))
      else if s.users[actor].password != current then (after, reply) == (s, Refused(InvalidCredentials))
      else
        && reply == Done(actor) && OneRow(s, after, actor) && after.store == s.store
        && after.users[actor] == s.users[actor].(password := next)
    ensures EmailsUnique(s.users) ==>
      var (after, reply) := ChangeEmail(s, actor, email);
      if actor >= |s.users| || s.users[actor].deleted then (after, reply) == (s, Refused(AuthRequired))
      else if exists i :: 0 <= i < |s.users| && i != actor && s.users[i].email == email then
        (after, reply) == (s, Refused(Conflict))
      else
        && reply == Done(actor) && OneRow(s, after, actor) && after.store == s.store
        && after.users[actor] == s.users[actor].(email := email)
  {
    if i: nat :| 0 <= i < |s.users| && i != actor && s.users[i].email == email {
      FindsTheHolder(s.users, email, true, i);
    }
  }

  // ----- the shipped settings -----

  /** Ten logins a minute from an address; a session idles out after twelve hours and ends after seven days. */
  lemma ShippedLogin(s: OperatorState, ip: string, c: Credentials, sid: string, now: Time)
    ensures var (after, reply) := Login(s, SHIPPED, ip, c, sid, now);
      && (reply == Refused(LoginBlocked) <==> LoginsThisMinute(s.rates, ip, now) >= 10)
      && (reply.Done? ==>
            && sid in after.store.sessions
            && after.store.sessions[sid].expires == now + 12 * 3600 * SECOND
            && after.store.sessions[sid].absoluteExpiry == now / SECOND + 7 * 24 * 3600)
  {
    LoginWrites(s, SHIPPED, ip, c, sid, now);
  }

  /** Eight wrong passwords in a quarter of an hour are the most. */
  lemma ShippedFailures(attempts: seq<L.Attempt>, email: string, i: nat, j: nat)
    requires L.ClockMonotone(attempts) && i <= j < |L.Failures(SHIPPED.login, attempts, email)|
    ensures var log := L.Failures(SHIPPED.login, attempts, email);
      log[j].now - log[i].now < 900 * SECOND ==> j - i + 1 <= 8
  {
    var log := L.Failures(SHIPPED.login, attempts, email);
    if log[j].now - log[i].now < 900 * SECOND {
      L.FailureBound(SHIPPED.login, attempts, email, i, j);
    }
  }

  /** The fifth of a count locks for as long. */
  lemma ShippedLock(attempts: seq<L.Attempt>, email: string, now: Time)
    requires L.ClockMonotone(attempts) && (attempts != [] ==> attempts[|attempts| - 1].now <= now)
    ensures var log := L.Failures(SHIPPED.login, attempts, email);
      Locked(L.After(SHIPPED.login, attempts), email, now) <==>
        log != [] && log[|log| - 1].count == 5 && now - log[|log| - 1].now < 900 * SECOND
  {
    L.LockedExactly(SHIPPED.login, attempts, email, now);
  }
}
