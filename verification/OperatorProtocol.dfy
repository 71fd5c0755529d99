/** Roles and what they permit. */
module Roles {

  datatype Role = SuperAdmin | Admin | Auditor

  const USER_WRITE := "platform.user.write"
  const USER_DELETE := "platform.user.delete"

  function PlatformRoles(role: Role): set<string> {
    match role
    case SuperAdmin => {"*"}
    case Admin => {
      "platform.license.read", "platform.license.issue", "platform.license.update",
      "platform.product.read", "platform.product.write",
      "platform.customer.read", "platform.customer.write",
      "platform.crl.generate"
    }
    case Auditor => {"platform.audit.read", "platform.audit.export", "platform.license.read"}
  }

  predicate RoleHas(role: Role, permission: string) {
    "*" in PlatformRoles(role) || permission in PlatformRoles(role)
  }

  function PermissionsFor(role: Role): set<string> {
    if "*" in PlatformRoles(role) then {"*"} else PlatformRoles(role)
  }
}

/** Sessions, with a per-user index. */
module SessionProtocol {
  import opened Basics
  import opened Roles
  import opened RateProtocol

  /** Seconds; a session idles out or reaches its absolute expiry. */
  datatype SessionPolicy = SessionPolicy(idle: int, absolute: int)

  /** The shipped settings. */
  const DEFAULT_SESSIONS := SessionPolicy(12 * 3600, 7 * 24 * 3600)

  /** `absoluteExpiry` is in seconds; the key is gone from `expires` on. */
  datatype Session = Session(userId: nat, role: Role, permissions: set<string>, absoluteExpiry: int, expires: Time)

  datatype SessionState = SessionState(sessions: map<string, Session>, index: map<nat, set<string>>)

  function Members(s: SessionState, userId: nat): set<string> {
    if userId in s.index then s.index[userId] else {}
  }

  predicate Live(s: SessionState, sid: string, now: Time) {
    sid in s.sessions && now < s.sessions[sid].expires
  }

  function Create(s: SessionState, p: SessionPolicy, sid: string, userId: nat, role: Role, now: Time): SessionState {
    var session := Session(userId, role, PermissionsFor(role), Seconds(now) + p.absolute, now + p.idle * SECOND);
    SessionState(s.sessions[sid := session], s.index[userId := Members(s, userId) + {sid}])
  }

  /** A live session, renewed up to its absolute expiry. */
  function Get(s: SessionState, p: SessionPolicy, sid: string, now: Time): (SessionState, Option<Session>) {
    if !Live(s, sid, now) then (s, None)
    else
      var session := s.sessions[sid];
      if Seconds(now) >= session.absoluteExpiry then (Destroy(s, sid, now), None)
      else
        var left := session.absoluteExpiry - Seconds(now);
        var ttl := if p.idle <= left then p.idle else left;
        (s.(sessions := s.sessions[sid := session.(expires := now + ttl * SECOND)]), Some(session))
  }

  function Destroy(s: SessionState, sid: string, now: Time): SessionState {
    SessionState(
      s.sessions - {sid},
      if Live(s, sid, now) then
        var userId := s.sessions[sid].userId;
        s.index[userId := Members(s, userId) - {sid}]
      else s.index)
  }

  function DestroyAll(s: SessionState, userId: nat): SessionState {
    SessionState(s.sessions - Members(s, userId), s.index - {userId})
  }
}

/** Operators: login, their administration, and what each request does to the tables and the session store. */
module OperatorProtocol {
  import opened Basics
  import opened Roles
  import opened RateProtocol
  import opened SessionProtocol

  /** `password` is what the stored hash accepts. */
  datatype User = User(email: string, username: string, password: string, role: Role, active: bool, deleted: bool,
                       twofa: bool)

  /** A user's id is its place in the table, from which rows are never removed. */
  datatype OperatorState = OperatorState(users: seq<User>, store: SessionState, rates: RateState)

  datatype Policy = Policy(login: LoginPolicy, sessions: SessionPolicy, loginsPerMinute: int)

  const SHIPPED := Policy(DEFAULT_POLICY, DEFAULT_SESSIONS, 10)

  datatype AdminError =
    | AuthRequired | PermDenied | NotFound | Conflict | SelfLockout | LastSuperAdmin | CommitFailed
    | LoginBlocked | AccountLocked | InvalidCredentials | AccountDisabled | CodeRequired | CodeInvalid

  datatype Reply = Done(id: nat) | Refused(error: AdminError)

  /** A field of a request body: absent, null, or a value. */
  datatype Field<T> = Unset | Null | Set(value: T)

  datatype UserUpdate = UserUpdate(username: Field<string>, role: Field<Role>, active: Field<bool>)

  /** What a login presents; `totpOk` is the verdict of the one-time code check. */
  datatype Credentials = Credentials(email: string, password: string, code: Option<string>, totpOk: bool)

  // ------------------------------------------------------------------------------------------------- users

  predicate Present(users: seq<User>, id: nat) {
    id < |users| && !users[id].deleted
  }

  function FindByEmail(users: seq<User>, email: string, includeDeleted: bool): (r: Option<nat>)
    ensures r.Some? ==>
      r.value < |users| && users[r.value].email == email && (includeDeleted || !users[r.value].deleted)
  {
    if users == [] then None
    else
      var last := |users| - 1;
      if users[last].email == email && (includeDeleted || !users[last].deleted) then Some(last)
      else FindByEmail(users[..last], email, includeDeleted)
  }

  predicate IsActiveSuperAdmin(u: User) {
    u.role.SuperAdmin? && u.active && !u.deleted
  }

  function ActiveSuperAdmins(users: seq<User>): nat {
    if users == [] then 0
    else ActiveSuperAdmins(users[..|users| - 1]) + (if IsActiveSuperAdmin(users[|users| - 1]) then 1 else 0)
  }

  // ------------------------------------------------------------------------------------------------- login

  /** The checks of a login once the account is found, in their order. */
  function Judge(user: Option<User>, c: Credentials): Option<AdminError> {
    if user.None? || user.value.password != c.password then Some(InvalidCredentials)
    else if !user.value.active then Some(AccountDisabled)
    else if user.value.twofa && (c.code.None? || c.code.value == "") then Some(CodeRequired)
    else if user.value.twofa && !c.totpOk then Some(CodeInvalid)
    else None
  }

  function Row(users: seq<User>, id: Option<nat>): Option<User> {
    if id.Some? && id.value < |users| then Some(users[id.value]) else None
  }

  function Authenticate(
      users: seq<User>, rates: RateState, p: LoginPolicy, c: Credentials, now: Time): (RateState, Reply)
  {
    if Locked(rates, c.email, now) then (rates, Refused(AccountLocked))
    else
      var id := FindByEmail(users, c.email, false);
      match Judge(Row(users, id), c)
      case Some(error) =>
        (if error.InvalidCredentials? || error.CodeInvalid? then RecordLoginFailure(rates, p, c.email, now) else rates,
         Refused(error))
      case None =>
        (ClearLoginFailures(rates, c.email), if id.Some? then Done(id.value) else Refused(InvalidCredentials))
  }

  function Login(
      s: OperatorState, p: Policy, ip: string, c: Credentials, sid: string, now: Time): (OperatorState, Reply)
  {
    var (rates, verdict) := Hit(s.rates, "login_ip:" + ip, p.loginsPerMinute, 60, now);
    if verdict.Limited? then (s.(rates := rates), Refused(LoginBlocked))
    else
      var (after, reply) := Authenticate(s.users, rates, p.login, c, now);
      if reply.Done? && reply.id < |s.users| then
        (s.(rates := after, store := Create(s.store, p.sessions, sid, reply.id, s.users[reply.id].role, now)), reply)
      else (s.(rates := after), reply)
  }

  // ---------------------------------------------------------------------------------------------- requests

  /** The operator of a request, or why there is none. */
  function CurrentUser(s: OperatorState, p: Policy, sid: string, now: Time): (OperatorState, Option<Session>) {
    if sid == "" then (s, None)
    else
      var (store, session) := Get(s.store, p.sessions, sid, now);
      (s.(store := store), session)
  }

  predicate Permits(session: Session, permission: string) {
    "*" in session.permissions || permission in session.permissions || RoleHas(session.role, permission)
  }

  /** A request that needs `permission`. */
  function RequirePerm(
      s: OperatorState, p: Policy, sid: string, permission: string, now: Time): (OperatorState, Reply)
  {
    var (after, session) := CurrentUser(s, p, sid, now);
    match session
    case None => (after, Refused(AuthRequired))
    case Some(found) => (after, if Permits(found, permission) then Done(found.userId) else Refused(PermDenied))
  }

  function Logout(s: OperatorState, p: Policy, sid: string, now: Time): (OperatorState, Reply) {
    var (after, session) := CurrentUser(s, p, sid, now);
    match session
    case None => (after, Refused(AuthRequired))
    case Some(found) => (after.(store := Destroy(after.store, sid, now)), Done(found.userId))
  }

  function CreateUser(s: OperatorState, email: string, username: string, role: Role, password: Option<string>)
    : (OperatorState, Reply)
  {
    if FindByEmail(s.users, email, true).Some? then (s, Refused(Conflict))
    else
      var secret := if password.Some? then password.value else email;
      (s.(users := s.users + [User(email, username, secret, role, true, false, false)]), Done(|s.users|))
  }

  predicate Demotes(u: User, body: UserUpdate) {
    body.role.Set? && !body.role.value.SuperAdmin? && u.role.SuperAdmin?
  }

  predicate Disables(u: User, body: UserUpdate) {
    body.active == Set(false) && u.active
  }

  predicate ChangesRole(u: User, body: UserUpdate) {
    body.role.Set? && body.role.value != u.role
  }

  /** No column of the table takes a null. */
  predicate HasNull(body: UserUpdate) {
    body.username.Null? || body.role.Null? || body.active.Null?
  }

  function Updated(u: User, body: UserUpdate): User {
    u.(username := if body.username.Set? then body.username.value else u.username,
       role := if body.role.Set? then body.role.value else u.role,
       active := if body.active.Set? then body.active.value else u.active)
  }

  function UpdateUser(s: OperatorState, actor: nat, id: nat, body: UserUpdate): (OperatorState, Reply) {
    if !Present(s.users, id) then (s, Refused(NotFound))
    else
      var u := s.users[id];
      var locking := Demotes(u, body) || Disables(u, body);
      if id == actor && locking then (s, Refused(SelfLockout))
      else if locking && u.role.SuperAdmin? && ActiveSuperAdmins(s.users) <= 1 then (s, Refused(LastSuperAdmin))
      else if HasNull(body) then (s, Refused(CommitFailed))
      else
        (s.(users := s.users[id := Updated(u, body)],
            store := if ChangesRole(u, body) || Disables(u, body) then DestroyAll(s.store, id) else s.store),
         Done(id))
  }

  function ResetPassword(s: OperatorState, id: nat, password: Option<string>): (OperatorState, Reply) {
    if !Present(s.users, id) then (s, Refused(NotFound))
    else
      var u := s.users[id];
      (s.(users := s.users[id := u.(password := if password.Some? then password.value else u.email)],
          store := DestroyAll(s.store, id)),
       Done(id))
  }

  function DeleteUser(s: OperatorState, actor: nat, id: nat): (OperatorState, Reply) {
    if !Present(s.users, id) then (s, Refused(NotFound))
    else if id == actor then (s, Refused(SelfLockout))
    else if s.users[id].role.SuperAdmin? && ActiveSuperAdmins(s.users) <= 1 then (s, Refused(LastSuperAdmin))
    else
      (s.(users := s.users[id := s.users[id].(deleted := true)], store := DestroyAll(s.store, id)), Done(id))
  }

  /** An operator's own password; its sessions stay. */
  function ChangePassword(s: OperatorState, actor: nat, current: string, next: string): (OperatorState, Reply) {
    if !Present(s.users, actor) then (s, Refused(AuthRequired))
    else if s.users[actor].password != current then (s, Refused(InvalidCredentials))
    else (s.(users := s.users[actor := s.users[actor].(password := next)]), Done(actor))
  }

  /** An operator's own address. */
  function ChangeEmail(s: OperatorState, actor: nat, email: string): (OperatorState, Reply) {
    if !Present(s.users, actor) then (s, Refused(AuthRequired))
    else
      var holder := FindByEmail(s.users, email, true);
      if holder.Some? && holder.value != actor then (s, Refused(Conflict))
      else (s.(users := s.users[actor := s.users[actor].(email := email)]), Done(actor))
  }
}
