/** The services of the operator console. */
module Operators {
  import opened Basics
  import opened Roles
  import opened RateProtocol
  import opened OperatorProtocol
  import S = SessionProtocol
  import RateLimit

  class SessionService {
    var sessions: map<string, S.Session>
    var index: map<nat, set<string>>
    const policy: S.SessionPolicy

    constructor (policy: S.SessionPolicy)
      ensures State() == S.SessionState(map[], map[]) && this.policy == policy
    {
      this.policy := policy;
      sessions, index := map[], map[];
    }

    function State(): S.SessionState
      reads this
    {
      S.SessionState(sessions, index)
    }

    method Create(sid: string, userId: nat, role: Role, now: Time)
      modifies this
      ensures State() == S.Create(old(State()), policy, sid, userId, role, now)
    {
      var seconds := now / SECOND;
      var session := S.Session(userId, role, PermissionsFor(role), seconds + policy.absolute,
        now + policy.idle * SECOND);
      sessions := sessions[sid := session];
      index := index[userId := (if userId in index then index[userId] else {}) + {sid}];
    }

    method Get(sid: string, now: Time) returns (found: Option<S.Session>)
      modifies this
      ensures (State(), found) == S.Get(old(State()), policy, sid, now)
    {
      if sid !in sessions || now >= sessions[sid].expires {
        return None;
      }
      var session := sessions[sid];
      var seconds := now / SECOND;
      if seconds >= session.absoluteExpiry {
        Destroy(sid, now);
        return None;
      }
      var ttl := session.absoluteExpiry - seconds;
      if policy.idle <= ttl {
        ttl := policy.idle;
      }
      sessions := sessions[sid := session.(expires := now + ttl * SECOND)];
      return Some(session);
    }

    method Destroy(sid: string, now: Time)
      modifies this
      ensures State() == S.Destroy(old(State()), sid, now)
    {
      if sid in sessions && now < sessions[sid].expires {
        var userId := sessions[sid].userId;
        index := index[userId := (if userId in index then index[userId] else {}) - {sid}];
      }
      sessions := sessions - {sid};
    }

    /** One delete for each member of the user's index, then the index itself. */
    method DestroyAllForUser(userId: nat)
      modifies this
      ensures State() == S.DestroyAll(old(State()), userId)
    {
      ghost var members := S.Members(State(), userId);
      ghost var before := sessions;
      var sids := if userId in index then index[userId] else {};
      while sids != {}
        invariant sids <= members
        invariant sessions == before - (members - sids)
        invariant index == old(index)
        decreases sids
      {
        var sid :| sid in sids;
        assert members - (sids - {sid}) == (members - sids) + {sid};
        sessions := sessions - {sid};
        sids := sids - {sid};
      }
      assert members - sids == members;
      index := index - {userId};
    }
  }

  class Database {
    var users: seq<User>

    constructor (users: seq<User>)
      ensures this.users == users
    {
      this.users := users;
    }

    method CountActiveSuperAdmins() returns (n: nat)
      ensures n == ActiveSuperAdmins(users)
    {
      n := 0;
      for i := 0 to |users|
        invariant n == ActiveSuperAdmins(users[..i])
      {
        assert users[..i + 1][..i] == users[..i];
        if IsActiveSuperAdmin(users[i]) {
          n := n + 1;
        }
      }
      assert users[..|users|] == users;
    }
  }

  class AdminApi {
    const db: Database
    const store: SessionService
    const limiter: RateLimit.RateLimiter
    const policy: Policy

    constructor (db: Database, store: SessionService, limiter: RateLimit.RateLimiter, policy: Policy)
      requires store.policy == policy.sessions && limiter.policy == policy.login
      ensures this.db == db && this.store == store && this.limiter == limiter && this.policy == policy
      ensures Wired()
    {
      this.db, this.store, this.limiter, this.policy := db, store, limiter, policy;
    }

    predicate Wired() {
      store.policy == policy.sessions && limiter.policy == policy.login
    }

    function State(): OperatorState
      reads db, store, limiter
    {
      OperatorState(db.users, store.State(), limiter.State())
    }

    method Authenticate(c: Credentials, now: Time) returns (reply: Reply)
      requires Wired()
      modifies limiter
      ensures (limiter.State(), reply)
        == OperatorProtocol.Authenticate(db.users, old(limiter.State()), policy.login, c, now)
    {
      var open := limiter.AssertNotLocked(c.email, now);
      if !open {
        return Refused(AccountLocked);
      }
      var id := FindByEmail(db.users, c.email, false);
      if id.None? || db.users[id.value].password != c.password {
        limiter.RecordLoginFailure(c.email, now);
        return Refused(InvalidCredentials);
      }
      var user := db.users[id.value];
      if !user.active {
        return Refused(AccountDisabled);
      }
      if user.twofa {
        if c.code.None? || c.code.value == "" {
          return Refused(CodeRequired);
        }
        if !c.totpOk {
          limiter.RecordLoginFailure(c.email, now);
          return Refused(CodeInvalid);
        }
      }
      limiter.ClearLoginFailures(c.email);
      return Done(id.value);
    }

    method Login(ip: string, c: Credentials, sid: string, now: Time) returns (reply: Reply)
      requires Wired()
      modifies limiter, store
      ensures (State(), reply) == OperatorProtocol.Login(old(State()), policy, ip, c, sid, now)
    {
      var verdict := limiter.Hit("login_ip:" + ip, policy.loginsPerMinute, 60, now);
      if verdict.Limited? {
        return Refused(LoginBlocked);
      }
      reply := Authenticate(c, now);
      if reply.Done? {
        store.Create(sid, reply.id, db.users[reply.id].role, now);
      }
    }

    method GetCurrentUser(sid: string, now: Time) returns (session: Option<S.Session>)
      requires Wired()
      modifies store
      ensures (State(), session) == OperatorProtocol.CurrentUser(old(State()), policy, sid, now)
    {
      if sid == "" {
        return None;
      }
      session := store.Get(sid, now);
    }

    method RequirePerm(sid: string, permission: string, now: Time) returns (reply: Reply)
      requires Wired()
      modifies store
      ensures (State(), reply) == OperatorProtocol.RequirePerm(old(State()), policy, sid, permission, now)
    {
      var session := GetCurrentUser(sid, now);
      if session.None? {
        return Refused(AuthRequired);
      }
      if "*" in session.value.permissions || permission in session.value.permissions {
        return Done(session.value.userId);
      }
      if RoleHas(session.value.role, permission) {
        return Done(session.value.userId);
      }
      return Refused(PermDenied);
    }

    method Logout(sid: string, now: Time) returns (reply: Reply)
      requires Wired()
      modifies store
      ensures (State(), reply) == OperatorProtocol.Logout(old(State()), policy, sid, now)
    {
      var session := GetCurrentUser(sid, now);
      if session.None? {
        return Refused(AuthRequired);
      }
      store.Destroy(sid, now);
      return Done(session.value.userId);
    }

    method CreateUser(email: string, username: string, role: Role, password: Option<string>) returns (reply: Reply)
      modifies db
      ensures (State(), reply) == OperatorProtocol.CreateUser(old(State()), email, username, role, password)
    {
      var existing := FindByEmail(db.users, email, true);
      if existing.Some? {
        return Refused(Conflict);
      }
      var secret := if password.Some? then password.value else email;
      reply := Done(|db.users|);
      db.users := db.users + [User(email, username, secret, role, true, false, false)];
    }

    /** The fields of the body that are present, set one by one. */
    static method SetFields(u: User, body: UserUpdate) returns (row: User)
      requires !HasNull(body)
      ensures row == Updated(u, body)
    {
      row := u;
      if body.username.Set? {
        row := row.(username := body.username.value);
      }
      if body.role.Set? {
        row := row.(role := body.role.value);
      }
      if body.active.Set? {
        row := row.(active := body.active.value);
      }
    }

    /** A null stops the commit. */
    method UpdateUser(actor: nat, id: nat, body: UserUpdate) returns (reply: Reply)
      modifies db, store
      ensures (State(), reply) == OperatorProtocol.UpdateUser(old(State()), actor, id, body)
    {
      if id >= |db.users| || db.users[id].deleted {
        return Refused(NotFound);
      }
      var u := db.users[id];
      var demoting := body.role.Set? && !body.role.value.SuperAdmin? && u.role.SuperAdmin?;
      var disabling := body.active == Set(false) && u.active;
      if id == actor && (disabling || demoting) {
        return Refused(SelfLockout);
      }
      if (disabling || demoting) && u.role.SuperAdmin? {
        var active := db.CountActiveSuperAdmins();
        if active <= 1 {
          return Refused(LastSuperAdmin);
        }
      }
      var roleChanged := body.role.Set? && body.role.value != u.role;
      if body.username.Null? || body.role.Null? || body.active.Null? {
        return Refused(CommitFailed);
      }
      var row := SetFields(u, body);
      db.users := db.users[id := row];
      if roleChanged || disabling {
        store.DestroyAllForUser(id);
      }
      return Done(id);
    }

    method ResetPassword(id: nat, password: Option<string>) returns (reply: Reply)
      modifies db, store
      ensures (State(), reply) == OperatorProtocol.ResetPassword(old(State()), id, password)
    {
      if id >= |db.users| || db.users[id].deleted {
        return Refused(NotFound);
      }
      var u := db.users[id];
      db.users := db.users[id := u.(password := if password.Some? then password.value else u.email)];
      store.DestroyAllForUser(id);
      return Done(id);
    }

    method DeleteUser(actor: nat, id: nat) returns (reply: Reply)
      modifies db, store
      ensures (State(), reply) == OperatorProtocol.DeleteUser(old(State()), actor, id)
    {
      if id >= |db.users| || db.users[id].deleted {
        return Refused(NotFound);
      }
      if id == actor {
        return Refused(SelfLockout);
      }
      if db.users[id].role.SuperAdmin? {
        var active := db.CountActiveSuperAdmins();
        if active <= 1 {
          return Refused(LastSuperAdmin);
        }
      }
      db.users := db.users[id := db.users[id].(deleted := true)];
      store.DestroyAllForUser(id);
      return Done(id);
    }

    method ChangePassword(actor: nat, current: string, next: string) returns (reply: Reply)
      modifies db
      ensures (State(), reply) == OperatorProtocol.ChangePassword(old(State()), actor, current, next)
    {
      if actor >= |db.users| || db.users[actor].deleted {
        return Refused(AuthRequired);
      }
      if db.users[actor].password != current {
        return Refused(InvalidCredentials);
      }
      db.users := db.users[actor := db.users[actor].(password := next)];
      return Done(actor);
    }

    method ChangeEmail(actor: nat, email: string) returns (reply: Reply)
      modifies db
      ensures (State(), reply) == OperatorProtocol.ChangeEmail(old(State()), actor, email)
    {
      if actor >= |db.users| || db.users[actor].deleted {
        return Refused(AuthRequired);
      }
      var holder := FindByEmail(db.users, email, true);
      if holder.Some? && holder.value != actor {
        return Refused(Conflict);
      }
      db.users := db.users[actor := db.users[actor].(email := email)];
      return Done(actor);
    }
  }
}
