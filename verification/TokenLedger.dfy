/** Tokens over whole runs: each stands for a binding of the licence it was minted for. */
module TokenLedger {
  import opened Basics
  import opened Tables
  import opened EdgeProtocol
  import opened IssuanceProtocol
  import opened CrlProtocol
  import opened Server
  import opened Identity
  import opened Revocations
  import Jobs = WorkerProtocol

  /** Row `b` is known, and as long as it exists it is a binding of licence row `l`. */
  ghost predicate BelongsTo(s: State, b: Id, l: Id) {
    b in s.uuids && l in s.uuids && (b in s.bindings ==> s.bindings[b].license == l)
  }

  ghost predicate TokensOk(s: State) {
    && (forall t :: t in s.tokens ==> BelongsTo(s, s.tokens[t].binding, s.tokens[t].license))
    && (forall t :: t in s.leases ==> BelongsTo(s, s.leases[t].binding, s.leases[t].license))
  }

  /** Row `l` is known, and as long as it exists its public identifier is `p`. */
  ghost predicate Named(s: State, l: Id, p: Id) {
    l in s.uuids && (l in s.licenses ==> s.licenses[l].publicId == p)
  }

  /** Token `t` was handed out, and only ever for the licence with public identifier `p`. */
  ghost predicate TokenNames(s: State, t: Id, p: Id) {
    && t in s.uuids
    && (t in s.tokens ==> Named(s, s.tokens[t].license, p))
    && (t in s.leases ==> Named(s, s.leases[t].license, p))
  }

  // ----- what every step keeps -----

  /** Rows keep their licence, licences their public identifier, tokens their meaning; nothing known comes back. */
  ghost predicate RowsEvolve(s: State, s': State) {
    && s.uuids <= s'.uuids && Keeps(s.bindings, s'.bindings)
    && (forall b :: b in s.uuids && b in s'.bindings ==> b in s.bindings)
    && (forall l :: l in s.uuids && l in s'.licenses ==>
          l in s.licenses && s'.licenses[l].publicId == s.licenses[l].publicId
          && s'.licenses[l].mode == s.licenses[l].mode)
  }

  ghost predicate TokensEvolve(s: State, s': State) {
    && (forall t :: t in s.uuids && t in s'.tokens ==> t in s.tokens && s'.tokens[t] == s.tokens[t])
    && (forall t :: t in s.uuids && t in s'.leases ==> t in s.leases && s'.leases[t] == s.leases[t])
  }

  /** A token that was not known before is fit. */
  ghost predicate NewTokensFit(s: State, s': State) {
    && (forall t :: t in s'.tokens && t !in s.uuids ==> BelongsTo(s', s'.tokens[t].binding, s'.tokens[t].license))
    && (forall t :: t in s'.leases && t !in s.uuids ==> BelongsTo(s', s'.leases[t].binding, s'.leases[t].license))
  }

  ghost predicate Evolves(s: State, s': State) {
    RowsEvolve(s, s') && TokensEvolve(s, s') && NewTokensFit(s, s')
  }

  lemma BelongingStays(s: State, s': State, b: Id, l: Id)
    requires RowsEvolve(s, s') && BelongsTo(s, b, l)
    ensures BelongsTo(s', b, l)
  {
  }

  lemma TokensOkStay(s: State, s': State)
    requires TokensOk(s) && Evolves(s, s')
    ensures TokensOk(s')
  {
    forall t | t in s'.tokens ensures BelongsTo(s', s'.tokens[t].binding, s'.tokens[t].license) {
      if t in s.uuids {
        BelongingStays(s, s', s.tokens[t].binding, s.tokens[t].license);
      }
    }
    forall t | t in s'.leases ensures BelongsTo(s', s'.leases[t].binding, s'.leases[t].license) {
      if t in s.uuids {
        BelongingStays(s, s', s.leases[t].binding, s.leases[t].license);
      }
    }
  }

  lemma NamesStay(s: State, s': State, t: Id, p: Id)
    requires RowsEvolve(s, s') && TokensEvolve(s, s') && TokenNames(s, t, p)
    ensures TokenNames(s', t, p)
  {
  }

  // ----- the steps -----

  lemma RowsAfterEnter(s: State, l: Id, loaded: License, req: ActivateRequest, env: CallEnv)
    requires TablesOk(s) && FreshCall(s, env) && (l in s.licenses ==> s.licenses[l].mode == Online)
    ensures RowsEvolve(s, Enter(s, l, loaded, req, env).0)
  {
    EnterEffect(s, l, loaded, req, env);
    var (s', reply) := Enter(s, l, loaded, req, env);
    if reply.Granted? {
      KeepsSeat(s, s', l, loaded, req, env);
    }
  }

  lemma EvolvesEnter(s: State, l: Id, loaded: License, req: ActivateRequest, env: CallEnv)
    requires TablesOk(s) && FreshCall(s, env) && (l in s.licenses ==> s.licenses[l].mode == Online)
    ensures Evolves(s, Enter(s, l, loaded, req, env).0)
  {
    RowsAfterEnter(s, l, loaded, req, env);
    EnterEffect(s, l, loaded, req, env);
    var (s', reply) := Enter(s, l, loaded, req, env);
    if reply.Granted? {
      EnterTokens(s, l, loaded, req, env);
      assert l in s.licenses.Keys;
      SeatBelongs(s, s', l, loaded, req, env);
      MintedTokens(s, s', l, SeatOf(s, l, req, env), env);
    } else {
      QuietTokens(s, s');
    }
  }

  lemma MintedTokens(s: State, s': State, l: Id, b: Id, env: CallEnv)
    requires UuidsOk(s) && TokenStored(s, s', l, b, env) && BelongsTo(s', b, l) && env.newToken !in s.uuids
    ensures TokensEvolve(s, s') && NewTokensFit(s, s')
  {
    assert forall t :: t in s.tokens.Keys ==> t in s.uuids;
    assert forall t :: t in s.leases.Keys ==> t in s.uuids;
  }

  lemma SeatBelongs(s: State, s': State, l: Id, loaded: License, req: ActivateRequest, env: CallEnv)
    requires TookSeatAs(s, s', l, loaded, req, env) && l in s.uuids
    requires TokenStored(s, s', l, SeatOf(s, l, req, env), env)
    ensures BelongsTo(s', SeatOf(s, l, req, env), l)
  {
  }

  lemma EvolvesRenew(s: State, b: Id, row: Binding, lic: License, env: CallEnv)
    requires UuidsOk(s) && BelongsTo(s, b, row.license) && env.newToken !in s.uuids
    ensures Evolves(s, Renew(s, b, row, lic, env).0)
  {
    var s' := Renew(s, b, row, lic, env).0;
    assert forall t :: t in s.tokens.Keys ==> t in s.uuids;
    assert forall t :: t in s.leases.Keys ==> t in s.uuids;
    assert s'.bindings == s.bindings && s'.licenses == s.licenses && s'.leases == s.leases;
  }

  /** A step that mints nothing. */
  lemma QuietTokens(s: State, s': State)
    requires UuidsOk(s) && s'.tokens == s.tokens
    requires forall t :: t in s'.leases ==> t in s.leases && s'.leases[t] == s.leases[t]
    ensures TokensEvolve(s, s') && NewTokensFit(s, s')
  {
    assert forall t :: t in s.tokens.Keys ==> t in s.uuids;
    assert forall t :: t in s.leases.Keys ==> t in s.uuids;
  }

  lemma EvolvesActivate(s: State, req: ActivateRequest, env: CallEnv)
    requires TablesOk(s) && FreshCall(s, env)
    ensures Evolves(s, Activate(s, req, env).0)
  {
    var admission := Admit(s, req.onlineCode, env.now);
    if admission.Admitted? {
      EvolvesEnter(s, admission.license, s.licenses[admission.license], req, env);
    } else {
      QuietTokens(s, s);
    }
  }

  lemma EvolvesValidate(s: State, req: ValidateRequest, env: CallEnv)
    requires TablesOk(s) && FreshCall(s, env)
    ensures Evolves(s, Validate(s, req, env).0)
  {
    var r := CheckRenewal(s, req, env.now);
    if r.Renewable? {
      var row := s.bindings[r.binding];
      assert row.license in s.licenses.Keys && r.binding in s.bindings.Keys;
      EvolvesRenew(s, r.binding, row, s.licenses[row.license], env);
    } else {
      QuietTokens(s, s);
    }
  }

  lemma EvolvesIssue(s: State, row: Id, lic: License, s': State)
    requires UuidsOk(s) && row !in s.uuids && s.uuids <= s'.uuids
    requires s' == s.(licenses := s.licenses[row := lic], uuids := s'.uuids)
    ensures Evolves(s, s')
  {
    QuietTokens(s, s');
  }

  lemma EvolvesIssueOnline(s: State, req: IssueRequest)
    requires UuidsOk(s) && FreshIssue(s, req)
    ensures Evolves(s, IssueOnline(s, req).0)
  {
    if IssueOnline(s, req).0 != s {
      EvolvesIssue(s, req.row, OnlineLicense(req), IssueOnline(s, req).0);
    } else {
      QuietTokens(s, s);
    }
  }

  lemma EvolvesIssueOffline(s: State, req: IssueRequest)
    requires UuidsOk(s) && FreshIssue(s, req)
    ensures Evolves(s, IssueOffline(s, req).0)
  {
    if IssueOffline(s, req).0 != s {
      EvolvesIssue(s, req.row, OfflineLicense(req), IssueOffline(s, req).0);
    } else {
      QuietTokens(s, s);
    }
  }

  lemma EvolvesDelete(s: State, l: Id)
    requires UuidsOk(s)
    ensures Evolves(s, Delete(s, l).0)
  {
    QuietTokens(s, Delete(s, l).0);
  }

  /** Steps that write columns of licences other than the identifiers and the mode. */
  lemma EvolvesRelabel(s: State, s': State)
    requires UuidsOk(s) && s.uuids <= s'.uuids && Keeps(s.bindings, s'.bindings) && s'.bindings.Keys == s.bindings.Keys
    requires s'.licenses.Keys == s.licenses.Keys && s'.tokens == s.tokens && s'.leases == s.leases
    requires forall l :: l in s.licenses ==>
      s'.licenses[l].publicId == s.licenses[l].publicId && s'.licenses[l].mode == s.licenses[l].mode
    ensures Evolves(s, s')
  {
    QuietTokens(s, s');
  }

  lemma EvolvesReap(s: State, now: Time)
    requires UuidsOk(s)
    ensures Evolves(s, Jobs.Reap(s, now))
  {
    KeepsReap(s, now);
    EvolvesRelabel(s, Jobs.Reap(s, now));
  }

  lemma EvolvesSweep(s: State, now: Time)
    requires UuidsOk(s)
    ensures Evolves(s, Jobs.Sweep(s, now))
  {
    EvolvesRelabel(s, Jobs.Sweep(s, now));
  }

  lemma EvolvesRevoke(s: State, l: Id, now: Time, row: Id)
    requires UuidsOk(s)
    ensures Evolves(s, Revoke(s, l, now, row).0)
  {
    RevokeEffect(s, l, now, row);
    EvolvesRelabel(s, Revoke(s, l, now, row).0);
  }

  lemma EvolvesSoftDelete(s: State, l: Id, now: Time)
    requires UuidsOk(s)
    ensures Evolves(s, SoftDelete(s, l, now))
  {
    EvolvesRelabel(s, SoftDelete(s, l, now));
  }

  lemma EvolvesGenerate(s: State, now: Time, scan: seq<Id>)
    requires UuidsOk(s)
    ensures Evolves(s, Generate(s, now, scan))
  {
    EvolvesRelabel(s, Generate(s, now, scan));
  }

  lemma EvolvesStaleCommit(s: State, l: Id, seatUsed: int, now: Time)
    requires UuidsOk(s)
    ensures Evolves(s, StaleCommit(s, l, seatUsed, now))
  {
    EvolvesRelabel(s, StaleCommit(s, l, seatUsed, now));
  }

  lemma EvolvesNext(s: State, step: Step)
    requires TablesOk(s) && Enabled(s, step)
    ensures Evolves(s, Next(s, step))
  {
    match step
    case StepIssueOnline(req) => EvolvesIssueOnline(s, req);
    case StepIssueOffline(req) => EvolvesIssueOffline(s, req);
    case StepActivate(req, env) => EvolvesActivate(s, req, env);
    case StepValidate(req, env) => EvolvesValidate(s, req, env);
    case StepRevoke(l, now, row) => EvolvesRevoke(s, l, now, row);
    case StepDelete(l) => EvolvesDelete(s, l);
    case StepSoftDelete(l, now) => EvolvesSoftDelete(s, l, now);
    case StepGenerate(now, scan) => EvolvesGenerate(s, now, scan);
    case StepReap(now) => EvolvesReap(s, now);
    case StepSweep(now) => EvolvesSweep(s, now);
    case StepStaleCommit(l, seatUsed, now) => EvolvesStaleCommit(s, l, seatUsed, now);
  }

  /** In every state of every run each token stands for a binding of its own licence. */
  lemma {:induction false} TokensRun(steps: seq<Step>)
    requires ValidRun(INITIAL, steps)
    ensures TokensOk(Run(INITIAL, steps))
  {
    if steps != [] {
      var init := steps[..|steps| - 1];
      TokensRun(init);
      TablesOkRun(INITIAL, init);
      EvolvesNext(Run(INITIAL, init), steps[|steps| - 1]);
      TokensOkStay(Run(INITIAL, init), Run(INITIAL, steps));
    }
  }

  // ----- what a new token stands for -----

  /** The token of a granted activation names the licence it was checked for. */
  lemma EnterNames(s: State, l: Id, loaded: License, req: ActivateRequest, env: CallEnv)
    requires TablesOk(s) && FreshCall(s, env) && Enter(s, l, loaded, req, env).1.Granted?
    requires Named(s, l, loaded.publicId) && (l in s.licenses ==> s.licenses[l].mode == Online)
    ensures TokenNames(Enter(s, l, loaded, req, env).0, env.newToken, loaded.publicId)
  {
    EnterEffect(s, l, loaded, req, env);
    EnterTokens(s, l, loaded, req, env);
  }

  lemma RenewNames(s: State, b: Id, row: Binding, lic: License, env: CallEnv)
    requires UuidsOk(s) && Named(s, row.license, lic.publicId) && env.newToken !in s.uuids && env.keyReady
    ensures TokenNames(Renew(s, b, row, lic, env).0, env.newToken, lic.publicId)
  {
    assert env.newToken !in s.leases.Keys;
  }

  // ----- a token of a licence that is over -----

  /** Renewal fails on every path for a token whose licence was revoked, deleted or is past its end. */
  lemma OverTokenFails(s: State, t: Id, p: Id, req: ValidateRequest, env: CallEnv)
    requires TokensOk(s) && TokenNames(s, t, p) && Over(s, p, env.now) && req.token == t
    ensures var reply := Validate(s, req, env).1;
      reply.Refused? && reply.code in {ErrorCode.LicenseRevoked, LicenseExpired, BindingMismatch, LeaseExpired}
  {
    var bound := BindingOfToken(s, t, env.now);
    if bound.Some? && bound.value in s.bindings {
      var l := s.bindings[bound.value].license;
      if t in s.tokens {
        assert BelongsTo(s, s.tokens[t].binding, s.tokens[t].license);
      }
      if t in s.leases {
        assert BelongsTo(s, s.leases[t].binding, s.leases[t].license);
      }
      assert Named(s, l, p);
    }
  }
}
