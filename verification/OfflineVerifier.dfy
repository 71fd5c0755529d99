/** The offline licence check of the Python SDK, with its persisted state. */
module OfflineProtocol {
  import opened Basics

  const DEFAULT_SKEW_MINUTES: int := 10

  /** A payload field that is missing, null, a string, or another value; JavaScript takes some of those for false. */
  datatype Field = Absent | Null | Text(value: string) | Other(truthy: bool)

  /** The fields the check reads; `licenseId` is the public identifier. */
  datatype Payload = Payload(licenseId: Option<Id>, binding: Field, boundFingerprint: Field, activeUntil: Option<Time>)

  /** What parsing and checking the signature of a token gives. */
  datatype Parsed = Malformed | Unsigned(payload: Payload) | Signed(payload: Payload)

  datatype Status = Active | Expiring | Expired | Revoked | BindingMismatch | InvalidSignature | Locked

  datatype Reason =
    | MalformedToken | BadSignature | ClockRollback | CrlRollback | CrlStale
    | FingerprintDiffers | ListedInCrl | PastEnd | EndsSoon | Fine

  datatype Verdict = Verdict(status: Status, reason: Reason)

  predicate Unlocked(v: Verdict) {
    v.status == Active || v.status == Expiring
  }

  /** One call.  `stateful`: a state file is given, so the hardening is on. */
  datatype Call = Call(
    parsed: Parsed, fingerprint: string, revoked: set<Id>, now: Time, stateful: bool,
    crlVersion: Option<int>, crlGeneratedAt: Option<Time>, maxCrlAgeDays: Option<int>, skewMinutes: int)

  /** The state file. */
  datatype Memory = Memory(watermark: Option<Time>, crlVersion: Option<int>)

  const FRESH: Memory := Memory(None, None)

  /** Whole days in a duration, rounded down, as `timedelta.days`. */
  function WholeDays(d: Time): int {
    d / DAY
  }

  /** The hardening check: a reason to lock, or none. */
  function Harden(m: Memory, c: Call): Option<Reason> {
    if m.watermark.Some? && c.now < m.watermark.value - c.skewMinutes * MINUTE then Some(ClockRollback)
    else if c.crlVersion.Some? && m.crlVersion.Some? && c.crlVersion.value < m.crlVersion.value then Some(CrlRollback)
    else if c.maxCrlAgeDays.Some? && c.crlGeneratedAt.Some?
            && WholeDays(c.now - c.crlGeneratedAt.value) > c.maxCrlAgeDays.value then Some(CrlStale)
    else None
  }

  function Latest(t: Time, o: Option<Time>): Time {
    if o.Some? && o.value > t then o.value else t
  }

  function Remember(m: Memory, c: Call): Memory {
    Memory(Some(Latest(Latest(c.now, m.watermark), c.crlGeneratedAt)),
           if c.crlVersion.None? then m.crlVersion
           else if m.crlVersion.None? then c.crlVersion
           else Some(Max(c.crlVersion.value, m.crlVersion.value)))
  }

  function HardBound(p: Payload): bool {
    p.binding.Absent? || p.binding == Text("hard")
  }

  function Terms(p: Payload, c: Call): Verdict {
    if HardBound(p) && p.boundFingerprint != Text(c.fingerprint) then Verdict(BindingMismatch, FingerprintDiffers)
    else if p.licenseId.Some? && p.licenseId.value in c.revoked then Verdict(Revoked, ListedInCrl)
    else if p.activeUntil.None? then Verdict(Active, Fine)
    else if c.now >= p.activeUntil.value then Verdict(Expired, PastEnd)
    else if WholeDays(p.activeUntil.value - c.now) <= 30 then Verdict(Expiring, EndsSoon)
    else Verdict(Active, Fine)
  }

  function VerifyOffline(m: Memory, c: Call): (Memory, Verdict) {
    match c.parsed
    case Malformed => (m, Verdict(Locked, MalformedToken))
    case Unsigned(_) => (m, Verdict(InvalidSignature, BadSignature))
    case Signed(p) =>
      if !c.stateful then (m, Terms(p, c))
      else if Harden(m, c).Some? then (m, Verdict(Locked, Harden(m, c).value))
      else (Remember(m, c), Terms(p, c))
  }

  /** The state file after a sequence of calls. */
  function MemoryAfter(calls: seq<Call>): Memory {
    if calls == [] then FRESH
    else VerifyOffline(MemoryAfter(calls[..|calls| - 1]), calls[|calls| - 1]).0
  }

  /** The verdict of the last call of a sequence. */
  function VerdictOf(calls: seq<Call>): Verdict
    requires calls != []
  {
    VerifyOffline(MemoryAfter(calls[..|calls| - 1]), calls[|calls| - 1]).1
  }
}

/** `verify_offline` as it runs, on the state dictionary of one state file. */
module OfflineVerifier {
  import opened Basics
  import opened OfflineProtocol

  class StateFile {
    var watermark: Option<Time>
    var crlVersion: Option<int>

    constructor ()
      ensures Contents() == FRESH
    {
      watermark, crlVersion := None, None;
    }

    ghost function Contents(): Memory
      reads this
    {
      Memory(watermark, crlVersion)
    }

    method VerifyOffline(c: Call) returns (v: Verdict)
      modifies this
      ensures (Contents(), v) == OfflineProtocol.VerifyOffline(old(Contents()), c)
    {
      if c.parsed.Malformed? {
        return Verdict(Locked, MalformedToken);
      }
      if c.parsed.Unsigned? {
        return Verdict(InvalidSignature, BadSignature);
      }
      var payload := c.parsed.payload;
      if c.stateful {
        var wm := watermark;
        if wm.Some? && c.now < wm.value - c.skewMinutes * MINUTE {
          return Verdict(Locked, ClockRollback);
        }
        if c.crlVersion.Some? && crlVersion.Some? && c.crlVersion.value < crlVersion.value {
          return Verdict(Locked, CrlRollback);
        }
        if c.maxCrlAgeDays.Some? && c.crlGeneratedAt.Some? {
          if WholeDays(c.now - c.crlGeneratedAt.value) > c.maxCrlAgeDays.value {
            return Verdict(Locked, CrlStale);
          }
        }
        var newWm := c.now;
        var candidates := [wm, c.crlGeneratedAt];
        for i := 0 to |candidates|
          invariant newWm == if i == 0 then c.now else if i == 1 then Latest(c.now, wm)
            else Latest(Latest(c.now, wm), c.crlGeneratedAt)
        {
          if candidates[i].Some? && candidates[i].value > newWm {
            newWm := candidates[i].value;
          }
        }
        watermark := Some(newWm);
        if c.crlVersion.Some? {
          crlVersion := Some(if crlVersion.None? then c.crlVersion.value
            else Max(c.crlVersion.value, crlVersion.value));
        }
      }
      if (payload.binding.Absent? || payload.binding == Text("hard"))
        && payload.boundFingerprint != Text(c.fingerprint) {
        return Verdict(BindingMismatch, FingerprintDiffers);
      }
      if payload.licenseId.Some? && payload.licenseId.value in c.revoked {
        return Verdict(Revoked, ListedInCrl);
      }
      var until := payload.activeUntil;
      if until.Some? {
        if c.now >= until.value {
          return Verdict(Expired, PastEnd);
        }
        if WholeDays(until.value - c.now) <= 30 {
          return Verdict(Expiring, EndsSoon);
        }
      }
      v := Verdict(Active, Fine);
    }
  }
}

/** What the state file amounts to: a function of the calls that passed the hardening. */
module OfflineHistory {
  import opened Basics
  import opened OfflineProtocol

  // ----- a stateless reading of the history -----

  /** The clock of `c` is not behind anything an earlier accepted call saw, by more than the skew. */
  ghost predicate ClockKept(accepted: seq<Call>, c: Call) {
    forall i :: 0 <= i < |accepted| ==>
      && c.now >= accepted[i].now - c.skewMinutes * MINUTE
      && (accepted[i].crlGeneratedAt.Some? ==> c.now >= accepted[i].crlGeneratedAt.value - c.skewMinutes * MINUTE)
  }

  /** The list `c` consults is not older than any that an earlier accepted call consulted. */
  ghost predicate CrlKept(accepted: seq<Call>, c: Call) {
    c.crlVersion.Some? ==>
      forall i :: 0 <= i < |accepted| && accepted[i].crlVersion.Some? ==>
        c.crlVersion.value >= accepted[i].crlVersion.value
  }

  ghost predicate CrlFresh(c: Call) {
    c.maxCrlAgeDays.Some? && c.crlGeneratedAt.Some? ==>
      c.now - c.crlGeneratedAt.value < (c.maxCrlAgeDays.value + 1) * DAY
  }

  ghost predicate Accepts(accepted: seq<Call>, c: Call) {
    c.parsed.Signed? && c.stateful && ClockKept(accepted, c) && CrlKept(accepted, c) && CrlFresh(c)
  }

  /** The calls of a history that passed the hardening. */
  ghost function Accepted(calls: seq<Call>): seq<Call> {
    if calls == [] then []
    else
      var before := Accepted(calls[..|calls| - 1]);
      if Accepts(before, calls[|calls| - 1]) then before + [calls[|calls| - 1]] else before
  }

  // ----- the state file is the summary of the accepted calls -----

  /** `t` is the greatest of the clocks and CRL dates of the accepted calls. */
  ghost predicate IsWatermark(t: Option<Time>, accepted: seq<Call>) {
    && (t.None? <==> accepted == [])
    && (t.Some? ==>
          && (exists i :: 0 <= i < |accepted| && (accepted[i].now == t.value || accepted[i].crlGeneratedAt == t))
          && (forall i :: 0 <= i < |accepted| ==>
                && accepted[i].now <= t.value
                && (accepted[i].crlGeneratedAt.Some? ==> accepted[i].crlGeneratedAt.value <= t.value)))
  }

  /** `v` is the greatest list version of the accepted calls, if any gave one. */
  ghost predicate IsVersion(v: Option<int>, accepted: seq<Call>) {
    && (v.Some? <==> exists i :: 0 <= i < |accepted| && accepted[i].crlVersion.Some?)
    && (v.Some? ==>
          && (exists i :: 0 <= i < |accepted| && accepted[i].crlVersion == v)
          && (forall i :: 0 <= i < |accepted| && accepted[i].crlVersion.Some? ==>
            accepted[i].crlVersion.value <= v.value))
  }

  ghost predicate Summarises(m: Memory, accepted: seq<Call>) {
    IsWatermark(m.watermark, accepted) && IsVersion(m.crlVersion, accepted)
  }

  lemma HardenReads(m: Memory, accepted: seq<Call>, c: Call)
    requires Summarises(m, accepted)
    ensures Harden(m, c) ==
      if !ClockKept(accepted, c) then Some(ClockRollback)
      else if !CrlKept(accepted, c) then Some(CrlRollback)
      else if !CrlFresh(c) then Some(CrlStale)
      else None
  {
    if accepted != [] {
      assert ClockKept(accepted, c) <==> c.now >= m.watermark.value - c.skewMinutes * MINUTE;
    }
    assert CrlKept(accepted, c) <==>
      (c.crlVersion.Some? && m.crlVersion.Some? ==> c.crlVersion.value >= m.crlVersion.value);
  }

  lemma RememberSummarises(m: Memory, accepted: seq<Call>, c: Call)
    requires Summarises(m, accepted)
    ensures Summarises(Remember(m, c), accepted + [c])
  {
    var m', all := Remember(m, c), accepted + [c];
    assert all[|accepted|] == c;
    assert forall i :: 0 <= i < |accepted| ==> all[i] == accepted[i];
  }

  /** After any call sequence the stored watermark and version are the maxima over the accepted calls. */
  lemma {:induction false} MemoryIsSummary(calls: seq<Call>)
    ensures Summarises(MemoryAfter(calls), Accepted(calls))
  {
    if calls != [] {
      var init, c := calls[..|calls| - 1], calls[|calls| - 1];
      MemoryIsSummary(init);
      HardenReads(MemoryAfter(init), Accepted(init), c);
      if Accepts(Accepted(init), c) {
        RememberSummarises(MemoryAfter(init), Accepted(init), c);
      }
    }
  }

  /** Each rollback verdict is returned exactly when the history alone, read without any state, says so. */
  lemma VerdictsFollowHistory(calls: seq<Call>)
    requires calls != []
    ensures var c := calls[|calls| - 1];
      var accepted := Accepted(calls[..|calls| - 1]);
      var checked := c.parsed.Signed? && c.stateful;
      && (VerdictOf(calls).reason == ClockRollback <==> checked && !ClockKept(accepted, c))
      && (VerdictOf(calls).reason == CrlRollback <==> checked && ClockKept(accepted, c) && !CrlKept(accepted, c))
      && (VerdictOf(calls).reason == CrlStale <==>
            checked && ClockKept(accepted, c) && CrlKept(accepted, c) && !CrlFresh(c))
  {
    var init, c := calls[..|calls| - 1], calls[|calls| - 1];
    MemoryIsSummary(init);
    HardenReads(MemoryAfter(init), Accepted(init), c);
  }
}
