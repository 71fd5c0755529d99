/** What the offline checks answer, in the fields of the payload and the call, with the limits written out. */
module OfflineRules {
  import opened Basics
  import opened OfflineProtocol
  import opened SdkProtocol
  import opened SdkAgreement

  // ----- the terms of a genuine token -----

  predicate Listed(p: Payload, c: Call) {
    p.licenseId.Some? && p.licenseId.value in c.revoked
  }

  predicate Ended(p: Payload, c: Call) {
    p.activeUntil.Some? && p.activeUntil.value <= c.now
  }

  predicate EndsWithin(p: Payload, c: Call, left: Time) {
    p.activeUntil.Some? && p.activeUntil.value - c.now <= left
  }

  /** The verdict that goes with these facts: binding first, then the list, then the end. */
  predicate Answers(v: Verdict, fits: bool, listed: bool, ended: bool, soon: bool) {
    && (v == Verdict(BindingMismatch, FingerprintDiffers) <==> !fits)
    && (v == Verdict(Revoked, ListedInCrl) <==> fits && listed)
    && (v == Verdict(Expired, PastEnd) <==> fits && !listed && ended)
    && (v == Verdict(Expiring, EndsSoon) <==> fits && !listed && !ended && soon)
    && (v == Verdict(Active, Fine) <==> fits && !listed && !ended && !soon)
  }

  /** Python: less than 31 days are soon, a missing binding field is a hard one, any other field must be `hard`. */
  lemma PythonTerms(p: Payload, c: Call)
    ensures Answers(Terms(p, c),
                    p.binding == Absent || p.binding == Text("hard") ==> p.boundFingerprint == Text(c.fingerprint),
                    Listed(p, c), Ended(p, c), EndsWithin(p, c, 31 * 86_400 * SECOND - 1))
  {
    if p.activeUntil.Some? {
      WholeDaysAgainstDays(p.activeUntil.value - c.now, 30);
    }
  }

  /** Go: 30 days are soon; a binding field that is no string, or empty, is a hard one, and a fingerprint field that is
      no string is the empty string. */
  lemma GoTermsExactly(p: Payload, c: Call)
    ensures Answers(GoTerms(p, c),
                    !p.binding.Text? || p.binding.value == "" || p.binding.value == "hard" ==>
                      c.fingerprint == if p.boundFingerprint.Text? then p.boundFingerprint.value else "",
                    Listed(p, c), Ended(p, c), EndsWithin(p, c, 30 * 86_400 * SECOND))
  {
    if p.activeUntil.Some? && c.now < p.activeUntil.value {
      RemainingAgreement(p, c);
    }
  }

  /** Node: 30 days are soon; a binding field that JavaScript takes for false is a hard one. */
  lemma NodeTermsExactly(p: Payload, c: Call)
    ensures Answers(NodeTerms(p, c),
                    p.binding in {Absent, Null, Text(""), Text("hard"), Other(false)} ==>
                      p.boundFingerprint == Text(c.fingerprint),
                    Listed(p, c), Ended(p, c), EndsWithin(p, c, 30 * 86_400 * SECOND))
  {
    if p.activeUntil.Some? && c.now < p.activeUntil.value {
      RemainingAgreement(p, c);
    }
  }

  // ----- the hardening -----

  /** The clock is behind the watermark by more than so many seconds. */
  predicate Behind(watermark: Option<Time>, now: Time, seconds: int) {
    watermark.Some? && now + seconds * SECOND < watermark.value
  }

  predicate OlderList(remembered: Option<int>, version: Option<int>) {
    remembered.Some? && version.Some? && version.value < remembered.value
  }

  /** The list is older than the limit by `more` at least. */
  predicate TooOld(c: Call, more: Time) {
    && c.maxCrlAgeDays.Some? && c.crlGeneratedAt.Some?
    && c.now - c.crlGeneratedAt.value >= c.maxCrlAgeDays.value * 86_400 * SECOND + more
  }

  /** The reason that goes with these facts: clock first, then the list's version, then its age. */
  predicate Locks(r: Option<Reason>, behind: bool, older: bool, stale: bool) {
    && (r == Some(ClockRollback) <==> behind)
    && (r == Some(CrlRollback) <==> !behind && older)
    && (r == Some(CrlStale) <==> !behind && !older && stale)
    && (r == None <==> !behind && !older && !stale)
  }

  /** Python: a list is stale a whole day after its limit. */
  lemma PythonHardening(m: Memory, c: Call)
    ensures Locks(Harden(m, c), Behind(m.watermark, c.now, 60 * c.skewMinutes), OlderList(m.crlVersion, c.crlVersion),
                  TooOld(c, 86_400 * SECOND))
  {
    if c.maxCrlAgeDays.Some? && c.crlGeneratedAt.Some? {
      WholeDaysAgainstDays(c.now - c.crlGeneratedAt.value, c.maxCrlAgeDays.value);
    }
  }

  /** Node: a nanosecond after its limit. */
  lemma NodeHardening(m: Memory, c: Call)
    ensures Locks(NodeHarden(m, c), Behind(m.watermark, c.now, 60 * c.skewMinutes),
                  OlderList(m.crlVersion, c.crlVersion), TooOld(c, 1))
  {
    if c.maxCrlAgeDays.Some? && c.crlGeneratedAt.Some? {
      DaysAgainstDays(c.now - c.crlGeneratedAt.value, c.maxCrlAgeDays.value);
    }
  }

  /** A signed count of nanoseconds in 64 bits: what is more or less is cut to the most or the least. */
  function In64Bits(d: Time): Time {
    if d > 9_223_372_036_854_775_807 then 9_223_372_036_854_775_807
    else if d < -9_223_372_036_854_775_808 then -9_223_372_036_854_775_808
    else d
  }

  /** Go: the same, with an age in 64 bits; a remembered version of zero is none; and where no skew is set, ten minutes
      are allowed. */
  lemma GoHardening(m: GoMemory, c: Call)
    ensures Locks(GoHarden(m, c), Behind(m.watermark, c.now, if c.skewMinutes == 0 then 600 else 60 * c.skewMinutes),
                  OlderList(if m.crlVersion == 0 then None else Some(m.crlVersion), c.crlVersion),
                  && c.maxCrlAgeDays.Some? && c.crlGeneratedAt.Some?
                  && In64Bits(c.now - c.crlGeneratedAt.value) > c.maxCrlAgeDays.value * 86_400 * SECOND)
  {
    if c.maxCrlAgeDays.Some? && c.crlGeneratedAt.Some? {
      HoursAgainstDays(In64Bits(c.now - c.crlGeneratedAt.value), c.maxCrlAgeDays.value);
    }
  }

  // ----- the whole check -----

  /** The greatest of the clock, the watermark before, and the date of the list. */
  ghost predicate Greatest(t: Time, c: Call, before: Option<Time>) {
    && t in {c.now} + (set o | o in {before, c.crlGeneratedAt} && o.Some? :: o.value)
    && t >= c.now && (before.Some? ==> t >= before.value) && (c.crlGeneratedAt.Some? ==> t >= c.crlGeneratedAt.value)
  }

  /** The greater of the two versions, of those there are. */
  predicate Newest(v: Option<int>, a: Option<int>, b: Option<int>) {
    if a.Some? && b.Some? then v == Some(if a.value >= b.value then a.value else b.value)
    else v == if a.Some? then a else b
  }

  /** Python: what is answered without looking at the terms, and when the state file is written, and how. */
  lemma PythonCheck(m: Memory, c: Call)
    ensures var (m', v) := VerifyOffline(m, c);
      match c.parsed
      case Malformed => (m', v) == (m, Verdict(Locked, MalformedToken))
      case Unsigned(_) => (m', v) == (m, Verdict(InvalidSignature, BadSignature))
      case Signed(p) =>
        if !c.stateful then (m', v) == (m, Terms(p, c))
        else if Harden(m, c).Some? then (m', v) == (m, Verdict(Locked, Harden(m, c).value))
        else
          && v == Terms(p, c)
          && m'.watermark.Some? && Greatest(m'.watermark.value, c, m.watermark)
          && Newest(m'.crlVersion, c.crlVersion, m.crlVersion)
  {
  }

  /** Node does the same with its own hardening and terms. */
  lemma NodeCheck(m: Memory, c: Call)
    ensures var (m', v) := NodeVerify(m, c);
      match c.parsed
      case Malformed => (m', v) == (m, Verdict(Locked, MalformedToken))
      case Unsigned(_) => (m', v) == (m, Verdict(InvalidSignature, BadSignature))
      case Signed(p) =>
        if !c.stateful then (m', v) == (m, NodeTerms(p, c))
        else if NodeHarden(m, c).Some? then (m', v) == (m, Verdict(Locked, NodeHarden(m, c).value))
        else
          && v == NodeTerms(p, c)
          && m'.watermark.Some? && Greatest(m'.watermark.value, c, m.watermark)
          && Newest(m'.crlVersion, c.crlVersion, m.crlVersion)
  {
  }

  /** Go too; its watermark is cut to the second, and its version never goes down. */
  lemma GoCheck(m: GoMemory, c: Call)
    ensures var (m', v) := GoVerify(m, c);
      match c.parsed
      case Malformed => (m', v) == (m, Verdict(Locked, MalformedToken))
      case Unsigned(_) => (m', v) == (m, Verdict(InvalidSignature, BadSignature))
      case Signed(p) =>
        if !c.stateful then (m', v) == (m, GoTerms(p, c))
        else if GoHarden(m, c).Some? then (m', v) == (m, Verdict(Locked, GoHarden(m, c).value))
        else
          && v == GoTerms(p, c)
          && m'.watermark.Some? && m'.watermark.value % SECOND == 0
          && (exists t :: m'.watermark.value <= t < m'.watermark.value + SECOND && Greatest(t, c, m.watermark))
          && Newest(Some(m'.crlVersion), c.crlVersion, Some(m.crlVersion))
  {
    if c.parsed.Signed? && c.stateful && GoHarden(m, c).None? {
      assert Greatest(Latest(Latest(c.now, m.watermark), c.crlGeneratedAt), c, m.watermark);
    }
  }

  // ----- no skew given to Go -----

  /** With no skew set, a Go check reports a rollback exactly when it is genuine, has a state file, and its clock is
      more than 600 seconds behind. */
  lemma GoDefaultSkew(m: GoMemory, c: Call)
    requires c.skewMinutes == 0
    ensures GoVerify(m, c).1.reason == ClockRollback <==>
      && c.parsed.Signed? && c.stateful
      && m.watermark.Some? && m.watermark.value - c.now > 600 * SECOND
  {
    if c.parsed.Signed? {
      GoTermsExactly(c.parsed.payload, c);
    }
  }

  /** The call with ten minutes in place of no skew. */
  function TenMinutes(c: Call): Call {
    if c.skewMinutes == 0 then c.(skewMinutes := 10) else c
  }

  function AllTenMinutes(calls: seq<Call>): seq<Call> {
    seq(|calls|, i requires 0 <= i < |calls| => TenMinutes(calls[i]))
  }

  lemma GoTakesTenMinutes(m: GoMemory, c: Call)
    ensures GoVerify(m, c) == GoVerify(m, TenMinutes(c))
  {
  }

  lemma {:induction false} GoRunTakesTenMinutes(calls: seq<Call>)
    ensures GoMemoryAfter(calls) == GoMemoryAfter(AllTenMinutes(calls))
  {
    if calls != [] {
      var init := calls[..|calls| - 1];
      GoRunTakesTenMinutes(init);
      GoTakesTenMinutes(GoMemoryAfter(init), calls[|calls| - 1]);
      assert AllTenMinutes(calls)[..|calls| - 1] == AllTenMinutes(init);
    }
  }

  ghost predicate AllComparable(calls: seq<Call>) {
    forall i :: 0 <= i < |calls| ==> Comparable(calls[i]) && !InAgeBand(calls[i])
  }

  lemma RunAgreement(calls: seq<Call>, c: Call)
    requires AllComparable(calls) && Comparable(c) && !InAgeBand(c)
    ensures Related(MemoryAfter(calls), GoMemoryAfter(calls), NodeMemoryAfter(calls))
    ensures Agree(VerifyOffline(MemoryAfter(calls), c).1, GoVerify(GoMemoryAfter(calls), c).1,
                  NodeVerify(NodeMemoryAfter(calls), c).1, c)
  {
    CrossSdkAgreement(calls, c);
  }

  /** Over every run of comparable calls, Go with no skew set agrees with Python and Node with one of ten minutes. */
  lemma DefaultSkewAgreement(calls: seq<Call>, c: Call)
    requires AllComparable(AllTenMinutes(calls)) && Comparable(TenMinutes(c)) && !InAgeBand(c)
    ensures var python, t := AllTenMinutes(calls), TenMinutes(c);
      && Related(MemoryAfter(python), GoMemoryAfter(calls), NodeMemoryAfter(python))
      && Agree(VerifyOffline(MemoryAfter(python), t).1, GoVerify(GoMemoryAfter(calls), c).1,
               NodeVerify(NodeMemoryAfter(python), t).1, t)
  {
    RunAgreement(AllTenMinutes(calls), TenMinutes(c));
    GoRunTakesTenMinutes(calls);
    GoTakesTenMinutes(GoMemoryAfter(calls), c);
  }
}
