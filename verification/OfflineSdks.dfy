/** The offline check of the Go and Node SDKs, on the calls and payloads of the Python one. */
module SdkProtocol {
  import opened Basics
  import opened OfflineProtocol

  const HOUR: int := 3600 * SECOND
  const MAX_DURATION: int := 0x7FFF_FFFF_FFFF_FFFF

  // ----- Go -----

  /** The decoded state file: an empty watermark and a zero version stand for absent ones. */
  datatype GoMemory = GoMemory(watermark: Option<Time>, crlVersion: int)

  /** `Time.Sub`: a signed 64-bit count of nanoseconds, saturating. */
  function GoSub(t: Time, u: Time): Time {
    if t - u > MAX_DURATION then MAX_DURATION
    else if t - u < -MAX_DURATION - 1 then -MAX_DURATION - 1
    else t - u
  }

  function Hours(d: Time): real {
    d as real / HOUR as real
  }

  /** The RFC 3339 layout without fractions keeps whole seconds only. */
  function ToSeconds(t: Time): Time {
    t - t % SECOND
  }

  function GoSkew(c: Call): int {
    if c.skewMinutes == 0 then DEFAULT_SKEW_MINUTES else c.skewMinutes
  }

  function GoStale(c: Call): bool {
    && c.maxCrlAgeDays.Some? && c.crlGeneratedAt.Some?
    && Hours(GoSub(c.now, c.crlGeneratedAt.value)) > c.maxCrlAgeDays.value as real * 24.0
  }

  function GoHarden(m: GoMemory, c: Call): Option<Reason> {
    if m.watermark.Some? && c.now < m.watermark.value - GoSkew(c) * MINUTE then Some(ClockRollback)
    else if c.crlVersion.Some? && m.crlVersion != 0 && c.crlVersion.value < m.crlVersion then Some(CrlRollback)
    else if GoStale(c) then Some(CrlStale)
    else None
  }

  function GoRemember(m: GoMemory, c: Call): GoMemory {
    GoMemory(Some(ToSeconds(Latest(Latest(c.now, m.watermark), c.crlGeneratedAt))),
             if c.crlVersion.Some? && c.crlVersion.value > m.crlVersion then c.crlVersion.value else m.crlVersion)
  }

  /** A field as the Go code reads it: anything but a string is the empty string. */
  function Str(f: Field): string {
    if f.Text? then f.value else ""
  }

  predicate GoHardBound(p: Payload) {
    Str(p.binding) == "" || Str(p.binding) == "hard"
  }

  function GoTerms(p: Payload, c: Call): Verdict {
    if GoHardBound(p) && Str(p.boundFingerprint) != c.fingerprint then Verdict(BindingMismatch, FingerprintDiffers)
    else if p.licenseId.Some? && p.licenseId.value in c.revoked then Verdict(Revoked, ListedInCrl)
    else if p.activeUntil.None? then Verdict(Active, Fine)
    else if c.now >= p.activeUntil.value then Verdict(Expired, PastEnd)
    else if Hours(GoSub(p.activeUntil.value, c.now)) <= 720.0 then Verdict(Expiring, EndsSoon)
    else Verdict(Active, Fine)
  }

  function GoVerify(m: GoMemory, c: Call): (GoMemory, Verdict) {
    match c.parsed
    case Malformed => (m, Verdict(Locked, MalformedToken))
    case Unsigned(_) => (m, Verdict(InvalidSignature, BadSignature))
    case Signed(p) =>
      if !c.stateful then (m, GoTerms(p, c))
      else if GoHarden(m, c).Some? then (m, Verdict(Locked, GoHarden(m, c).value))
      else (GoRemember(m, c), GoTerms(p, c))
  }

  function GoMemoryAfter(calls: seq<Call>): GoMemory {
    if calls == [] then GoMemory(None, 0)
    else GoVerify(GoMemoryAfter(calls[..|calls| - 1]), calls[|calls| - 1]).0
  }

  // ----- Node -----

  function Days(d: Time): real {
    d as real / DAY as real
  }

  function NodeStale(c: Call): bool {
    && c.maxCrlAgeDays.Some? && c.crlGeneratedAt.Some?
    && Days(c.now - c.crlGeneratedAt.value) > c.maxCrlAgeDays.value as real
  }

  function NodeHarden(m: Memory, c: Call): Option<Reason> {
    if m.watermark.Some? && c.now < m.watermark.value - c.skewMinutes * MINUTE then Some(ClockRollback)
    else if c.crlVersion.Some? && m.crlVersion.Some? && c.crlVersion.value < m.crlVersion.value then Some(CrlRollback)
    else if NodeStale(c) then Some(CrlStale)
    else None
  }

  /** `(binding || "hard") === "hard"`. */
  predicate NodeHardBound(p: Payload) {
    match p.binding
    case Text(value) => value == "" || value == "hard"
    case Other(truthy) => !truthy
    case _ => true
  }

  function NodeTerms(p: Payload, c: Call): Verdict {
    if NodeHardBound(p) && p.boundFingerprint != Text(c.fingerprint) then Verdict(BindingMismatch, FingerprintDiffers)
    else if p.licenseId.Some? && p.licenseId.value in c.revoked then Verdict(Revoked, ListedInCrl)
    else if p.activeUntil.None? then Verdict(Active, Fine)
    else if c.now >= p.activeUntil.value then Verdict(Expired, PastEnd)
    else if Days(p.activeUntil.value - c.now) <= 30.0 then Verdict(Expiring, EndsSoon)
    else Verdict(Active, Fine)
  }

  function NodeVerify(m: Memory, c: Call): (Memory, Verdict) {
    match c.parsed
    case Malformed => (m, Verdict(Locked, MalformedToken))
    case Unsigned(_) => (m, Verdict(InvalidSignature, BadSignature))
    case Signed(p) =>
      if !c.stateful then (m, NodeTerms(p, c))
      else if NodeHarden(m, c).Some? then (m, Verdict(Locked, NodeHarden(m, c).value))
      else (Remember(m, c), NodeTerms(p, c))
  }

  function NodeMemoryAfter(calls: seq<Call>): Memory {
    if calls == [] then FRESH
    else NodeVerify(NodeMemoryAfter(calls[..|calls| - 1]), calls[|calls| - 1]).0
  }
}

/** The Go and Node checks as they run. */
module OfflineSdks {
  import opened Basics
  import opened OfflineProtocol
  import opened SdkProtocol

  class GoStateFile {
    var watermark: Option<Time>
    var crlVersion: int

    constructor ()
      ensures Contents() == GoMemory(None, 0)
    {
      watermark, crlVersion := None, 0;
    }

    ghost function Contents(): GoMemory
      reads this
    {
      GoMemory(watermark, crlVersion)
    }

    method VerifyOfflineOpts(c: Call) returns (v: Verdict)
      modifies this
      ensures (Contents(), v) == GoVerify(old(Contents()), c)
    {
      if c.parsed.Malformed? {
        return Verdict(Locked, MalformedToken);
      }
      if c.parsed.Unsigned? {
        return Verdict(InvalidSignature, BadSignature);
      }
      if c.stateful {
        var skew := c.skewMinutes;
        if skew == 0 {
          skew := DEFAULT_SKEW_MINUTES;
        }
        if watermark.Some? && c.now < watermark.value - skew * MINUTE {
          return Verdict(Locked, ClockRollback);
        }
        if c.crlVersion.Some? && crlVersion != 0 && c.crlVersion.value < crlVersion {
          return Verdict(Locked, CrlRollback);
        }
        if GoStale(c) {
          return Verdict(Locked, CrlStale);
        }
        var newWm := c.now;
        if watermark.Some? && watermark.value > newWm {
          newWm := watermark.value;
        }
        if c.crlGeneratedAt.Some? && c.crlGeneratedAt.value > newWm {
          newWm := c.crlGeneratedAt.value;
        }
        watermark := Some(ToSeconds(newWm));
        if c.crlVersion.Some? && c.crlVersion.value > crlVersion {
          crlVersion := c.crlVersion.value;
        }
      }
      v := GoTerms(c.parsed.payload, c);
    }
  }

  class NodeStateFile {
    var watermark: Option<Time>
    var crlVersion: Option<int>

    constructor ()
      ensures Contents() == FRESH
    {
      watermark, crlVersion := None, None;
    }

    ghost function Contents(): Memory
      reads this
    {
      Memory(watermark, crlVersion)
    }

    method VerifyOffline(c: Call) returns (v: Verdict)
      modifies this
      ensures (Contents(), v) == NodeVerify(old(Contents()), c)
    {
      if c.parsed.Malformed? {
        return Verdict(Locked, MalformedToken);
      }
      if c.parsed.Unsigned? {
        return Verdict(InvalidSignature, BadSignature);
      }
      if c.stateful {
        var wm := watermark;
        if wm.Some? && c.now < wm.value - c.skewMinutes * MINUTE {
          return Verdict(Locked, ClockRollback);
        }
        if c.crlVersion.Some? && crlVersion.Some? && c.crlVersion.value < crlVersion.value {
          return Verdict(Locked, CrlRollback);
        }
        if NodeStale(c) {
          return Verdict(Locked, CrlStale);
        }
        var newWm := c.now;
        var candidates := [wm, c.crlGeneratedAt];
        for i := 0 to |candidates|
          invariant newWm == if i == 0 then c.now else if i == 1 then Latest(c.now, wm)
            else Latest(Latest(c.now, wm), c.crlGeneratedAt)
        {
          if candidates[i].Some? && candidates[i].value > newWm {
            newWm := candidates[i].value;
          }
        }
        watermark := Some(newWm);
        if c.crlVersion.Some? {
          crlVersion :=
            Some(Max(c.crlVersion.value, if crlVersion.Some? then crlVersion.value else c.crlVersion.value));
        }
      }
      v := NodeTerms(c.parsed.payload, c);
    }
  }
}

/** Where the three SDKs agree, and exactly where they do not. */
module SdkAgreement {
  import opened Basics
  import Tables
  import Issuance = IssuanceProtocol
  import opened OfflineProtocol
  import opened SdkProtocol

  predicate WholeSecond(t: Time) {
    t % SECOND == 0
  }

  predicate WholeSecondOpt(o: Option<Time>) {
    o.Some? ==> WholeSecond(o.value)
  }

  /** A payload as the authority writes it: string fields are strings, and the binding mode is not empty. */
  predicate WellFormed(p: Payload) {
    && (p.binding.Absent? || (p.binding.Text? && p.binding.value != ""))
    && p.boundFingerprint.Text?
    && WholeSecondOpt(p.activeUntil)
  }

  /** The age of the consulted list is strictly between its limit and one day more. */
  predicate InAgeBand(c: Call) {
    && c.maxCrlAgeDays.Some? && c.crlGeneratedAt.Some?
    && c.maxCrlAgeDays.value * DAY < c.now - c.crlGeneratedAt.value < (c.maxCrlAgeDays.value + 1) * DAY
  }

  /** What the three languages can all represent alike: whole seconds, list versions of at least one, a skew that is not
      zero, and, where an age limit is given, list ages within the 292 years of a Go duration. */
  predicate Comparable(c: Call) {
    && WholeSecond(c.now) && WholeSecondOpt(c.crlGeneratedAt)
    && (c.crlVersion.Some? ==> c.crlVersion.value >= 1)
    && c.skewMinutes != 0
    && (c.parsed.Signed? ==> WellFormed(c.parsed.payload))
    && (c.maxCrlAgeDays.Some? && c.crlGeneratedAt.Some? ==>
          -MAX_DURATION <= c.now - c.crlGeneratedAt.value <= MAX_DURATION)
  }

  ghost predicate Related(m: Memory, g: GoMemory, n: Memory) {
    && n == m
    && g.watermark == m.watermark && WholeSecondOpt(m.watermark)
    && (m.crlVersion.None? <==> g.crlVersion == 0)
    && (m.crlVersion.Some? ==> m.crlVersion.value == g.crlVersion >= 1)
  }

  // ----- durations -----

  lemma HoursAgainstDays(d: Time, days: int)
    ensures Hours(d) > days as real * 24.0 <==> d > days * DAY
  {
    assert DAY == 24 * HOUR;
    assert Hours(d) * HOUR as real == d as real;
    assert (days * DAY) as real == days as real * 24.0 * HOUR as real;
  }

  lemma DaysAgainstDays(d: Time, days: int)
    ensures Days(d) > days as real <==> d > days * DAY
  {
    assert Days(d) * DAY as real == d as real;
    assert (days * DAY) as real == days as real * DAY as real;
  }

  lemma WholeDaysAgainstDays(d: Time, days: int)
    ensures WholeDays(d) > days <==> d >= (days + 1) * DAY
  {
    assert WholeDays(d) * DAY <= d < (WholeDays(d) + 1) * DAY;
  }

  // ----- one call -----

  predicate PythonStale(c: Call) {
    c.maxCrlAgeDays.Some? && c.crlGeneratedAt.Some? && WholeDays(c.now - c.crlGeneratedAt.value) > c.maxCrlAgeDays.value
  }

  /** The age limit: Go and Node agree, and differ from Python exactly inside the band, where they lock and it does
      not. */
  lemma AgeLimitAgreement(c: Call)
    requires Comparable(c)
    ensures GoStale(c) == NodeStale(c)
    ensures GoStale(c) != PythonStale(c) <==> InAgeBand(c)
    ensures InAgeBand(c) ==> GoStale(c) && !PythonStale(c)
  {
    if c.maxCrlAgeDays.Some? && c.crlGeneratedAt.Some? {
      var age := c.now - c.crlGeneratedAt.value;
      HoursAgainstDays(age, c.maxCrlAgeDays.value);
      DaysAgainstDays(age, c.maxCrlAgeDays.value);
      WholeDaysAgainstDays(age, c.maxCrlAgeDays.value);
    }
  }

  /** Strictly between 30 and 31 days remain. */
  predicate InLastDayBand(p: Payload, c: Call) {
    p.activeUntil.Some? && 30 * DAY < p.activeUntil.value - c.now < 31 * DAY
  }

  lemma RemainingAgreement(p: Payload, c: Call)
    requires p.activeUntil.Some? && c.now < p.activeUntil.value
    ensures var left := p.activeUntil.value - c.now;
      && (Hours(GoSub(p.activeUntil.value, c.now)) <= 720.0 <==> left <= 30 * DAY)
      && (Days(left) <= 30.0 <==> left <= 30 * DAY)
      && (WholeDays(left) <= 30 <==> left < 31 * DAY)
  {
    var left := p.activeUntil.value - c.now;
    HoursAgainstDays(GoSub(p.activeUntil.value, c.now), 30);
    DaysAgainstDays(left, 30);
    WholeDaysAgainstDays(left, 30);
  }

  /** On a well-formed payload Go and Node give the same verdict, and differ from Python exactly where Python already
      says `expiring` and they still say `active`. */
  lemma TermsAgreement(p: Payload, c: Call)
    requires WellFormed(p)
    ensures GoTerms(p, c) == NodeTerms(p, c)
    ensures GoTerms(p, c) != Terms(p, c) <==> Terms(p, c).status == Expiring && InLastDayBand(p, c)
    ensures GoTerms(p, c) != Terms(p, c) ==> GoTerms(p, c).status == Active
  {
    if p.activeUntil.Some? && c.now < p.activeUntil.value {
      RemainingAgreement(p, c);
    }
  }

  lemma RememberAgreement(m: Memory, g: GoMemory, c: Call)
    requires Related(m, g, m) && Comparable(c)
    ensures Related(Remember(m, c), GoRemember(g, c), Remember(m, c))
  {
  }

  /** The verdicts of the three SDKs on one call differ at most in `expiring` against `active` inside the band. */
  ghost predicate Agree(python: Verdict, go: Verdict, node: Verdict, c: Call) {
    && go == node
    && Unlocked(python) == Unlocked(go)
    && (python != go ==>
          && python.status == Expiring && go.status == Active
          && c.parsed.Signed? && InLastDayBand(c.parsed.payload, c))
  }

  lemma CallAgreement(m: Memory, g: GoMemory, c: Call)
    requires Related(m, g, m) && Comparable(c) && !InAgeBand(c)
    ensures Related(VerifyOffline(m, c).0, GoVerify(g, c).0, NodeVerify(m, c).0)
    ensures Agree(VerifyOffline(m, c).1, GoVerify(g, c).1, NodeVerify(m, c).1, c)
  {
    if c.parsed.Signed? {
      AgeLimitAgreement(c);
      TermsAgreement(c.parsed.payload, c);
      RememberAgreement(m, g, c);
      assert GoHarden(g, c) == Harden(m, c) == NodeHarden(m, c);
    }
  }

  // ----- whole runs -----

  lemma {:induction false} MemoryAgreement(calls: seq<Call>)
    requires forall i :: 0 <= i < |calls| ==> Comparable(calls[i]) && !InAgeBand(calls[i])
    ensures Related(MemoryAfter(calls), GoMemoryAfter(calls), NodeMemoryAfter(calls))
  {
    if calls != [] {
      var init := calls[..|calls| - 1];
      MemoryAgreement(init);
      CallAgreement(MemoryAfter(init), GoMemoryAfter(init), calls[|calls| - 1]);
    }
  }

  /** Over every run of comparable calls outside the age band, the three SDKs keep related state files, agree on
      whether the product is unlocked, and agree on the status but for the last-day band. */
  lemma CrossSdkAgreement(calls: seq<Call>, c: Call)
    requires forall i :: 0 <= i < |calls| ==> Comparable(calls[i]) && !InAgeBand(calls[i])
    requires Comparable(c) && !InAgeBand(c)
    ensures Related(MemoryAfter(calls), GoMemoryAfter(calls), NodeMemoryAfter(calls))
    ensures Agree(VerifyOffline(MemoryAfter(calls), c).1, GoVerify(GoMemoryAfter(calls), c).1,
                  NodeVerify(NodeMemoryAfter(calls), c).1, c)
  {
    MemoryAgreement(calls);
    CallAgreement(MemoryAfter(calls), GoMemoryAfter(calls), c);
  }

  // ----- where they divide -----

  /** The licence is neither listed nor at its end. */
  predicate InForce(p: Payload, c: Call) {
    && (p.licenseId.Some? ==> p.licenseId.value !in c.revoked)
    && (p.activeUntil.Some? ==> c.now < p.activeUntil.value)
  }

  /** The clock is not behind the watermark by more than the skew, and the list not older than the one remembered. */
  predicate NotRolledBack(m: Memory, c: Call) {
    && (m.watermark.Some? ==> c.now >= m.watermark.value - c.skewMinutes * MINUTE)
    && (c.crlVersion.Some? && m.crlVersion.Some? ==> c.crlVersion.value >= m.crlVersion.value)
  }

  /** With related state files, a comparable call divides Python from the others on unlocking exactly when the list's
      age is in the band, nothing was rolled back, and the token is genuine, for this host and in force: Python then
      unlocks, the others report the list stale. */
  lemma AgeBandDisagreement(m: Memory, g: GoMemory, c: Call)
    requires Related(m, g, m) && Comparable(c)
    ensures Unlocked(GoVerify(g, c).1) == Unlocked(NodeVerify(m, c).1)
    ensures Unlocked(VerifyOffline(m, c).1) != Unlocked(GoVerify(g, c).1) <==>
      && c.stateful && InAgeBand(c) && NotRolledBack(m, c) && c.parsed.Signed? && InForce(c.parsed.payload, c)
      && (HardBound(c.parsed.payload) ==> c.parsed.payload.boundFingerprint == Text(c.fingerprint))
    ensures Unlocked(VerifyOffline(m, c).1) != Unlocked(GoVerify(g, c).1) ==> GoVerify(g, c).1.reason == CrlStale
  {
    if c.parsed.Signed? {
      AgeLimitAgreement(c);
      TermsAgreement(c.parsed.payload, c);
    }
  }

  /** A binding field that Python does not take for `hard` and Go, which reads a string or nothing, does. */
  predicate SoftInPython(f: Field) {
    f.Null? || f == Text("") || f.Other?
  }

  /** On any payload and any host, exactly when Python and Go differ on unlocking: the token is in force, and either the
      binding field is null, empty or no string and the fingerprint differs, so that only Python unlocks; or the token
      is hard-bound to a fingerprint that is no string and the host has an empty one, so that only Go does. */
  lemma PythonAgainstGo(p: Payload, c: Call)
    ensures Unlocked(Terms(p, c)) != Unlocked(GoTerms(p, c)) <==>
      InForce(p, c) &&
      if SoftInPython(p.binding) then Str(p.boundFingerprint) != c.fingerprint
      else HardBound(p) && !p.boundFingerprint.Text? && c.fingerprint == ""
    ensures Unlocked(Terms(p, c)) && !Unlocked(GoTerms(p, c)) ==> SoftInPython(p.binding)
  {
  }

  /** And exactly when Python and Node do: in force, with a binding field that is null, empty or false to JavaScript,
      and another fingerprint; only Python unlocks. */
  lemma PythonAgainstNode(p: Payload, c: Call)
    ensures Unlocked(Terms(p, c)) != Unlocked(NodeTerms(p, c)) <==>
      && InForce(p, c) && SoftInPython(p.binding) && p.binding != Other(true)
      && p.boundFingerprint != Text(c.fingerprint)
    ensures Unlocked(NodeTerms(p, c)) ==> Unlocked(Terms(p, c))
  {
  }

  /** The payload the authority signs for an offline licence: hard-bound, and the deployment id is its fingerprint. */
  function PayloadOf(lic: Tables.License): Payload {
    Payload(Some(lic.publicId), Text("hard"),
            if lic.boundFingerprint.Some? then Text(lic.boundFingerprint.value) else Null, lic.activeUntil)
  }

  /** No issued payload divides them. */
  lemma IssuedPayloadsAgree(req: Issuance.IssueRequest, c: Call)
    ensures var p := PayloadOf(Issuance.OfflineLicense(req));
      Unlocked(Terms(p, c)) == Unlocked(GoTerms(p, c)) == Unlocked(NodeTerms(p, c))
  {
    PythonAgainstGo(PayloadOf(Issuance.OfflineLicense(req)), c);
    PythonAgainstNode(PayloadOf(Issuance.OfflineLicense(req)), c);
  }
}
