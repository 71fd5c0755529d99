/** The compact signed token: two base64url parts joined by a dot. */
module ForgeFile {
  import opened Basics
  import opened Json
  import opened Utf8
  import Base64Url

  /** The bytes that are signed. */
  function Canonical(payload: Json): seq<Byte> {
    Utf8.Encode(Dumps(payload))
  }

  function BuildBlob(payload: Json, signature: seq<Byte>): string {
    Base64Url.Encode(Canonical(payload)) + "." + Base64Url.Encode(signature)
  }

  /** What `str.strip` removes. */
  predicate IsWhite(c: char) {
    var n := c as int;
    9 <= n <= 13 || 28 <= n <= 32 || n == 0x85 || n == 0xA0 || n == 0x1680 || 0x2000 <= n <= 0x200A
    || n == 0x2028 || n == 0x2029 || n == 0x202F || n == 0x205F || n == 0x3000
  }

  function Strip(s: string): string {
    if s == "" then s
    else if IsWhite(s[0]) then Strip(s[1..])
    else if IsWhite(s[|s| - 1]) then Strip(s[..|s| - 1])
    else s
  }

  /** `split(".")`. */
  function Split(s: string): (parts: seq<string>)
    ensures |parts| >= 1
  {
    if s == "" then [""]
    else
      var rest := Split(s[1..]);
      if s[0] == '.' then [""] + rest else [[s[0]] + rest[0]] + rest[1..]
  }

  /** The text and the value of a payload's bytes. */
  function LoadPayload(bytes: seq<Byte>): Option<Json> {
    match Utf8.Decode(bytes)
    case None => None
    case Some(text) => Loads(text)
  }

  /** Whether the signature verifies, and the payload; nothing for a malformed token. */
  function ParseAndVerify(blob: string, verify: (seq<Byte>, seq<Byte>) -> bool): Option<(bool, Json)> {
    var parts := Split(Strip(blob));
    if |parts| != 2 then None
    else
      var payloadBytes, signature := Base64Url.Decode(parts[0]), Base64Url.Decode(parts[1]);
      if payloadBytes.None? || signature.None? then None
      else
        match LoadPayload(payloadBytes.value)
        case None => None
        case Some(payload) => Some((verify(payloadBytes.value, signature.value), payload))
  }
}

module ForgeTokens {
  import opened Basics
  import opened Json
  import opened Utf8
  import opened ForgeFile
  import Base64Url
  import JsonCanonical

  /** `verify` accepts exactly what `sign` produces. */
  ghost predicate Genuine(sign: seq<Byte> -> seq<Byte>, verify: (seq<Byte>, seq<Byte>) -> bool) {
    forall m, s :: verify(m, s) <==> s == sign(m)
  }

  predicate AllWhite(s: string) {
    forall i :: 0 <= i < |s| ==> IsWhite(s[i])
  }

  predicate NoneWhite(s: string) {
    forall i :: 0 <= i < |s| ==> !IsWhite(s[i])
  }

  lemma {:induction false} StripsWhite(before: string, s: string, after: string)
    requires AllWhite(before) && AllWhite(after) && NoneWhite(s) && s != ""
    ensures Strip(before + s + after) == s
    decreases |before| + |after|
  {
    var t := before + s + after;
    if before != "" {
      assert t[1..] == before[1..] + s + after;
      StripsWhite(before[1..], s, after);
    } else if after != "" {
      assert t[0] == s[0];
      assert t[..|t| - 1] == before + s + after[..|after| - 1];
      StripsWhite(before, s, after[..|after| - 1]);
    } else {
      assert t == s;
    }
  }

  lemma {:induction false} SplitsNowhere(s: string)
    requires '.' !in s
    ensures Split(s) == [s]
  {
    if s != "" {
      SplitsNowhere(s[1..]);
      assert [s[0]] + s[1..] == s;
    }
  }

  lemma {:induction false} SplitsAtDot(a: string, b: string)
    requires '.' !in a && '.' !in b
    ensures Split(a + "." + b) == [a, b]
  {
    var s := a + "." + b;
    if a == "" {
      SplitsNowhere(b);
      assert s[1..] == b;
    } else {
      SplitsAtDot(a[1..], b);
      assert s[1..] == a[1..] + "." + b;
      assert [a[0]] + a[1..] == a;
    }
  }

  lemma AlphabetIsClean(s: string)
    requires Base64Url.AllInAlphabet(s)
    ensures '.' !in s && NoneWhite(s)
  {
    forall c | c in s ensures c != '.' && !IsWhite(c) {
      var i :| 0 <= i < |s| && s[i] == c;
      assert Base64Url.InAlphabet(s[i]);
    }
  }

  /** Two parts in the alphabet, whatever white space surrounds them, come back as those two parts. */
  lemma FramingRoundTrip(before: string, a: string, b: string, after: string)
    requires Base64Url.AllInAlphabet(a) && Base64Url.AllInAlphabet(b) && AllWhite(before) && AllWhite(after)
    ensures Split(Strip(before + (a + "." + b) + after)) == [a, b]
  {
    AlphabetIsClean(a);
    AlphabetIsClean(b);
    StripsWhite(before, a + "." + b, after);
    SplitsAtDot(a, b);
  }

  lemma PlainFraming(a: string, b: string)
    requires Base64Url.AllInAlphabet(a) && Base64Url.AllInAlphabet(b)
    ensures Split(Strip(a + "." + b)) == [a, b]
  {
    FramingRoundTrip("", a, b, "");
    NothingAround(a + "." + b);
  }

  lemma NothingAround(s: string)
    ensures "" + s + "" == s
  {
  }

  /** The canonical bytes of a payload load as that payload with its keys sorted, an equal value. */
  lemma PayloadRoundTrip(payload: Json)
    requires WellFormed(payload)
    ensures LoadPayload(Canonical(payload)) == Some(Norm(payload)) && Equiv(Norm(payload), payload)
  {
    Utf8.RoundTrip(Dumps(payload));
    JsonCanonical.DumpsRoundTrip(payload);
  }

  /** The answer for a token whose first part is a payload's encoding and whose second part decodes. */
  lemma AnswerFor(payload: Json, b: string, signature: seq<Byte>, before: string, after: string,
                  verify: (seq<Byte>, seq<Byte>) -> bool)
    requires WellFormed(payload) && AllWhite(before) && AllWhite(after)
    requires Base64Url.AllInAlphabet(b) && Base64Url.Decode(b) == Some(signature)
    ensures ParseAndVerify(before + (Base64Url.Encode(Canonical(payload)) + "." + b) + after, verify)
      == Some((verify(Canonical(payload), signature), Norm(payload)))
  {
    Base64Url.StrippedRoundTrip(Canonical(payload));
    FramingRoundTrip(before, Base64Url.Encode(Canonical(payload)), b, after);
    PayloadRoundTrip(payload);
  }

  /** A token built with a payload's signature verifies and yields the payload, with white space around it or not;
      built with any other bytes as its signature it yields the payload and does not verify. */
  lemma BlobRoundTrip(payload: Json, signature: seq<Byte>, before: string, after: string,
                      sign: seq<Byte> -> seq<Byte>, verify: (seq<Byte>, seq<Byte>) -> bool)
    requires WellFormed(payload) && AllWhite(before) && AllWhite(after) && Genuine(sign, verify)
    ensures ParseAndVerify(before + BuildBlob(payload, signature) + after, verify)
      == Some((signature == sign(Canonical(payload)), Norm(payload)))
    ensures Equiv(Norm(payload), payload)
  {
    Base64Url.StrippedRoundTrip(signature);
    AnswerFor(payload, Base64Url.Encode(signature), signature, before, after, verify);
    PayloadRoundTrip(payload);
  }

  /** A signed byte string names one payload: the canonical bytes agree exactly for equal payloads. */
  lemma SignedBytesNameOnePayload(p: Json, q: Json)
    requires WellFormed(p) && WellFormed(q)
    ensures Canonical(p) == Canonical(q) <==> Equiv(p, q)
  {
    Utf8.RoundTrip(Dumps(p));
    Utf8.RoundTrip(Dumps(q));
    JsonCanonical.CanonicalText(p, q);
  }

  /** Where the signatures of two different messages differ, a payload framed with the signature of another verifies
      exactly when the two payloads are equal. */
  lemma SignatureIsForOnePayload(p: Json, q: Json, sign: seq<Byte> -> seq<Byte>, verify: (seq<Byte>, seq<Byte>) -> bool)
    requires WellFormed(p) && WellFormed(q) && Genuine(sign, verify)
    requires sign(Canonical(p)) == sign(Canonical(q)) ==> Canonical(p) == Canonical(q)
    ensures ParseAndVerify(BuildBlob(p, sign(Canonical(q))), verify) == Some((Equiv(p, q), Norm(p)))
  {
    BlobRoundTrip(p, sign(Canonical(q)), "", "", sign, verify);
    NothingAround(BuildBlob(p, sign(Canonical(q))));
    SignedBytesNameOnePayload(p, q);
  }

  /** Where only the canonical bytes of `issued` payloads carry a signature that verifies, every token that verifies
      yields one of them. */
  lemma VerifiedPayloadWasIssued(blob: string, issued: set<Json>, verify: (seq<Byte>, seq<Byte>) -> bool)
    requires forall p :: p in issued ==> WellFormed(p)
    requires forall m, s :: verify(m, s) ==> exists p :: p in issued && m == Canonical(p)
    requires ParseAndVerify(blob, verify).Some? && ParseAndVerify(blob, verify).value.0
    ensures exists p :: p in issued && Equiv(ParseAndVerify(blob, verify).value.1, p)
  {
    var parts := Split(Strip(blob));
    var m := Base64Url.Decode(parts[0]).value;
    assert verify(m, Base64Url.Decode(parts[1]).value);
    var p :| p in issued && m == Canonical(p);
    PayloadRoundTrip(p);
  }

  // ----- which texts verify -----

  /** The two parts of a token stand for the bytes `m` and for the signature of `m`. */
  ghost predicate CarriesSigned(parts: seq<string>, m: seq<Byte>, sign: seq<Byte> -> seq<Byte>) {
    |parts| == 2 && Base64Url.Encodes(parts[0], m) && Base64Url.Encodes(parts[1], sign(m))
  }

  /** Exactly which texts verify with payload `q`: stripped and split they have two parts, of which one stands for bytes
      that load as `q` and the other for their signature.  Each part is the encoding up to what its decoder ignores. */
  lemma VerifiesExactly(t: string, q: Json, sign: seq<Byte> -> seq<Byte>, verify: (seq<Byte>, seq<Byte>) -> bool)
    requires Genuine(sign, verify)
    ensures ParseAndVerify(t, verify) == Some((true, q))
      <==> exists m :: CarriesSigned(Split(Strip(t)), m, sign) && LoadPayload(m) == Some(q)
  {
    var parts := Split(Strip(t));
    if |parts| == 2 {
      forall m: seq<Byte> ensures Base64Url.Decode(parts[0]) == Some(m) <==> Base64Url.Encodes(parts[0], m) {
        Base64Url.DecodesEncoded(parts[0], m);
      }
      forall m: seq<Byte> ensures Base64Url.Decode(parts[1]) == Some(m) <==> Base64Url.Encodes(parts[1], m) {
        Base64Url.DecodesEncoded(parts[1], m);
      }
    }
  }

  /** `verify` accepts the signatures of the issued payloads' canonical bytes, and nothing else. */
  ghost predicate OnlyIssued(issued: set<Json>, sign: seq<Byte> -> seq<Byte>, verify: (seq<Byte>, seq<Byte>) -> bool) {
    && (forall p :: p in issued ==> WellFormed(p))
    && (forall m, s :: verify(m, s) <==> s == sign(m) && SignedFor(issued, m))
  }

  ghost predicate SignedFor(issued: set<Json>, m: seq<Byte>) {
    exists p :: p in issued && m == Canonical(p)
  }

  lemma NormsAgree(p: Json, q: Json)
    requires WellFormed(p) && WellFormed(q) && Norm(p) == Norm(q)
    ensures Canonical(p) == Canonical(q)
  {
  }

  lemma BytesOfIssued(p: Json, m: seq<Byte>, issued: set<Json>)
    requires p in issued && SignedFor(issued, m) && LoadPayload(m) == Some(Norm(p))
    requires forall q :: q in issued ==> WellFormed(q)
    ensures m == Canonical(p)
  {
    var q :| q in issued && m == Canonical(q);
    PayloadRoundTrip(q);
    NormsAgree(p, q);
  }

  /** For an issued payload: exactly the texts whose parts stand for its canonical bytes and for their signature. */
  lemma TextsOfPayload(t: string, p: Json, issued: set<Json>, sign: seq<Byte> -> seq<Byte>,
                       verify: (seq<Byte>, seq<Byte>) -> bool)
    requires OnlyIssued(issued, sign, verify) && p in issued
    ensures ParseAndVerify(t, verify) == Some((true, Norm(p))) <==> CarriesSigned(Split(Strip(t)), Canonical(p), sign)
  {
    var parts := Split(Strip(t));
    PayloadRoundTrip(p);
    assert SignedFor(issued, Canonical(p));
    if |parts| == 2 {
      Base64Url.DecodesEncoded(parts[0], Canonical(p));
      Base64Url.DecodesEncoded(parts[1], sign(Canonical(p)));
      if ParseAndVerify(t, verify) == Some((true, Norm(p))) {
        BytesOfIssued(p, Base64Url.Decode(parts[0]).value, issued);
      }
    }
  }

  /** So neither part's text is bound by the signature: any setting of the unused bits of the last character of either
      part verifies as well. */
  lemma SpareTextsVerify(p: Json, j: nat, k: nat, sign: seq<Byte> -> seq<Byte>, verify: (seq<Byte>, seq<Byte>) -> bool)
    requires WellFormed(p) && Genuine(sign, verify)
    requires j < Base64Url.Spare(|Canonical(p)|) && k < Base64Url.Spare(|sign(Canonical(p))|)
    ensures var t := Base64Url.Body(Canonical(p), j) + "." + Base64Url.Body(sign(Canonical(p)), k);
      && ParseAndVerify(t, verify) == Some((true, Norm(p)))
      && (j > 0 || k > 0 ==> t != BuildBlob(p, sign(Canonical(p))))
  {
    var m := Canonical(p);
    var a, b := Base64Url.Body(m, j), Base64Url.Body(sign(m), k);
    Base64Url.BodyInAlphabet(m, j);
    Base64Url.BodyInAlphabet(sign(m), k);
    Base64Url.BodyEncodes(m, j);
    Base64Url.BodyEncodes(sign(m), k);
    PlainFraming(a, b);
    PayloadRoundTrip(p);
    assert CarriesSigned(Split(Strip(a + "." + b)), m, sign);
    VerifiesExactly(a + "." + b, Norm(p), sign, verify);
    if j > 0 || k > 0 {
      SpareTextsDiffer(p, j, k, sign);
    }
  }

  lemma SpareTextsDiffer(p: Json, j: nat, k: nat, sign: seq<Byte> -> seq<Byte>)
    requires j < Base64Url.Spare(|Canonical(p)|) && k < Base64Url.Spare(|sign(Canonical(p))|) && (j > 0 || k > 0)
    ensures Base64Url.Body(Canonical(p), j) + "." + Base64Url.Body(sign(Canonical(p)), k)
      != BuildBlob(p, sign(Canonical(p)))
  {
    var m := Canonical(p);
    Base64Url.EncodingIsBody(m);
    Base64Url.EncodingIsBody(sign(m));
    var a, b := Base64Url.Body(m, j), Base64Url.Body(sign(m), k);
    var a', b' := Base64Url.Body(m, 0), Base64Url.Body(sign(m), 0);
    Base64Url.BodyInAlphabet(m, j);
    Base64Url.BodyInAlphabet(sign(m), k);
    Base64Url.BodyInAlphabet(m, 0);
    Base64Url.BodyInAlphabet(sign(m), 0);
    PlainFraming(a, b);
    PlainFraming(a', b');
    if j > 0 {
      Base64Url.BodiesDiffer(m, j, 0);
    } else {
      Base64Url.BodiesDiffer(sign(m), k, 0);
    }
  }

  lemma MarkedEncoding(data: seq<Byte>)
    ensures Base64Url.AllInAlphabet(Base64Url.Encode(data))
    ensures Base64Url.Encodes("!!!!" + Base64Url.Encode(data), data)
  {
    Base64Url.StrippedRoundTrip(data);
    Base64Url.DecodesEncoded(Base64Url.Encode(data), data);
    Base64Url.SkippedEncode("!!!!", Base64Url.Encode(data), data);
  }

  /** Four characters outside both alphabets, at the front of each part, are skipped. */
  lemma SkippedTextVerifies(p: Json, sign: seq<Byte> -> seq<Byte>, verify: (seq<Byte>, seq<Byte>) -> bool)
    requires WellFormed(p) && Genuine(sign, verify)
    ensures var a, b := Base64Url.Encode(Canonical(p)), Base64Url.Encode(sign(Canonical(p)));
      ParseAndVerify("!!!!" + a + ".!!!!" + b, verify) == Some((true, Norm(p)))
  {
    var m := Canonical(p);
    var a, b := Base64Url.Encode(m), Base64Url.Encode(sign(m));
    MarkedEncoding(m);
    MarkedEncoding(sign(m));
    MarkedFraming(a, b);
    PayloadRoundTrip(p);
    assert CarriesSigned(Split(Strip("!!!!" + a + ".!!!!" + b)), m, sign);
    VerifiesExactly("!!!!" + a + ".!!!!" + b, Norm(p), sign, verify);
  }

  lemma MarkedFraming(a: string, b: string)
    requires Base64Url.AllInAlphabet(a) && Base64Url.AllInAlphabet(b)
    ensures Split(Strip("!!!!" + a + ".!!!!" + b)) == ["!!!!" + a, "!!!!" + b]
  {
    AlphabetIsClean(a);
    AlphabetIsClean(b);
    var t := "!!!!" + a + "." + ("!!!!" + b);
    assert t == "!!!!" + a + ".!!!!" + b;
    StripsWhite("", t, "");
    NothingAround(t);
    SplitsAtDot("!!!!" + a, "!!!!" + b);
  }
}
