/** UTF-8, on characters that are Unicode scalar values. */
module Utf8 {
  import opened Basics

  type Byte = b: nat | b < 256

  function EncodeChar(c: char): seq<Byte> {
    var n := c as int;
    if n < 0x80 then [n]
    else if n < 0x800 then [0xC0 + n / 0x40, 0x80 + n % 0x40]
    else if n < 0x1_0000 then [0xE0 + n / 0x1000, 0x80 + n / 0x40 % 0x40, 0x80 + n % 0x40]
    else [0xF0 + n / 0x4_0000, 0x80 + n / 0x1000 % 0x40, 0x80 + n / 0x40 % 0x40, 0x80 + n % 0x40]
  }

  function Encode(s: string): seq<Byte> {
    if s == "" then [] else EncodeChar(s[0]) + Encode(s[1..])
  }

  predicate IsTail(b: Byte) {
    0x80 <= b < 0xC0
  }

  predicate IsScalar(n: int) {
    0 <= n < 0xD800 || 0xE000 <= n < 0x11_0000
  }

  /** The code point at the front of `b` and its length in bytes; no over-long forms, no surrogates. */
  function DecodeFront(b: seq<Byte>): (r: Option<(char, nat)>)
    ensures r.Some? ==> 1 <= r.value.1 <= |b|
  {
    if b == [] then None
    else if b[0] < 0x80 then Some((b[0] as char, 1))
    else if 0xC2 <= b[0] < 0xE0 then
      if |b| < 2 || !IsTail(b[1]) then None
      else Some((((b[0] as int - 0xC0) * 0x40 + (b[1] as int - 0x80)) as char, 2))
    else if 0xE0 <= b[0] < 0xF0 then
      if |b| < 3 || !IsTail(b[1]) || !IsTail(b[2]) then None
      else
        var n := (b[0] as int - 0xE0) * 0x1000 + (b[1] as int - 0x80) * 0x40 + (b[2] as int - 0x80);
        if n < 0x800 || !IsScalar(n) then None else Some((n as char, 3))
    else if 0xF0 <= b[0] < 0xF5 then
      if |b| < 4 || !IsTail(b[1]) || !IsTail(b[2]) || !IsTail(b[3]) then None
      else
        var n := (b[0] as int - 0xF0) * 0x4_0000 + (b[1] as int - 0x80) * 0x1000
                 + (b[2] as int - 0x80) * 0x40 + (b[3] as int - 0x80);
        if n < 0x1_0000 || !IsScalar(n) then None else Some((n as char, 4))
    else None
  }

  function Decode(b: seq<Byte>): Option<string> {
    if b == [] then Some("")
    else
      var front := DecodeFront(b);
      if front.None? then None
      else
        var rest := Decode(b[front.value.1..]);
        if rest.None? then None else Some([front.value.0] + rest.value)
  }

  lemma SixBitGroups(n: nat)
    ensures n == n / 0x40 * 0x40 + n % 0x40
    ensures n / 0x40 == n / 0x1000 * 0x40 + n / 0x40 % 0x40
    ensures n / 0x1000 == n / 0x4_0000 * 0x40 + n / 0x1000 % 0x40
  {
    assert n / 0x1000 == n / 0x40 / 0x40;
    assert n / 0x4_0000 == n / 0x1000 / 0x40;
  }

  /** The bytes of a character read back as that character, and no byte is left. */
  lemma FrontReadsBack(c: char)
    ensures DecodeFront(EncodeChar(c)) == Some((c, |EncodeChar(c)|))
  {
    assert IsScalar(c as int);
    SixBitGroups(c as int);
  }

  /** What follows the front of a text does not change it. */
  lemma FrontExtends(b: seq<Byte>, rest: seq<Byte>)
    requires DecodeFront(b).Some?
    ensures DecodeFront(b + rest) == DecodeFront(b)
  {
    assert forall i :: 0 <= i < |b| ==> (b + rest)[i] == b[i];
  }

  lemma {:induction false} RoundTrip(s: string)
    ensures Decode(Encode(s)) == Some(s)
  {
    if s != "" {
      var first, rest := EncodeChar(s[0]), Encode(s[1..]);
      RoundTrip(s[1..]);
      FrontReadsBack(s[0]);
      FrontExtends(first, rest);
      assert Encode(s) == first + rest;
      assert (first + rest)[|first|..] == rest;
      assert [s[0]] + s[1..] == s;
    }
  }
}

/** Base64 with the URL- and filename-safe alphabet (section 5 of RFC 4648), padding stripped. */
module Base64Url {
  import opened Basics
  import opened Utf8

  function DigitChar(d: nat): (c: char)
    requires d < 64
  {
    if d < 26 then (65 + d) as char
    else if d < 52 then (71 + d) as char
    else if d < 62 then (d - 4) as char
    else if d == 62 then '-'
    else '_'
  }

  /** The value of a character to the decoder, which takes the standard alphabet's two symbols as well. */
  function CharDigit(c: char): (d: Option<nat>)
    ensures d.Some? ==> d.value < 64
  {
    if 'A' <= c <= 'Z' then Some(c as int - 65)
    else if 'a' <= c <= 'z' then Some(c as int - 71)
    else if '0' <= c <= '9' then Some(c as int + 4)
    else if c == '-' || c == '+' then Some(62)
    else if c == '_' || c == '/' then Some(63)
    else None
  }

  /** A character of the encoder's alphabet; a dot, an equals sign and white space are none. */
  predicate InAlphabet(c: char) {
    'A' <= c <= 'Z' || 'a' <= c <= 'z' || '0' <= c <= '9' || c == '-' || c == '_'
  }

  predicate AllInAlphabet(s: string) {
    forall i :: 0 <= i < |s| ==> InAlphabet(s[i])
  }

  lemma DigitRoundTrip(d: nat)
    requires d < 64
    ensures CharDigit(DigitChar(d)) == Some(d) && InAlphabet(DigitChar(d))
  {
  }

  /** The encoding with padding, three bytes as four characters at a time. */
  function UrlsafeEncode(data: seq<Byte>): string {
    if |data| == 0 then ""
    else if |data| == 1 then [DigitChar(data[0] / 4), DigitChar(data[0] % 4 * 16)] + "=="
    else if |data| == 2 then
      [DigitChar(data[0] / 4), DigitChar(data[0] % 4 * 16 + data[1] / 16), DigitChar(data[1] % 16 * 4)] + "="
    else Quantum(data[0], data[1], data[2]) + UrlsafeEncode(data[3..])
  }

  function Quantum(x: Byte, y: Byte, z: Byte): (q: string)
    ensures |q| == 4
  {
    [DigitChar(x / 4), DigitChar(x % 4 * 16 + y / 16), DigitChar(y % 16 * 4 + z / 64), DigitChar(z % 64)]
  }

  /** The rest of a decoding that has read `quad` digits of the current group of four and holds the `left`-over
      bits.  Characters outside the alphabet are skipped; enough padding ends the data. */
  function Scan(s: string, quad: nat, left: nat, pads: nat): Option<seq<Byte>>
    requires left < 64 && (quad == 2 ==> left < 16) && (quad == 3 ==> left < 4)
  {
    if s == "" then if quad == 0 then Some([]) else None
    else if s[0] == '=' then
      if quad >= 2 && quad + pads + 1 >= 4 then Some([])
      else Scan(s[1..], quad, left, if quad >= 2 then pads + 1 else pads)
    else if CharDigit(s[0]).None? then Scan(s[1..], quad, left, pads)
    else
      var d := CharDigit(s[0]).value;
      match quad
      case 0 => Scan(s[1..], 1, d, 0)
      case 1 => Emit(left * 4 + d / 16, Scan(s[1..], 2, d % 16, 0))
      case 2 => Emit(left * 16 + d / 4, Scan(s[1..], 3, d % 4, 0))
      case _ => Emit(left % 4 * 64 + d, Scan(s[1..], 0, 0, 0))
  }

  function Emit(x: nat, rest: Option<seq<Byte>>): Option<seq<Byte>>
    requires x < 256
  {
    if rest.None? then None else Some([x] + rest.value)
  }

  /** `urlsafe_b64decode`, which refuses text that is not ASCII. */
  function UrlsafeDecode(s: string): Option<seq<Byte>> {
    if exists i :: 0 <= i < |s| && s[i] as int >= 128 then None else Scan(s, 0, 0, 0)
  }

  /** `rstrip("=")`. */
  function StripPadding(s: string): string {
    if s != "" && s[|s| - 1] == '=' then StripPadding(s[..|s| - 1]) else s
  }

  function Padding(n: nat): string {
    seq(n, i => '=')
  }

  function Encode(data: seq<Byte>): string {
    StripPadding(UrlsafeEncode(data))
  }

  /** Padding restored to a multiple of four; `-len % 4` is not negative. */
  function Decode(s: string): Option<seq<Byte>> {
    UrlsafeDecode(s + Padding((-|s|) % 4))
  }

  /** How many values the unused low bits of the last character can take. */
  function Spare(n: nat): nat {
    if n % 3 == 1 then 16 else if n % 3 == 2 then 4 else 1
  }

  function PaddingOf(n: nat): nat {
    (3 - n % 3) % 3
  }

  /** The encoding without padding, with `k` in the unused bits of its last character; the encoder leaves 0 there. */
  function Body(data: seq<Byte>, k: nat): string
    requires k < Spare(|data|)
  {
    if |data| == 0 then ""
    else if |data| == 1 then [DigitChar(data[0] / 4), DigitChar(data[0] % 4 * 16 + k)]
    else if |data| == 2 then
      [DigitChar(data[0] / 4), DigitChar(data[0] % 4 * 16 + data[1] / 16), DigitChar(data[1] % 16 * 4 + k)]
    else Quantum(data[0], data[1], data[2]) + Body(data[3..], k)
  }

  lemma DigitsInAlphabet()
    ensures forall d: nat :: d < 64 ==> InAlphabet(DigitChar(d))
  {
    forall d: nat | d < 64 ensures InAlphabet(DigitChar(d)) {
      DigitRoundTrip(d);
    }
  }

  lemma QuantumInAlphabet(x: Byte, y: Byte, z: Byte)
    ensures AllInAlphabet(Quantum(x, y, z))
  {
    DigitsInAlphabet();
  }

  lemma {:induction false} BodyInAlphabet(data: seq<Byte>, k: nat)
    requires k < Spare(|data|)
    ensures AllInAlphabet(Body(data, k))
  {
    if |data| >= 3 {
      BodyInAlphabet(data[3..], k);
      QuantumInAlphabet(data[0], data[1], data[2]);
    } else {
      DigitsInAlphabet();
    }
  }

  lemma GroupOfThree(n: int)
    ensures n % 3 == (n - 3) % 3 && (n + 2) / 3 == (n - 3 + 2) / 3 + 1
  {
  }

  lemma {:induction false} BodyLength(data: seq<Byte>, k: nat)
    requires k < Spare(|data|)
    ensures |Body(data, k)| + PaddingOf(|data|) == (|data| + 2) / 3 * 4
  {
    if |data| >= 3 {
      GroupOfThree(|data|);
      BodyLength(data[3..], k);
      assert |data[3..]| == |data| - 3;
      assert |Body(data, k)| == 4 + |Body(data[3..], k)|;
    }
  }

  lemma WholeGroups(n: int, padding: nat, groups: int)
    requires padding <= 2 && n + padding == groups * 4
    ensures (n + padding) % 4 == 0 && (-n) % 4 == padding && (4 - n % 4) % 4 == padding && n % 4 != 1
  {
    assert -n == 4 * (-groups) + padding;
    assert n == 4 * (groups - 1) + (4 - padding);
  }

  /** The length of the stripped encoding, and the padding it calls for. */
  lemma BodyShape(data: seq<Byte>, k: nat)
    requires k < Spare(|data|)
    ensures var n, padding := |Body(data, k)|, PaddingOf(|data|);
      (n + padding) % 4 == 0 && (-n) % 4 == padding && (4 - n % 4) % 4 == padding && n % 4 != 1
  {
    BodyLength(data, k);
    WholeGroups(|Body(data, k)|, PaddingOf(|data|), (|data| + 2) / 3);
  }

  lemma {:induction false} BodyAndPadding(data: seq<Byte>)
    ensures UrlsafeEncode(data) == Body(data, 0) + Padding(PaddingOf(|data|))
  {
    if |data| >= 3 {
      GroupOfThree(|data|);
      BodyAndPadding(data[3..]);
      Regroup(Quantum(data[0], data[1], data[2]), Body(data[3..], 0), Padding(PaddingOf(|data|)));
    } else {
      assert Padding(2) == "==" && Padding(1) == "=" && Padding(0) == "";
    }
  }

  lemma Regroup(a: string, b: string, c: string)
    ensures a + b + c == a + (b + c)
  {
  }

  lemma {:induction false} StripsExactly(body: string, n: nat)
    requires body != "" ==> body[|body| - 1] != '='
    ensures StripPadding(body + Padding(n)) == body
  {
    var s := body + Padding(n);
    if n == 0 {
      assert s == body;
    } else {
      assert s[..|s| - 1] == body + Padding(n - 1);
      StripsExactly(body, n - 1);
    }
  }

  lemma EncodingIsBody(data: seq<Byte>)
    ensures Encode(data) == Body(data, 0)
  {
    var body := Body(data, 0);
    BodyInAlphabet(data, 0);
    BodyAndPadding(data);
    assert body != "" ==> InAlphabet(body[|body| - 1]);
    StripsExactly(body, PaddingOf(|data|));
  }

  lemma ScanDigit(d: nat, s: string, quad: nat, left: nat, pads: nat)
    requires d < 64 && left < 64 && (quad == 2 ==> left < 16) && (quad == 3 ==> left < 4)
    ensures var r := Scan([DigitChar(d)] + s, quad, left, pads);
      && (quad == 0 ==> r == Scan(s, 1, d, 0))
      && (quad == 1 ==> r == Emit(left * 4 + d / 16, Scan(s, 2, d % 16, 0)))
      && (quad == 2 ==> r == Emit(left * 16 + d / 4, Scan(s, 3, d % 4, 0)))
      && (quad == 3 ==> r == Emit(left * 64 + d, Scan(s, 0, 0, 0)))
  {
    DigitRoundTrip(d);
    assert ([DigitChar(d)] + s)[1..] == s;
  }

  lemma ScanDigits(a: nat, b: nat, c: nat, d: nat, rest: string)
    requires a < 64 && b < 64 && c < 64 && d < 64
    ensures Scan([DigitChar(a), DigitChar(b), DigitChar(c), DigitChar(d)] + rest, 0, 0, 0)
      == Emit(a * 4 + b / 16, Emit(b % 16 * 16 + c / 4, Emit(c % 4 * 64 + d, Scan(rest, 0, 0, 0))))
  {
    var last := [DigitChar(d)] + rest;
    var third := [DigitChar(c)] + last;
    var second := [DigitChar(b)] + third;
    assert [DigitChar(a), DigitChar(b), DigitChar(c), DigitChar(d)] + rest == [DigitChar(a)] + second;
    ScanDigit(a, second, 0, 0, 0);
    ScanDigit(b, third, 1, a, 0);
    ScanDigit(c, last, 2, b % 16, 0);
    ScanDigit(d, rest, 3, c % 4, 0);
  }

  lemma SixBitDigits(x: Byte, y: Byte, z: Byte)
    ensures var a, b, c, d := x / 4, x % 4 * 16 + y / 16, y % 16 * 4 + z / 64, z % 64;
      && a < 64 && b < 64 && c < 64 && d < 64
      && a * 4 + b / 16 == x && b % 16 * 16 + c / 4 == y && c % 4 * 64 + d == z
  {
  }

  lemma ScanQuantum(x: Byte, y: Byte, z: Byte, rest: string)
    ensures Scan(Quantum(x, y, z) + rest, 0, 0, 0) == Emit(x, Emit(y, Emit(z, Scan(rest, 0, 0, 0))))
  {
    SixBitDigits(x, y, z);
    ScanDigits(x / 4, x % 4 * 16 + y / 16, y % 16 * 4 + z / 64, z % 64, rest);
  }

  lemma ScanThree(a: nat, b: nat, c: nat)
    requires a < 64 && b < 64 && c < 64
    ensures Scan([DigitChar(a), DigitChar(b), DigitChar(c)] + Padding(1), 0, 0, 0)
      == Some([a * 4 + b / 16, b % 16 * 16 + c / 4])
  {
    var third := [DigitChar(c)] + Padding(1);
    var second := [DigitChar(b)] + third;
    assert [DigitChar(a), DigitChar(b), DigitChar(c)] + Padding(1) == [DigitChar(a)] + second;
    ScanDigit(a, second, 0, 0, 0);
    ScanDigit(b, third, 1, a, 0);
    ScanDigit(c, Padding(1), 2, b % 16, 0);
    assert Scan(Padding(1), 3, c % 4, 0) == Some([]);
    var y := b % 16 * 16 + c / 4;
    assert [y] + [] == [y] && [a * 4 + b / 16] + [y] == [a * 4 + b / 16, y];
  }

  lemma ScanTwo(a: nat, b: nat)
    requires a < 64 && b < 64
    ensures Scan([DigitChar(a), DigitChar(b)] + Padding(2), 0, 0, 0) == Some([a * 4 + b / 16])
  {
    var second := [DigitChar(b)] + Padding(2);
    assert [DigitChar(a), DigitChar(b)] + Padding(2) == [DigitChar(a)] + second;
    ScanDigit(a, second, 0, 0, 0);
    ScanDigit(b, Padding(2), 1, a, 0);
    assert Padding(2)[1..] == Padding(1);
    assert Scan(Padding(1), 2, b % 16, 1) == Some([]);
    assert Scan(Padding(2), 2, b % 16, 0) == Some([]);
    assert [a * 4 + b / 16] + [] == [a * 4 + b / 16];
  }

  lemma SpareSingle(x: Byte, k: nat)
    requires k < 16
    ensures x / 4 < 64 && x % 4 * 16 + k < 64 && x / 4 * 4 + (x % 4 * 16 + k) / 16 == x
  {
  }

  lemma SparePair(x: Byte, y: Byte, k: nat)
    requires k < 4
    ensures var a, b, c := x / 4, x % 4 * 16 + y / 16, y % 16 * 4 + k;
      a < 64 && b < 64 && c < 64 && a * 4 + b / 16 == x && b % 16 * 16 + c / 4 == y
  {
  }

  lemma ScanSingle(x: Byte, k: nat)
    requires k < 16
    ensures Scan([DigitChar(x / 4), DigitChar(x % 4 * 16 + k)] + Padding(2), 0, 0, 0) == Some([x])
  {
    SpareSingle(x, k);
    ScanTwo(x / 4, x % 4 * 16 + k);
  }

  lemma ScanPair(x: Byte, y: Byte, k: nat)
    requires k < 4
    ensures Scan([DigitChar(x / 4), DigitChar(x % 4 * 16 + y / 16), DigitChar(y % 16 * 4 + k)] + Padding(1), 0, 0, 0)
      == Some([x, y])
  {
    SparePair(x, y, k);
    ScanThree(x / 4, x % 4 * 16 + y / 16, y % 16 * 4 + k);
  }

  lemma ScanLast(data: seq<Byte>, k: nat)
    requires k < Spare(|data|) && |data| < 3
    ensures Scan(Body(data, k) + Padding(PaddingOf(|data|)), 0, 0, 0) == Some(data)
  {
    if |data| == 1 {
      ScanSingle(data[0], k);
      assert data == [data[0]];
    } else if |data| == 2 {
      ScanPair(data[0], data[1], k);
      assert data == [data[0], data[1]];
    }
  }

  lemma ScanFirst(data: seq<Byte>, k: nat)
    requires k < Spare(|data|) && |data| >= 3
    requires Scan(Body(data[3..], k) + Padding(PaddingOf(|data| - 3)), 0, 0, 0) == Some(data[3..])
    ensures Scan(Body(data, k) + Padding(PaddingOf(|data|)), 0, 0, 0) == Some(data)
  {
    var q, body, padding := Quantum(data[0], data[1], data[2]), Body(data[3..], k), Padding(PaddingOf(|data|));
    ScanQuantum(data[0], data[1], data[2], body + padding);
    assert (q + body) + padding == q + (body + padding);
    assert data == [data[0]] + ([data[1]] + ([data[2]] + data[3..]));
  }

  lemma {:induction false} ScanBody(data: seq<Byte>, k: nat)
    requires k < Spare(|data|)
    ensures Scan(Body(data, k) + Padding(PaddingOf(|data|)), 0, 0, 0) == Some(data)
  {
    if |data| < 3 {
      ScanLast(data, k);
    } else {
      ScanBody(data[3..], k);
      ScanFirst(data, k);
    }
  }

  /** Every setting of the unused bits decodes to the same bytes. */
  lemma SpareBitsAreIgnored(data: seq<Byte>, k: nat)
    requires k < Spare(|data|)
    ensures Decode(Body(data, k)) == Some(data)
  {
    var body, padding := Body(data, k), PaddingOf(|data|);
    BodyShape(data, k);
    BodyInAlphabet(data, k);
    ScanBody(data, k);
    forall i | 0 <= i < |body + Padding(padding)| ensures (body + Padding(padding))[i] as int < 128 {
      if i < |body| {
        assert InAlphabet(body[i]);
      }
    }
  }

  lemma FormulaRestores(data: seq<Byte>)
    ensures |Body(data, 0)| % 4 != 1
    ensures Body(data, 0) + Padding((-|Body(data, 0)|) % 4) == UrlsafeEncode(data)
  {
    BodyShape(data, 0);
    BodyAndPadding(data);
  }

  /** The stripped encoding uses the alphabet only, its length is never 1 more than a multiple of 4, the decoder's
      formula restores exactly the padding that was stripped, and decoding inverts encoding. */
  lemma StrippedRoundTrip(data: seq<Byte>)
    ensures AllInAlphabet(Encode(data))
    ensures |Encode(data)| % 4 != 1
    ensures Encode(data) + Padding((-|Encode(data)|) % 4) == UrlsafeEncode(data)
    ensures Decode(Encode(data)) == Some(data)
  {
    EncodingIsBody(data);
    BodyInAlphabet(data, 0);
    FormulaRestores(data);
    SpareBitsAreIgnored(data, 0);
  }

  lemma {:induction false} BodiesDiffer(data: seq<Byte>, k: nat, m: nat)
    requires k < Spare(|data|) && m < Spare(|data|) && k != m
    ensures Body(data, k) != Body(data, m)
  {
    if |data| >= 3 {
      GroupOfThree(|data|);
      BodiesDiffer(data[3..], k, m);
      assert Body(data, k)[4..] == Body(data[3..], k) && Body(data, m)[4..] == Body(data[3..], m);
    } else {
      var last := |data|;
      var base := if last == 1 then data[0] % 4 * 16 else data[1] % 16 * 4;
      DigitRoundTrip(base + k);
      DigitRoundTrip(base + m);
      assert Body(data, k)[last] == DigitChar(base + k) && Body(data, m)[last] == DigitChar(base + m);
    }
  }

  lemma DigitOfChar(c: char)
    requires InAlphabet(c)
    ensures CharDigit(c).Some? && DigitChar(CharDigit(c).value) == c
  {
  }

  lemma JoinedDigits(a: nat, b: nat, c: nat, d: nat)
    requires a < 64 && b < 64 && c < 64 && d < 64
    ensures var x, y, z := a * 4 + b / 16, b % 16 * 16 + c / 4, c % 4 * 64 + d;
      && x < 256 && y < 256 && z < 256
      && x / 4 == a && x % 4 * 16 + y / 16 == b && y % 16 * 4 + z / 64 == c && z % 64 == d
  {
  }

  lemma JoinedPair(a: nat, b: nat, c: nat)
    requires a < 64 && b < 64 && c < 64
    ensures var x, y := a * 4 + b / 16, b % 16 * 16 + c / 4;
      && x < 256 && x / 4 == a && x % 4 * 16 + b % 16 == b
      && y < 256 && x % 4 * 16 + y / 16 == b && y % 16 * 4 + c % 4 == c
  {
  }

  lemma LastChars(s: string) returns (data: seq<Byte>, k: nat)
    requires AllInAlphabet(s) && 2 <= |s| <= 3
    ensures k < Spare(|data|) && s == Body(data, k)
  {
    DigitOfChar(s[0]);
    DigitOfChar(s[1]);
    var a, b := CharDigit(s[0]).value, CharDigit(s[1]).value;
    if |s| == 2 {
      JoinedPair(a, b, 0);
      data, k := [a * 4 + b / 16], b % 16;
    } else {
      DigitOfChar(s[2]);
      var c := CharDigit(s[2]).value;
      JoinedPair(a, b, c);
      data, k := [a * 4 + b / 16, b % 16 * 16 + c / 4], c % 4;
    }
  }

  lemma FourChars(s: string) returns (x: Byte, y: Byte, z: Byte)
    requires AllInAlphabet(s) && |s| == 4
    ensures s == Quantum(x, y, z)
  {
    DigitOfChar(s[0]);
    DigitOfChar(s[1]);
    DigitOfChar(s[2]);
    DigitOfChar(s[3]);
    var a, b, c, d := CharDigit(s[0]).value, CharDigit(s[1]).value, CharDigit(s[2]).value, CharDigit(s[3]).value;
    JoinedDigits(a, b, c, d);
    x, y, z := a * 4 + b / 16, b % 16 * 16 + c / 4, c % 4 * 64 + d;
    assert Quantum(x, y, z) == [DigitChar(a), DigitChar(b), DigitChar(c), DigitChar(d)];
  }

  /** Every text in the alphabet of a possible length is the encoding of some bytes, but for the unused bits. */
  lemma {:induction false} EveryTextIsABody(s: string) returns (data: seq<Byte>, k: nat)
    requires AllInAlphabet(s) && |s| % 4 != 1
    ensures k < Spare(|data|) && s == Body(data, k)
  {
    if s == "" {
      data, k := [], 0;
    } else if |s| < 4 {
      data, k := LastChars(s);
    } else {
      var rest;
      rest, k := EveryTextIsABody(s[4..]);
      var x, y, z := FourChars(s[..4]);
      data := [x, y, z] + rest;
      GroupOfThree(|data|);
      assert data[3..] == rest;
      assert s == s[..4] + s[4..];
    }
  }

  /** Exactly which texts in the alphabet decode to `data`: the encoding and its variants in the unused bits. */
  lemma DecodesExactly(s: string, data: seq<Byte>)
    requires AllInAlphabet(s)
    ensures Decode(s) == Some(data) <==> exists k: nat :: k < Spare(|data|) && s == Body(data, k)
  {
    if k: nat :| k < Spare(|data|) && s == Body(data, k) {
      SpareBitsAreIgnored(data, k);
    }
    if Decode(s) == Some(data) {
      if |s| % 4 == 1 {
        LengthOneModFourFails(s);
      } else {
        var bytes, k := EveryTextIsABody(s);
        SpareBitsAreIgnored(bytes, k);
        assert k < Spare(|data|) && s == Body(data, k);
      }
    }
  }

  /** Text in the alphabet decodes only if its length is not 1 more than a multiple of 4. */
  lemma LengthOneModFourFails(s: string)
    requires AllInAlphabet(s) && |s| % 4 == 1
    ensures Decode(s).None?
  {
    assert (-|s|) % 4 == 3;
    LoneDigitFails(s, 0, 0);
  }

  lemma {:induction false} LoneDigitFails(s: string, quad: nat, left: nat)
    requires AllInAlphabet(s) && quad < 4 && (quad + |s|) % 4 == 1
    requires left < 64 && (quad == 2 ==> left < 16) && (quad == 3 ==> left < 4)
    ensures Scan(s + Padding(3), quad, left, 0).None?
  {
    var t := s + Padding(3);
    if s == "" {
      assert Padding(3)[1..] == Padding(2) && Padding(2)[1..] == Padding(1) && Padding(1)[1..] == "";
      assert Scan(Padding(1), quad, left, 0).None?;
      assert Scan(Padding(2), quad, left, 0).None?;
      assert t == Padding(3);
    } else {
      assert t[1..] == s[1..] + Padding(3) && InAlphabet(s[0]);
      var d := CharDigit(t[0]).value;
      LoneDigitFails(s[1..], (quad + 1) % 4,
        if quad == 0 then d else if quad == 1 then d % 16 else if quad == 2 then d % 4 else 0);
    }
  }

  // ----- any ASCII text -----

  /** The digits the decoder reads of a text, in its own alphabet, and whether they end a group: other characters are
      skipped, and complete padding ends the text. */
  function Gist(s: string, quad: nat, pads: nat): (string, bool) {
    if s == "" then ("", quad == 0)
    else if s[0] == '=' then
      if quad >= 2 && quad + pads + 1 >= 4 then ("", true)
      else Gist(s[1..], quad, if quad >= 2 then pads + 1 else pads)
    else if CharDigit(s[0]).None? then Gist(s[1..], quad, pads)
    else
      var (digits, complete) := Gist(s[1..], (quad + 1) % 4, 0);
      ([DigitChar(CharDigit(s[0]).value)] + digits, complete)
  }

  predicate Ascii(s: string) {
    forall i :: 0 <= i < |s| ==> s[i] as int < 128
  }

  /** ASCII text that spells `data`: what is read of it is the encoding, up to the unused bits. */
  ghost predicate Spells(s: string, data: seq<Byte>) {
    && Ascii(s) && Gist(s, 0, 0).1
    && exists k: nat :: k < Spare(|data|) && Gist(s, 0, 0).0 == Body(data, k)
  }

  /** The padding that completes a group of which `quad` digits were read, and `n` more. */
  function Fill(quad: nat, n: nat): string {
    Padding((4 - (quad + n) % 4) % 4)
  }

  lemma {:induction false} GistInAlphabet(s: string, quad: nat, pads: nat)
    requires quad < 4
    ensures AllInAlphabet(Gist(s, quad, pads).0)
    ensures Gist(s, quad, pads).1 ==> (quad + |Gist(s, quad, pads).0|) % 4 != 1
  {
    if s == "" {
    } else if s[0] == '=' {
      GistInAlphabet(s[1..], quad, if quad >= 2 then pads + 1 else pads);
    } else if CharDigit(s[0]).None? {
      GistInAlphabet(s[1..], quad, pads);
    } else {
      GistInAlphabet(s[1..], (quad + 1) % 4, 0);
      DigitRoundTrip(CharDigit(s[0]).value);
    }
  }

  lemma FillEnds(quad: nat, left: nat)
    requires quad < 4 && quad != 1 && left < 64 && (quad == 2 ==> left < 16) && (quad == 3 ==> left < 4)
    ensures Scan(Fill(quad, 0), quad, left, 0) == Some([])
  {
    assert Padding(2)[1..] == Padding(1);
    assert Padding(1)[1..] == "";
  }

  /** One digit read, as `Scan` does it: the same for two texts whose rests decode alike. */
  lemma DigitAlike(d: nat, s: string, t: string, quad: nat, left: nat, pads: nat)
    requires d < 64 && quad < 4 && left < 64 && (quad == 2 ==> left < 16) && (quad == 3 ==> left < 4)
    requires s != "" && s[0] != '=' && CharDigit(s[0]) == Some(d)
    requires var next := if quad == 0 then d else if quad == 1 then d % 16 else if quad == 2 then d % 4 else 0;
      Scan(s[1..], (quad + 1) % 4, next, 0) == Scan(t, (quad + 1) % 4, next, 0)
    ensures Scan(s, quad, left, pads) == Scan([DigitChar(d)] + t, quad, left, 0)
  {
    ScanDigit(d, t, quad, left, 0);
    assert CharDigit(s[0]).value == d;
  }

  /** The decoder depends on the digits it reads only. */
  lemma {:induction false} ScanOfGist(s: string, quad: nat, left: nat, pads: nat)
    requires quad < 4 && left < 64 && (quad == 2 ==> left < 16) && (quad == 3 ==> left < 4)
    requires if quad < 2 then pads == 0 else quad + pads < 4
    ensures var (digits, complete) := Gist(s, quad, pads);
      if complete then Scan(s, quad, left, pads) == Scan(digits + Fill(quad, |digits|), quad, left, 0)
      else Scan(s, quad, left, pads).None?
    decreases |s|
  {
    var (digits, complete) := Gist(s, quad, pads);
    if s == "" || (s[0] == '=' && quad >= 2 && quad + pads + 1 >= 4) {
      if complete {
        FillEnds(quad, left);
        assert "" + Fill(quad, 0) == Fill(quad, 0);
      }
    } else if s[0] == '=' {
      ScanOfGist(s[1..], quad, left, if quad >= 2 then pads + 1 else pads);
    } else if CharDigit(s[0]).None? {
      ScanOfGist(s[1..], quad, left, pads);
    } else {
      var d := CharDigit(s[0]).value;
      var next := if quad == 0 then d else if quad == 1 then d % 16 else if quad == 2 then d % 4 else 0;
      var rest := Gist(s[1..], (quad + 1) % 4, 0).0;
      ScanOfGist(s[1..], (quad + 1) % 4, next, 0);
      if complete {
        FillShifts(quad, |rest|);
        DigitAlike(d, s, rest + Fill((quad + 1) % 4, |rest|), quad, left, pads);
        Regroup([DigitChar(d)], rest, Fill(quad, |digits|));
      } else {
        ScanLost(d, s, quad, left, pads);
      }
    }
  }

  lemma FillShifts(quad: nat, n: nat)
    ensures Fill((quad + 1) % 4, n) == Fill(quad, n + 1)
  {
    assert ((quad + 1) % 4 + n) % 4 == (quad + 1 + n) % 4;
  }

  lemma ScanLost(d: nat, s: string, quad: nat, left: nat, pads: nat)
    requires d < 64 && quad < 4 && left < 64 && (quad == 2 ==> left < 16) && (quad == 3 ==> left < 4)
    requires s != "" && s[0] != '=' && CharDigit(s[0]) == Some(d)
    requires var next := if quad == 0 then d else if quad == 1 then d % 16 else if quad == 2 then d % 4 else 0;
      Scan(s[1..], (quad + 1) % 4, next, 0).None?
    ensures Scan(s, quad, left, pads).None?
  {
  }

  lemma BodyDecodes(data: seq<Byte>, k: nat)
    requires k < Spare(|data|)
    ensures Scan(Body(data, k) + Fill(0, |Body(data, k)|), 0, 0, 0) == Some(data)
  {
    BodyShape(data, k);
    ScanBody(data, k);
  }

  /** Exactly which texts decode to `data`. */
  lemma DecodesSpelled(s: string, data: seq<Byte>)
    ensures UrlsafeDecode(s) == Some(data) <==> Spells(s, data)
  {
    if Ascii(s) {
      var (digits, complete) := Gist(s, 0, 0);
      ScanOfGist(s, 0, 0, 0);
      GistInAlphabet(s, 0, 0);
      if complete {
        var bytes, k := EveryTextIsABody(digits);
        BodyDecodes(bytes, k);
        if j: nat :| j < Spare(|data|) && digits == Body(data, j) {
          BodyDecodes(data, j);
        }
      }
    }
  }

  /** A text that stands for `data` once padded to a multiple of four. */
  ghost predicate Encodes(s: string, data: seq<Byte>) {
    Spells(s + Padding((-|s|) % 4), data)
  }

  lemma DecodesEncoded(s: string, data: seq<Byte>)
    ensures Decode(s) == Some(data) <==> Encodes(s, data)
  {
    DecodesSpelled(s + Padding((-|s|) % 4), data);
  }

  lemma BodyEncodes(data: seq<Byte>, k: nat)
    requires k < Spare(|data|)
    ensures Encodes(Body(data, k), data)
  {
    SpareBitsAreIgnored(data, k);
    DecodesEncoded(Body(data, k), data);
  }

  /** Four characters the decoder skips, at the front of a text that decodes. */
  lemma SkippedEncode(skipped: string, s: string, data: seq<Byte>)
    requires |skipped| == 4 && Encodes(s, data)
    requires forall i :: 0 <= i < 4 ==> skipped[i] as int < 128 && skipped[i] != '=' && CharDigit(skipped[i]).None?
    ensures Encodes(skipped + s, data)
  {
    var t := s + Padding((-|s|) % 4);
    assert (-(4 + |s|)) % 4 == (-|s|) % 4;
    Regroup(skipped, s, Padding((-|s|) % 4));
    SkipsAll(skipped, t);
  }

  lemma {:induction false} SkipsAll(skipped: string, t: string)
    requires forall i :: 0 <= i < |skipped| ==> skipped[i] != '=' && CharDigit(skipped[i]).None?
    ensures Gist(skipped + t, 0, 0) == Gist(t, 0, 0)
  {
    if skipped == "" {
      assert skipped + t == t;
    } else {
      SkipsAll(skipped[1..], t);
      assert (skipped + t)[1..] == skipped[1..] + t;
    }
  }
}
