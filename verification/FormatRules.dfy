/** The formats themselves: a writer and a reader that agree with each other could still both be wrong. */
module FormatRules {
  import opened Basics
  import opened Json
  import Utf8
  import Base64Url
  import ForgeFile

  // ----- UTF-8 -----

  lemma TwoGroups(x: nat, y: nat)
    requires y < 0x40
    ensures var n := x * 0x40 + y; n / 0x40 == x && n % 0x40 == y
  {
  }

  lemma ThreeGroups(x: nat, y: nat, z: nat)
    requires y < 0x40 && z < 0x40
    ensures var n := x * 0x1000 + y * 0x40 + z; n / 0x1000 == x && n / 0x40 % 0x40 == y && n % 0x40 == z
  {
    TwoGroups(x * 0x40 + y, z);
    TwoGroups(x, y);
    assert (x * 0x1000 + y * 0x40 + z) / 0x1000 == x;
  }

  lemma FourGroups(w: nat, x: nat, y: nat, z: nat)
    requires x < 0x40 && y < 0x40 && z < 0x40
    ensures var n := w * 0x4_0000 + x * 0x1000 + y * 0x40 + z;
      n / 0x4_0000 == w && n / 0x1000 % 0x40 == x && n / 0x40 % 0x40 == y && n % 0x40 == z
  {
    ThreeGroups(w * 0x40 + x, y, z);
    TwoGroups(w, x);
    assert (w * 0x4_0000 + x * 0x1000 + y * 0x40 + z) / 0x4_0000 == w;
  }

  lemma FrontIsEncoding(b: seq<Utf8.Byte>)
    requires Utf8.DecodeFront(b).Some?
    ensures var (c, n) := Utf8.DecodeFront(b).value; Utf8.EncodeChar(c) == b[..n]
  {
    if 0xC2 <= b[0] < 0xE0 {
      TwoGroups(b[0] - 0xC0, b[1] - 0x80);
    } else if 0xE0 <= b[0] < 0xF0 {
      ThreeGroups(b[0] - 0xE0, b[1] - 0x80, b[2] - 0x80);
    } else if 0xF0 <= b[0] {
      FourGroups(b[0] - 0xF0, b[1] - 0x80, b[2] - 0x80, b[3] - 0x80);
    }
  }

  /** Only encodings decode: no other bytes, over-long forms and surrogates among them, are read as text. */
  lemma {:induction false} OnlyEncodingsDecode(b: seq<Utf8.Byte>)
    requires Utf8.Decode(b).Some?
    ensures Utf8.Encode(Utf8.Decode(b).value) == b
  {
    if b != [] {
      var (c, n) := Utf8.DecodeFront(b).value;
      DecodedStep(b);
      OnlyEncodingsDecode(b[n..]);
      FrontIsEncoding(b);
      EncodingJoined(b, n, c, Utf8.Decode(b[n..]).value);
    }
  }

  lemma DecodedStep(b: seq<Utf8.Byte>)
    requires b != [] && Utf8.Decode(b).Some?
    ensures var front := Utf8.DecodeFront(b);
      && front.Some? && Utf8.Decode(b[front.value.1..]).Some?
      && Utf8.Decode(b).value == [front.value.0] + Utf8.Decode(b[front.value.1..]).value
  {
  }

  lemma EncodingJoined(b: seq<Utf8.Byte>, n: nat, c: char, rest: string)
    requires n <= |b| && Utf8.EncodeChar(c) == b[..n] && Utf8.Encode(rest) == b[n..]
    ensures Utf8.Encode([c] + rest) == b
  {
    assert ([c] + rest)[1..] == rest;
    assert b == b[..n] + b[n..];
  }

  /** Characters of one, two, three and four bytes. */
  lemma Utf8Bytes()
    ensures Utf8.EncodeChar('A') == [0x41] && Utf8.EncodeChar('\U{E9}') == [0xC3, 0xA9]
    ensures Utf8.EncodeChar('\U{20AC}') == [0xE2, 0x82, 0xAC]
    ensures Utf8.EncodeChar('\U{1F600}') == [0xF0, 0x9F, 0x98, 0x80]
  {
  }

  // ----- base64url -----

  /** Digit `d` of the alphabet. */
  function Symbol(d: nat): char
    requires d < 64
  {
    if d < 26 then "ABCDEFGHIJKLMNOPQRSTUVWXYZ"[d]
    else if d < 52 then "abcdefghijklmnopqrstuvwxyz"[d - 26]
    else if d < 62 then "0123456789"[d - 52]
    else "-_"[d - 62]
  }

  /** The alphabet of section 5 of RFC 4648; the decoder reads the two symbols of section 4 as well. */
  lemma AlphabetExactly(d: nat, c: char)
    requires d < 64
    ensures Base64Url.DigitChar(d) == Symbol(d)
    ensures Base64Url.CharDigit(c) == Some(d) <==> c == Symbol(d) || (c == '+' && d == 62) || (c == '/' && d == 63)
  {
    DigitIs(d);
    Base64Url.DigitRoundTrip(d);
    if Base64Url.CharDigit(c) == Some(d) && c != '+' && c != '/' {
      Base64Url.DigitOfChar(c);
    }
  }

  lemma DigitIs(d: nat)
    requires d < 64
    ensures Base64Url.DigitChar(d) == Symbol(d)
  {
  }

  /** How 24 bits fall into four groups of six. */
  lemma SixBits(a: Utf8.Byte, b: Utf8.Byte, c: Utf8.Byte)
    ensures var n := a * 0x1_0000 + b * 0x100 + c;
      && n / 0x4_0000 == a / 4 && n / 0x1000 % 64 == a % 4 * 16 + b / 16
      && n / 64 % 64 == b % 16 * 4 + c / 64 && n % 64 == c % 64
  {
    SplitBits(a / 4, a % 4, b / 16, b % 16, c / 64, c % 64);
  }

  lemma SplitBits(q: nat, r: nat, s: nat, t: nat, u: nat, v: nat)
    requires r < 4 && s < 16 && t < 16 && u < 4 && v < 64
    ensures var n := (q * 4 + r) * 0x1_0000 + (s * 16 + t) * 0x100 + u * 64 + v;
      n / 0x4_0000 == q && n / 0x1000 % 64 == r * 16 + s && n / 64 % 64 == t * 4 + u && n % 64 == v
  {
    FourGroups(q, r * 16 + s, t * 4 + u, v);
  }

  /** Three bytes are four digits, first bits first. */
  lemma GroupsExactly(a: Utf8.Byte, b: Utf8.Byte, c: Utf8.Byte)
    ensures var n := a * 0x1_0000 + b * 0x100 + c;
      Base64Url.UrlsafeEncode([a, b, c])
      == [Symbol(n / 0x4_0000), Symbol(n / 0x1000 % 64), Symbol(n / 64 % 64), Symbol(n % 64)]
  {
    SixBits(a, b, c);
    QuantumIs(a, b, c);
    OneGroup(a, b, c);
  }

  /** Two bytes are three digits and one are two, as if zeros followed, with their padding. */
  lemma ShortGroups(a: Utf8.Byte, b: Utf8.Byte)
    ensures Base64Url.UrlsafeEncode([a, b]) == Base64Url.UrlsafeEncode([a, b, 0])[..3] + "="
    ensures Base64Url.UrlsafeEncode([a]) == Base64Url.UrlsafeEncode([a, 0, 0])[..2] + "=="
  {
    OneGroup(a, b, 0);
    OneGroup(a, 0, 0);
  }

  lemma QuantumIs(a: Utf8.Byte, b: Utf8.Byte, c: Utf8.Byte)
    ensures Base64Url.Quantum(a, b, c)
         == [Symbol(a / 4), Symbol(a % 4 * 16 + b / 16), Symbol(b % 16 * 4 + c / 64), Symbol(c % 64)]
  {
    DigitIs(a / 4);
    DigitIs(a % 4 * 16 + b / 16);
    DigitIs(b % 16 * 4 + c / 64);
    DigitIs(c % 64);
  }

  lemma OneGroup(a: Utf8.Byte, b: Utf8.Byte, c: Utf8.Byte)
    ensures Base64Url.UrlsafeEncode([a, b, c]) == Base64Url.Quantum(a, b, c)
  {
    assert [a, b, c][3..] == [];
  }

  // ----- JSON -----

  /** Canonical text has no white space but in strings, and keys in order. */
  lemma ListText()
    ensures Dumps(List(Item(Int(-12), Item(Bool(true), Item(Null, NoItem))))) == "[-12,true,null]"
  {
  }

  lemma ObjectText()
    ensures Dumps(Obj(Field("b", Int(1), Field("a", Str("x"), NoField)))) == "{\"a\":\"x\",\"b\":1}"
  {
  }

  lemma StringText()
    ensures Dumps(Str("\"\\\n/")) == "\"\\\"\\\\\\n/\""
  {
  }

  /** Seven short escapes, `\u00` and two lower-case digits for the other control characters, and nothing else. */
  lemma EscapesExactly(c: char)
    ensures EscapeChar(c) ==
      match c as int
      case 8 => "\\b" case 9 => "\\t" case 10 => "\\n" case 12 => "\\f" case 13 => "\\r"
      case 34 => "\\\"" case 92 => "\\\\"
      case n => if n < 32 then "\\u00" + ["0123456789abcdef"[n / 16], "0123456789abcdef"[n % 16]] else [c]
  {
  }

  /** Both cases are read. */
  lemma HexExactly(c: char, d: nat)
    requires d < 16
    ensures HexDigit(c) == Some(d) <==> c == "0123456789abcdef"[d] || c == "0123456789ABCDEF"[d]
  {
  }

  /** The 29 characters that Python takes for white space. */
  const WHITE_SPACE: set<int> :=
    {9, 10, 11, 12, 13, 28, 29, 30, 31, 32, 0x85, 0xA0, 0x1680, 0x2000, 0x2001, 0x2002, 0x2003, 0x2004, 0x2005,
     0x2006, 0x2007, 0x2008, 0x2009, 0x200A, 0x2028, 0x2029, 0x202F, 0x205F, 0x3000}

  /** What is stripped from the ends of a token. */
  lemma WhiteExactly(c: char)
    ensures ForgeFile.IsWhite(c) <==> c as int in WHITE_SPACE
  {
  }

  lemma NumberText()
    ensures Dumps(Int(0)) == "0" && Dumps(Int(-7)) == "-7" && Dumps(Int(120)) == "120"
  {
  }

  /** Nothing may be missing, and nothing but white space may follow a value. */
  lemma RefusedText()
    ensures Loads("").None? && Loads("nul").None? && Loads("1 2").None? && Loads("01").None?
  {
  }

  lemma RefusedList()
    ensures Loads("[1,]").None?
  {
  }

  lemma RefusedObject()
    ensures Loads("{\"a\" 1}").None?
  {
  }

  lemma RefusedString()
    ensures Loads("\"a").None? && Loads("\"\\x\"").None? && Loads("\"\n\"").None?
  {
  }

  /** A high surrogate needs the escape of a low one. */
  lemma RefusedSurrogate()
    ensures Unescape("ud800xudc00").Fail? && Unescape("ud800\\n").Fail? && Unescape("udc00").Fail?
  {
  }

  lemma SpacesExactly(c: char)
    ensures IsSpace(c) <==> c == ' ' || c == '\t' || c == '\n' || c == '\r'
  {
  }
}
