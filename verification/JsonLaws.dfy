/** The text of a value reads back as that value. */
module JsonRoundTrip {
  import opened Basics
  import opened Json

  /** What may follow a value: no digit extends a number here. */
  predicate EndsValue(rest: string) {
    rest == "" || !IsDigit(rest[0])
  }

  lemma OneDigit(d: nat, rest: string, read: nat)
    requires d < 10
    ensures Digits([(48 + d) as char] + rest, read) == Digits(rest, read * 10 + d)
  {
    assert ([(48 + d) as char] + rest)[1..] == rest;
  }

  /** `Digits` reads a decimal numeral back. */
  lemma {:induction false} DigitsRead(n: nat, rest: string)
    ensures Digits(NatText(n) + rest, 0) == Digits(rest, n)
  {
    var d := [(48 + n % 10) as char];
    if n < 10 {
      OneDigit(n, rest, 0);
    } else {
      DigitsRead(n / 10, d + rest);
      OneDigit(n % 10, rest, n / 10);
      Regroup(NatText(n / 10), d, rest);
    }
  }

  lemma {:induction false} NatTextFront(n: nat)
    ensures NatText(n) != "" && IsDigit(NatText(n)[0]) && (n > 0 ==> NatText(n)[0] != '0')
  {
    if n >= 10 {
      NatTextFront(n / 10);
    }
  }

  lemma NatRoundTrip(n: nat, rest: string)
    requires rest == "" || !IsDigit(rest[0])
    ensures ParseNat(NatText(n) + rest) == Got(n, rest)
  {
    var s := NatText(n) + rest;
    NatTextFront(n);
    if n == 0 {
      assert s[1..] == rest;
    } else {
      DigitsRead(n, rest);
      assert Digits(s, 0) == Digits(s[1..], s[0] as int - 48);
    }
  }

  lemma NegativeRoundTrip(n: nat, rest: string)
    requires rest == "" || !IsDigit(rest[0])
    ensures ParseInt("-" + NatText(n) + rest) == Got(Int(0 - n), rest)
  {
    NatRoundTrip(n, rest);
    var s := "-" + NatText(n) + rest;
    assert s[0] == '-' && s[1..] == NatText(n) + rest;
  }

  lemma IntRoundTrip(n: int, rest: string)
    requires rest == "" || !IsDigit(rest[0])
    ensures ParseInt(IntText(n) + rest) == Got(Int(n), rest)
  {
    if n < 0 {
      NegativeRoundTrip(-n, rest);
    } else {
      NatTextFront(n);
      NatRoundTrip(n, rest);
    }
  }

  lemma HexRoundTrip(d: nat)
    requires d < 16
    ensures HexDigit(HexChar(d)) == Some(d)
  {
  }

  /** A control character without a short escape. */
  lemma ControlEscape(c: char, rest: string)
    requires c as int < 32
    ensures Unescape("u00" + [HexChar(c as int / 16), HexChar(c as int % 16)] + rest) == Got(c, rest)
  {
    var s := "u00" + [HexChar(c as int / 16), HexChar(c as int % 16)] + rest;
    HexRoundTrip(c as int / 16);
    HexRoundTrip(c as int % 16);
    assert s[1..][0] == '0' && s[1..][1] == '0';
    assert s[1..][2] == HexChar(c as int / 16) && s[1..][3] == HexChar(c as int % 16);
    assert HexQuad(s[1..]) == Some(c as int);
    assert s[5..] == rest;
  }

  lemma CharRoundTrip(c: char, rest: string)
    ensures ParseChars(EscapeChar(c) + rest) == Prepend(c, ParseChars(rest))
  {
    var e := EscapeChar(c);
    var s := e + rest;
    if c as int < 32 && |e| > 2 {
      ControlEscape(c, rest);
      assert s[1..] == "u00" + [HexChar(c as int / 16), HexChar(c as int % 16)] + rest;
    } else if |e| == 2 {
      assert s[1..] == [e[1]] + rest && s[1..][1..] == rest;
    } else {
      assert s[1..] == rest;
    }
  }

  lemma {:induction false} CharsRoundTrip(t: string, rest: string)
    ensures ParseChars(CharsText(t) + rest) == Got(t, rest)
  {
    if t == "" {
      assert (CharsText(t) + rest)[1..] == rest;
    } else {
      CharsRoundTrip(t[1..], rest);
      CharRoundTrip(t[0], CharsText(t[1..]) + rest);
      assert CharsText(t) + rest == EscapeChar(t[0]) + (CharsText(t[1..]) + rest);
      assert [t[0]] + t[1..] == t;
    }
  }

  /** A value's text starts with neither white space nor a closing bracket. */
  lemma TextFront(j: Json)
    ensures Text(j) != ""
    ensures !IsSpace(Text(j)[0]) && Text(j)[0] != ']'
  {
    if j.Int? {
      NatTextFront(if j.n < 0 then -j.n else j.n);
    }
  }

  lemma {:induction false} DistinctIsDict(f: Fields)
    requires WellFormedFields(f)
    ensures Dict(f) == f
  {
    if f.Field? {
      DistinctIsDict(f.rest);
      RemoveAbsent(f.rest, f.key);
    }
  }

  lemma {:induction false} RemoveAbsent(f: Fields, k: string)
    requires !HasKey(f, k)
    ensures Remove(f, k) == f
  {
    if f.Field? {
      RemoveAbsent(f.rest, k);
    }
  }

  lemma {:induction false} ValueRoundTrip(j: Json, rest: string)
    requires WellFormed(j) && EndsValue(rest)
    ensures ParseValue(Text(j) + rest) == Got(j, rest)
    decreases j, 1
  {
    match j
    case Null => NullRoundTrip(rest);
    case Bool(b) => BoolRoundTrip(b, rest);
    case Int(n) => NumberRoundTrip(n, rest);
    case Str(t) => StringRoundTrip(t, rest);
    case List(items) => ListRoundTrip(items, rest);
    case Obj(fields) => ObjRoundTrip(fields, rest);
  }

  lemma NullRoundTrip(rest: string)
    ensures ParseValue(Text(Null) + rest) == Got(Null, rest)
  {
    assert ("null" + rest)[4..] == rest;
  }

  lemma StringRoundTrip(t: string, rest: string)
    ensures ParseValue(Text(Str(t)) + rest) == Got(Str(t), rest)
  {
    var s := "\"" + (CharsText(t) + rest);
    CharsRoundTrip(t, rest);
    Regroup("\"", CharsText(t), rest);
    assert s[0] == '"' && s[1..] == CharsText(t) + rest;
  }

  lemma BoolRoundTrip(b: bool, rest: string)
    ensures ParseValue(Text(Bool(b)) + rest) == Got(Bool(b), rest)
  {
    var s := Text(Bool(b)) + rest;
    assert if b then s[4..] == rest else s[5..] == rest;
    assert s[0] == (if b then 't' else 'f');
    assert "null"[0] == 'n' && "true"[0] == 't';
  }

  lemma NumberRoundTrip(n: int, rest: string)
    requires EndsValue(rest)
    ensures ParseValue(Text(Int(n)) + rest) == Got(Int(n), rest)
  {
    var s := IntText(n) + rest;
    IntRoundTrip(n, rest);
    NatTextFront(if n < 0 then -n else n);
    assert s[0] == '-' || IsDigit(s[0]);
    assert "null"[0] == 'n' && "true"[0] == 't' && "false"[0] == 'f';
  }

  lemma EmptyList(rest: string)
    ensures ParseValue("[]" + rest) == Got(List(NoItem), rest)
  {
    var s := "[]" + rest;
    assert s[0] == '[' && s[1..] == "]" + rest && s[1..][1..] == rest;
  }

  lemma OpenList(s: string, items: Items, rest: string)
    requires s != "" && s[0] == '[' && s[1..] != "" && !IsSpace(s[1..][0]) && s[1..][0] != ']'
    requires ParseItems(s[1..]) == Got(items, rest)
    ensures ParseValue(s) == Got(List(items), rest)
  {
  }

  lemma {:induction false} ListRoundTrip(items: Items, rest: string)
    requires WellFormedItems(items)
    ensures ParseValue(Text(List(items)) + rest) == Got(List(items), rest)
    decreases items, 2
  {
    if items.NoItem? {
      EmptyList(rest);
    } else {
      var s := "[" + (ItemsText(items) + rest);
      assert s == Text(List(items)) + rest;
      ItemsRoundTrip(items, rest);
      TextFront(items.head);
      assert s[1..] == ItemsText(items) + rest;
      OpenList(s, items, rest);
    }
  }

  lemma NextItem(s: string, v: Json, after: string, more: Items, rest: string)
    requires ParseValue(s) == Got(v, after) && after != "" && after[0] == ','
    requires after[1..] != "" && !IsSpace(after[1..][0]) && ParseItems(after[1..]) == Got(more, rest)
    ensures ParseItems(s) == Got(Item(v, more), rest)
  {
  }

  lemma ItemsTextSplit(items: Items, rest: string)
    requires items.Item?
    ensures ItemsText(items) + rest ==
      Text(items.head) + (if items.tail.NoItem? then "]" + rest else "," + (ItemsText(items.tail) + rest))
  {
  }

  lemma {:induction false} ItemsRoundTrip(items: Items, rest: string)
    requires WellFormedItems(items) && items.Item?
    ensures ParseItems(ItemsText(items) + rest) == Got(items, rest)
    decreases items, 1
  {
    ItemsTextSplit(items, rest);
    if items.tail.NoItem? {
      ValueRoundTrip(items.head, "]" + rest);
      assert ("]" + rest)[1..] == rest;
    } else {
      var next := ItemsText(items.tail) + rest;
      ValueRoundTrip(items.head, "," + next);
      ItemsRoundTrip(items.tail, rest);
      TextFront(items.tail.head);
      assert ("," + next)[1..] == next;
      NextItem(ItemsText(items) + rest, items.head, "," + next, items.tail, rest);
    }
  }

  lemma EmptyObj(rest: string)
    ensures ParseValue("{}" + rest) == Got(Obj(NoField), rest)
  {
    var s := "{}" + rest;
    assert s[0] == '{' && s[1..] == "}" + rest && s[1..][1..] == rest;
  }

  lemma OpenObj(s: string, pairs: Fields, rest: string)
    requires s != "" && s[0] == '{' && s[1..] != "" && s[1..][0] == '"'
    requires ParseFields(s[1..]) == Got(pairs, rest)
    ensures ParseValue(s) == Got(Obj(Dict(pairs)), rest)
  {
  }

  lemma {:induction false} ObjRoundTrip(fields: Fields, rest: string)
    requires WellFormedFields(fields)
    ensures ParseValue(Text(Obj(fields)) + rest) == Got(Obj(fields), rest)
    decreases fields, 2
  {
    if fields.NoField? {
      EmptyObj(rest);
    } else {
      var s := "{" + (FieldsText(fields) + rest);
      assert s == Text(Obj(fields)) + rest;
      FieldsRoundTrip(fields, rest);
      DistinctIsDict(fields);
      assert s[1..] == FieldsText(fields) + rest;
      OpenObj(s, fields, rest);
    }
  }

  lemma FieldKey(k: string, colon: string)
    requires colon != "" && !IsSpace(colon[0])
    ensures ParseFields("\"" + (CharsText(k) + colon)) == ParseRest(k, colon)
  {
    CharsRoundTrip(k, colon);
    assert ("\"" + (CharsText(k) + colon))[1..] == CharsText(k) + colon;
  }

  lemma LastField(k: string, s: string, v: Json, after: string)
    requires s != "" && s[0] == ':' && s[1..] != "" && !IsSpace(s[1..][0])
    requires ParseValue(s[1..]) == Got(v, after) && after != "" && after[0] == '}'
    ensures ParseRest(k, s) == Got(Field(k, v, NoField), after[1..])
  {
  }

  lemma NextField(k: string, s: string, v: Json, after: string, more: Fields, rest: string)
    requires s != "" && s[0] == ':' && s[1..] != "" && !IsSpace(s[1..][0])
    requires ParseValue(s[1..]) == Got(v, after) && after != "" && after[0] == ','
    requires after[1..] != "" && !IsSpace(after[1..][0]) && ParseFields(after[1..]) == Got(more, rest)
    ensures ParseRest(k, s) == Got(Field(k, v, more), rest)
  {
  }

  lemma FieldsTextSplit(f: Fields, text: string, after: string, rest: string)
    requires f.Field? && text == Text(f.value)
    requires after == if f.rest.NoField? then "}" + rest else "," + (FieldsText(f.rest) + rest)
    ensures FieldsText(f) + rest == "\"" + (CharsText(f.key) + (":" + (text + after)))
  {
    var end := if f.rest.NoField? then "}" else "," + FieldsText(f.rest);
    var key, value := "\"" + CharsText(f.key), ":" + text + end;
    assert end + rest == after;
    assert FieldsText(f) == key + value;
    Regroup(key, value, rest);
    Regroup(":" + text, end, rest);
    Regroup(":", text, after);
    Regroup("\"", CharsText(f.key), value + rest);
  }

  lemma Regroup(a: string, b: string, c: string)
    ensures a + b + c == a + (b + c)
  {
  }

  lemma {:induction false} FieldsRoundTrip(f: Fields, rest: string)
    requires WellFormedFields(f) && f.Field?
    ensures ParseFields(FieldsText(f) + rest) == Got(f, rest)
    decreases f, 1
  {
    var text := Text(f.value);
    TextFront(f.value);
    if f.rest.NoField? {
      var after := "}" + rest;
      var colon := ":" + (text + after);
      ValueRoundTrip(f.value, after);
      assert after[1..] == rest && colon[1..] == text + after;
      LastField(f.key, colon, f.value, after);
      FieldKey(f.key, colon);
      FieldsTextSplit(f, text, after, rest);
    } else {
      var next := FieldsText(f.rest) + rest;
      var after := "," + next;
      var colon := ":" + (text + after);
      ValueRoundTrip(f.value, after);
      FieldsRoundTrip(f.rest, rest);
      assert after[1..] == next && colon[1..] == text + after;
      NextField(f.key, colon, f.value, after, f.rest, rest);
      FieldKey(f.key, colon);
      FieldsTextSplit(f, text, after, rest);
    }
  }

  predicate AllSpace(s: string) {
    forall i :: 0 <= i < |s| ==> IsSpace(s[i])
  }

  lemma {:induction false} SkipsSpace(before: string, s: string)
    requires AllSpace(before) && (s == "" || !IsSpace(s[0]))
    ensures SkipSpace(before + s) == s
  {
    if before == "" {
      assert before + s == s;
    } else {
      SkipsSpace(before[1..], s);
      assert (before + s)[1..] == before[1..] + s;
    }
  }

  /** Reading the text of any value, with white space around it or not, gives that value. */
  lemma TextRoundTrip(before: string, j: Json, after: string)
    requires WellFormed(j) && AllSpace(before) && AllSpace(after)
    ensures Loads(before + (Text(j) + after)) == Some(j)
  {
    ValueRoundTrip(j, after);
    TextFront(j);
    SkipsSpace(before, Text(j) + after);
    SkipsSpace(after, "");
    assert after + "" == after;
  }

  // ------------------------------------------------------------------------------- what any text reads as

  /** The value of the last pair with key `k`. */
  function LastValue(pairs: Fields, k: string): Json
    requires HasKey(pairs, k)
  {
    if HasKey(pairs.rest, k) then LastValue(pairs.rest, k) else pairs.value
  }

  lemma {:induction false} RemoveKeys(f: Fields, k: string, q: string)
    ensures HasKey(Remove(f, k), q) <==> q != k && HasKey(f, q)
    ensures HasKey(Remove(f, k), q) ==> Lookup(Remove(f, k), q) == Lookup(f, q)
  {
    if f.Field? {
      RemoveKeys(f.rest, k, q);
    }
  }

  /** A repeated key takes its last value. */
  lemma {:induction false} LastPairWins(pairs: Fields, k: string)
    ensures HasKey(Dict(pairs), k) <==> HasKey(pairs, k)
    ensures HasKey(pairs, k) ==> Lookup(Dict(pairs), k) == LastValue(pairs, k)
  {
    if pairs.Field? {
      LastPairWins(pairs.rest, k);
      RemoveKeys(Dict(pairs.rest), pairs.key, k);
    }
  }

  /** Pairs with values that are themselves well-formed; keys may repeat. */
  predicate WellFormedPairs(pairs: Fields) {
    pairs.Field? ==> WellFormed(pairs.value) && WellFormedPairs(pairs.rest)
  }

  lemma {:induction false} RemoveWellFormed(f: Fields, k: string)
    requires WellFormedFields(f)
    ensures WellFormedFields(Remove(f, k))
  {
    if f.Field? {
      RemoveWellFormed(f.rest, k);
      RemoveKeys(f.rest, k, f.key);
    }
  }

  lemma {:induction false} LookupWellFormed(f: Fields, k: string)
    requires WellFormedFields(f) && HasKey(f, k)
    ensures WellFormed(Lookup(f, k))
  {
    if f.key != k {
      LookupWellFormed(f.rest, k);
    }
  }

  lemma {:induction false} DictWellFormed(pairs: Fields)
    requires WellFormedPairs(pairs)
    ensures WellFormedFields(Dict(pairs))
  {
    if pairs.Field? {
      var later := Dict(pairs.rest);
      DictWellFormed(pairs.rest);
      RemoveWellFormed(later, pairs.key);
      RemoveKeys(later, pairs.key, pairs.key);
      if HasKey(later, pairs.key) {
        LookupWellFormed(later, pairs.key);
      }
    }
  }

  lemma {:induction false} ValueReadsWellFormed(s: string)
    ensures ParseValue(s).Got? ==> WellFormed(ParseValue(s).value)
    decreases |s|, 0
  {
    if s != "" && s[0] == '[' {
      ItemsReadWellFormed(SkipSpace(s[1..]));
    } else if s != "" && s[0] == '{' {
      var t := SkipSpace(s[1..]);
      FieldsReadWellFormed(t);
      if ParseFields(t).Got? {
        DictWellFormed(ParseFields(t).value);
      }
    }
  }

  lemma {:induction false} ItemsReadWellFormed(s: string)
    ensures ParseItems(s).Got? ==> WellFormedItems(ParseItems(s).value)
    decreases |s|, 1
  {
    ValueReadsWellFormed(s);
    if ParseValue(s).Got? {
      var t := SkipSpace(ParseValue(s).rest);
      if t != "" {
        ItemsReadWellFormed(SkipSpace(t[1..]));
      }
    }
  }

  lemma {:induction false} FieldsReadWellFormed(s: string)
    ensures ParseFields(s).Got? ==> WellFormedPairs(ParseFields(s).value)
    decreases |s|, 1
  {
    if s != "" && s[0] == '"' && ParseChars(s[1..]).Got? {
      RestReadsWellFormed(ParseChars(s[1..]).value, SkipSpace(ParseChars(s[1..]).rest));
    }
  }

  lemma {:induction false} RestReadsWellFormed(k: string, s: string)
    ensures ParseRest(k, s).Got? ==> WellFormedPairs(ParseRest(k, s).value)
    decreases |s|, 1
  {
    if s != "" {
      var u := SkipSpace(s[1..]);
      ValueReadsWellFormed(u);
      if ParseValue(u).Got? {
        var t := SkipSpace(ParseValue(u).rest);
        if t != "" {
          FieldsReadWellFormed(SkipSpace(t[1..]));
        }
      }
    }
  }

  /** Whatever text is read, every dictionary in the result has each key once. */
  lemma LoadsWellFormed(s: string)
    ensures Loads(s).Some? ==> WellFormed(Loads(s).value)
  {
    ValueReadsWellFormed(SkipSpace(s));
  }

  // ----------------------------------------------------------------------------------------- other writers

  /** Four hexadecimal digits. */
  function HexText(n: nat): string
    requires n < 0x1_0000
  {
    [HexChar(n / 0x1000), HexChar(n / 0x100 % 16), HexChar(n / 0x10 % 16), HexChar(n % 16)]
  }

  function HighUnit(n: nat): (u: nat)
    requires 0x1_0000 <= n < 0x11_0000
    ensures IsHigh(u)
  {
    0xD800 + (n - 0x1_0000) / 0x400
  }

  function LowUnit(n: nat): (u: nat)
    requires 0x1_0000 <= n < 0x11_0000
    ensures IsLow(u)
  {
    0xDC00 + (n - 0x1_0000) % 0x400
  }

  /** The escape that writers confined to ASCII use, without its backslash: one unit, or a surrogate pair. */
  function AsciiEscape(c: char): string {
    var n := c as int;
    if n < 0x1_0000 then "u" + HexText(n)
    else "u" + HexText(HighUnit(n)) + "\\u" + HexText(LowUnit(n))
  }

  lemma FourDigits(n: nat)
    requires n < 0x1_0000
    ensures n == n / 0x1000 * 0x1000 + n / 0x100 % 16 * 0x100 + n / 0x10 % 16 * 0x10 + n % 16
  {
    assert n / 0x100 == n / 0x10 / 16 && n / 0x1000 == n / 0x100 / 16;
  }

  lemma HexQuadReads(n: nat, rest: string)
    requires n < 0x1_0000
    ensures HexQuad(HexText(n) + rest) == Some(n)
  {
    HexRoundTrip(n / 0x1000);
    HexRoundTrip(n / 0x100 % 16);
    HexRoundTrip(n / 0x10 % 16);
    HexRoundTrip(n % 16);
    FourDigits(n);
  }

  lemma PairReads(high: nat, low: nat, rest: string)
    requires IsHigh(high) && IsLow(low)
    ensures Unescape("u" + HexText(high) + "\\u" + HexText(low) + rest)
      == Got((0x1_0000 + (high - 0xD800) * 0x400 + (low - 0xDC00)) as char, rest)
  {
    var s := "u" + HexText(high) + "\\u" + HexText(low) + rest;
    HexQuadReads(high, "\\u" + HexText(low) + rest);
    HexQuadReads(low, rest);
    assert s[1..] == HexText(high) + ("\\u" + HexText(low) + rest);
    assert s[7..] == HexText(low) + rest && s[11..] == rest;
  }

  lemma UnitReads(n: nat, rest: string)
    requires n < 0x1_0000 && !IsHigh(n) && !IsLow(n)
    ensures Unescape("u" + HexText(n) + rest) == Got(n as char, rest)
  {
    var s := "u" + HexText(n) + rest;
    HexQuadReads(n, rest);
    assert s[0] == 'u' && s[1..] == HexText(n) + rest && s[5..] == rest;
  }

  /** Every character reads back from its escape, those outside the basic plane from a surrogate pair. */
  lemma AsciiEscapeReads(c: char, rest: string)
    ensures Unescape(AsciiEscape(c) + rest) == Got(c, rest)
  {
    var n := c as int;
    if n < 0x1_0000 {
      UnitReads(n, rest);
    } else {
      PairReads(HighUnit(n), LowUnit(n), rest);
    }
  }
}

/** Canonical text names a value up to the order of its keys, and exactly one such value. */
module JsonCanonical {
  import opened Basics
  import opened Json
  import JsonRoundTrip

  // ------------------------------------------------------------------------------------- the order of keys

  lemma {:induction false} LessTotal(a: string, b: string)
    ensures a == b || Less(a, b) || Less(b, a)
    ensures !(Less(a, b) && Less(b, a)) && !Less(a, a)
  {
    if a != "" {
      if b != "" && a[0] == b[0] {
        LessTotal(a[1..], b[1..]);
        assert a == [a[0]] + a[1..] && b == [b[0]] + b[1..];
      }
      LessIrreflexive(a);
    }
  }

  lemma {:induction false} LessIrreflexive(a: string)
    ensures !Less(a, a)
  {
    if a != "" {
      LessIrreflexive(a[1..]);
    }
  }

  lemma {:induction false} LessTransitive(a: string, b: string, c: string)
    requires Less(a, b) && Less(b, c)
    ensures Less(a, c)
  {
    if a != "" && a[0] == b[0] && b[0] == c[0] {
      LessTransitive(a[1..], b[1..], c[1..]);
    }
  }

  // ---------------------------------------------------------------------------------- dictionaries, sorted

  lemma {:induction false} InsertKeeps(k: string, v: Json, f: Fields, q: string)
    requires !HasKey(f, k)
    ensures Size(InsertField(k, v, f)) == Size(f) + 1
    ensures HasKey(InsertField(k, v, f), q) <==> q == k || HasKey(f, q)
    ensures HasKey(f, q) ==> Lookup(InsertField(k, v, f), q) == Lookup(f, q)
    ensures HasKey(InsertField(k, v, f), k) && Lookup(InsertField(k, v, f), k) == v
  {
    if f.Field? && Less(f.key, k) {
      InsertKeeps(k, v, f.rest, q);
      InsertKeeps(k, v, f.rest, k);
    }
  }

  /** Sorting changes neither the keys of a dictionary nor what they map to. */
  lemma {:induction false} NormKeeps(f: Fields, q: string)
    requires WellFormedFields(f)
    ensures Size(NormFields(f)) == Size(f)
    ensures HasKey(NormFields(f), q) <==> HasKey(f, q)
    ensures HasKey(f, q) ==> Lookup(NormFields(f), q) == Norm(Lookup(f, q))
  {
    if f.Field? {
      NormKeeps(f.rest, q);
      NormKeeps(f.rest, f.key);
      InsertKeeps(f.key, Norm(f.value), NormFields(f.rest), q);
    }
  }

  lemma {:induction false} InsertWellFormed(k: string, v: Json, f: Fields)
    requires WellFormedFields(f) && WellFormed(v) && !HasKey(f, k)
    ensures WellFormedFields(InsertField(k, v, f))
  {
    if f.Field? && Less(f.key, k) {
      InsertWellFormed(k, v, f.rest);
      InsertKeeps(k, v, f.rest, f.key);
    }
  }

  lemma {:induction false} NormWellFormed(j: Json)
    requires WellFormed(j)
    ensures WellFormed(Norm(j))
  {
    match j
    case List(items) => NormItemsWellFormed(items);
    case Obj(fields) => NormFieldsWellFormed(fields);
    case _ =>
  }

  lemma {:induction false} NormItemsWellFormed(items: Items)
    requires WellFormedItems(items)
    ensures WellFormedItems(NormItems(items))
  {
    if items.Item? {
      NormWellFormed(items.head);
      NormItemsWellFormed(items.tail);
    }
  }

  lemma {:induction false} NormFieldsWellFormed(f: Fields)
    requires WellFormedFields(f)
    ensures WellFormedFields(NormFields(f))
  {
    if f.Field? {
      NormWellFormed(f.value);
      NormFieldsWellFormed(f.rest);
      NormKeeps(f.rest, f.key);
      InsertWellFormed(f.key, Norm(f.value), NormFields(f.rest));
    }
  }

  lemma {:induction false} InsertsCommute(k: string, v: Json, k': string, v': Json, f: Fields)
    requires k != k'
    ensures InsertField(k, v, InsertField(k', v', f)) == InsertField(k', v', InsertField(k, v, f))
  {
    LessTotal(k, k');
    if f.Field? {
      if Less(f.key, k) && Less(f.key, k') {
        InsertsCommute(k, v, k', v', f.rest);
      } else if Less(f.key, k) {
        if Less(k', k) {
        } else {
          LessTransitive(f.key, k, k');
        }
      } else if Less(f.key, k') {
        if Less(k, k') {
        } else {
          LessTransitive(f.key, k', k);
        }
      }
    }
  }

  // --------------------------------------------------------------------- equal values, equal normal forms

  lemma {:induction false} RemoveKeeps(f: Fields, k: string, q: string)
    requires WellFormedFields(f)
    ensures WellFormedFields(Remove(f, k)) && Size(Remove(f, k)) == Size(f) - (if HasKey(f, k) then 1 else 0)
    ensures HasKey(Remove(f, k), q) <==> q != k && HasKey(f, q)
    ensures HasKey(Remove(f, k), q) ==> Lookup(Remove(f, k), q) == Lookup(f, q)
  {
    if f.Field? {
      RemoveKeeps(f.rest, k, q);
      RemoveKeeps(f.rest, k, f.key);
    }
  }

  lemma {:induction false} CoversRemove(f: Fields, g: Fields, k: string)
    requires Covers(f, g) && !HasKey(f, k) && WellFormedFields(g)
    ensures Covers(f, Remove(g, k))
  {
    if f.Field? {
      CoversRemove(f.rest, g, k);
      RemoveKeeps(g, k, f.key);
    }
  }

  /** Sorting a dictionary is sorting it without one key and inserting that key. */
  lemma {:induction false} NormOfRemove(g: Fields, k: string)
    requires WellFormedFields(g) && HasKey(g, k)
    ensures NormFields(g) == InsertField(k, Norm(Lookup(g, k)), NormFields(Remove(g, k)))
  {
    if g.key == k {
      JsonRoundTrip.RemoveAbsent(g.rest, k);
    } else {
      NormOfRemove(g.rest, k);
      InsertsCommute(g.key, Norm(g.value), k, Norm(Lookup(g.rest, k)), NormFields(Remove(g.rest, k)));
    }
  }

  lemma {:induction false} EquivNorm(a: Json, b: Json)
    requires WellFormed(a) && WellFormed(b) && Equiv(a, b)
    ensures Norm(a) == Norm(b)
  {
    match (a, b)
    case (List(x), List(y)) => EquivNormItems(x, y);
    case (Obj(f), Obj(g)) => CoversNorm(f, g);
    case _ =>
  }

  lemma {:induction false} EquivNormItems(x: Items, y: Items)
    requires WellFormedItems(x) && WellFormedItems(y) && EquivItems(x, y)
    ensures NormItems(x) == NormItems(y)
  {
    if x.Item? {
      EquivNorm(x.head, y.head);
      EquivNormItems(x.tail, y.tail);
    }
  }

  lemma {:induction false} CoversNorm(f: Fields, g: Fields)
    requires WellFormedFields(f) && WellFormedFields(g) && Size(f) == Size(g) && Covers(f, g)
    ensures NormFields(f) == NormFields(g)
  {
    if f.Field? {
      JsonRoundTrip.LookupWellFormed(g, f.key);
      EquivNorm(f.value, Lookup(g, f.key));
      RemoveKeeps(g, f.key, f.key);
      CoversRemove(f.rest, g, f.key);
      CoversNorm(f.rest, Remove(g, f.key));
      NormOfRemove(g, f.key);
    }
  }

  // --------------------------------------------------------------------- equal normal forms, equal values

  lemma {:induction false} NormEquiv(a: Json, b: Json)
    requires WellFormed(a) && WellFormed(b) && Norm(a) == Norm(b)
    ensures Equiv(a, b)
    decreases a, 1
  {
    match (a, b)
    case (List(x), List(y)) => NormEquivItems(x, y);
    case (Obj(f), Obj(g)) =>
      NormKeeps(f, "");
      NormKeeps(g, "");
      forall q | HasKey(f, q) ensures HasKey(g, q) && Norm(Lookup(f, q)) == Norm(Lookup(g, q)) {
        NormKeeps(f, q);
        NormKeeps(g, q);
      }
      NormCovers(f, g);
    case _ =>
  }

  lemma {:induction false} NormEquivItems(x: Items, y: Items)
    requires WellFormedItems(x) && WellFormedItems(y) && NormItems(x) == NormItems(y)
    ensures EquivItems(x, y)
  {
    if x.Item? {
      NormEquiv(x.head, y.head);
      NormEquivItems(x.tail, y.tail);
    }
  }

  lemma {:induction false} NormCovers(f: Fields, g: Fields)
    requires WellFormedFields(f) && WellFormedFields(g)
    requires forall q :: HasKey(f, q) ==> HasKey(g, q) && Norm(Lookup(f, q)) == Norm(Lookup(g, q))
    ensures Covers(f, g)
  {
    if f.Field? {
      assert HasKey(f, f.key);
      JsonRoundTrip.LookupWellFormed(g, f.key);
      NormEquiv(f.value, Lookup(g, f.key));
      forall q | HasKey(f.rest, q) ensures HasKey(g, q) && Norm(Lookup(f.rest, q)) == Norm(Lookup(g, q)) {
        assert HasKey(f, q) && q != f.key;
      }
      NormCovers(f.rest, g);
    }
  }

  // ----------------------------------------------------------------------------------- normal forms are fixed

  /** Keys strictly ascending at every depth. */
  predicate Sorted(j: Json) {
    match j
    case List(items) => SortedItems(items)
    case Obj(fields) => SortedFields(fields)
    case _ => true
  }

  predicate SortedItems(items: Items) {
    items.Item? ==> Sorted(items.head) && SortedItems(items.tail)
  }

  predicate SortedFields(f: Fields) {
    f.Field? ==> Sorted(f.value) && SortedFields(f.rest) && (f.rest.Field? ==> Less(f.key, f.rest.key))
  }

  lemma {:induction false} InsertSorted(k: string, v: Json, f: Fields)
    requires SortedFields(f) && Sorted(v) && !HasKey(f, k)
    ensures SortedFields(InsertField(k, v, f))
  {
    if f.Field? {
      LessTotal(f.key, k);
      if Less(f.key, k) {
        InsertSorted(k, v, f.rest);
      }
    }
  }

  lemma {:induction false} NormSorted(j: Json)
    requires WellFormed(j)
    ensures Sorted(Norm(j))
  {
    match j
    case List(items) => NormItemsSorted(items);
    case Obj(fields) => NormFieldsSorted(fields);
    case _ =>
  }

  lemma {:induction false} NormItemsSorted(items: Items)
    requires WellFormedItems(items)
    ensures SortedItems(NormItems(items))
  {
    if items.Item? {
      NormSorted(items.head);
      NormItemsSorted(items.tail);
    }
  }

  lemma {:induction false} NormFieldsSorted(f: Fields)
    requires WellFormedFields(f)
    ensures SortedFields(NormFields(f))
  {
    if f.Field? {
      NormSorted(f.value);
      NormFieldsSorted(f.rest);
      NormKeeps(f.rest, f.key);
      InsertSorted(f.key, Norm(f.value), NormFields(f.rest));
    }
  }

  lemma {:induction false} SortedFixed(j: Json)
    requires Sorted(j)
    ensures Norm(j) == j
  {
    match j
    case List(items) => SortedItemsFixed(items);
    case Obj(fields) => SortedFieldsFixed(fields);
    case _ =>
  }

  lemma {:induction false} SortedItemsFixed(items: Items)
    requires SortedItems(items)
    ensures NormItems(items) == items
  {
    if items.Item? {
      SortedFixed(items.head);
      SortedItemsFixed(items.tail);
    }
  }

  lemma {:induction false} SortedFieldsFixed(f: Fields)
    requires SortedFields(f)
    ensures NormFields(f) == f
  {
    if f.Field? {
      SortedFixed(f.value);
      SortedFieldsFixed(f.rest);
      if f.rest.Field? {
        LessTotal(f.key, f.rest.key);
      }
    }
  }

  // ---------------------------------------------------------------------------------------- main results

  /** Reading canonical text gives the value with its keys sorted at every depth, which equals the value written. */
  lemma DumpsRoundTrip(j: Json)
    requires WellFormed(j)
    ensures Loads(Dumps(j)) == Some(Norm(j)) && Equiv(Norm(j), j) && Sorted(Norm(j))
  {
    NormWellFormed(j);
    JsonRoundTrip.TextRoundTrip("", Norm(j), "");
    assert "" + (Dumps(j) + "") == Dumps(j);
    NormSorted(j);
    SortedFixed(Norm(j));
    NormEquiv(Norm(j), j);
  }

  /** Two values have the same canonical text exactly when they are equal, whatever the order of their keys. */
  lemma CanonicalText(a: Json, b: Json)
    requires WellFormed(a) && WellFormed(b)
    ensures Dumps(a) == Dumps(b) <==> Equiv(a, b)
  {
    if Equiv(a, b) {
      EquivNorm(a, b);
    }
    if Dumps(a) == Dumps(b) {
      DumpsRoundTrip(a);
      DumpsRoundTrip(b);
      NormEquiv(a, b);
    }
  }
}
