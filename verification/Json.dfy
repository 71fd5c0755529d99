/** JSON values, their compact text, and the parser (section 7 of RFC 8259 for strings). */
module Json {
  import opened Basics

  /** A dictionary keeps its keys in insertion order. */
  datatype Json = Null | Bool(b: bool) | Int(n: int) | Str(s: string) | List(items: Items) | Obj(fields: Fields)
  datatype Items = NoItem | Item(head: Json, tail: Items)
  datatype Fields = NoField | Field(key: string, value: Json, rest: Fields)

  function Size(f: Fields): nat {
    if f.NoField? then 0 else 1 + Size(f.rest)
  }

  predicate HasKey(f: Fields, k: string) {
    f.Field? && (f.key == k || HasKey(f.rest, k))
  }

  function Lookup(f: Fields, k: string): (v: Json)
    requires HasKey(f, k)
    ensures v < f
  {
    if f.key == k then f.value else Lookup(f.rest, k)
  }

  function Remove(f: Fields, k: string): Fields {
    if f.NoField? then NoField
    else if f.key == k then Remove(f.rest, k)
    else Field(f.key, f.value, Remove(f.rest, k))
  }

  /** A dictionary has each key once, at every depth. */
  predicate WellFormed(j: Json) {
    match j
    case List(items) => WellFormedItems(items)
    case Obj(fields) => WellFormedFields(fields)
    case _ => true
  }

  predicate WellFormedItems(items: Items) {
    items.Item? ==> WellFormed(items.head) && WellFormedItems(items.tail)
  }

  predicate WellFormedFields(f: Fields) {
    f.Field? ==> !HasKey(f.rest, f.key) && WellFormed(f.value) && WellFormedFields(f.rest)
  }

  /** Equality of values, in which the order of a dictionary's keys plays no part. */
  predicate Equiv(a: Json, b: Json) {
    match (a, b)
    case (List(x), List(y)) => EquivItems(x, y)
    case (Obj(f), Obj(g)) => Size(f) == Size(g) && Covers(f, g)
    case _ => a == b
  }

  predicate EquivItems(x: Items, y: Items) {
    match (x, y)
    case (Item(h, t), Item(h', t')) => Equiv(h, h') && EquivItems(t, t')
    case _ => x == y
  }

  predicate Covers(f: Fields, g: Fields) {
    f.Field? ==> HasKey(g, f.key) && Equiv(f.value, Lookup(g, f.key)) && Covers(f.rest, g)
  }

  // -------------------------------------------------------------------------------------------- writing

  /** Strings compare by code point. */
  predicate Less(a: string, b: string) {
    b != "" && (a == "" || a[0] < b[0] || (a[0] == b[0] && Less(a[1..], b[1..])))
  }

  function InsertField(k: string, v: Json, f: Fields): Fields {
    if f.Field? && Less(f.key, k) then Field(f.key, f.value, InsertField(k, v, f.rest)) else Field(k, v, f)
  }

  /** Keys sorted at every depth. */
  function Norm(j: Json): Json {
    match j
    case List(items) => List(NormItems(items))
    case Obj(fields) => Obj(NormFields(fields))
    case _ => j
  }

  function NormItems(items: Items): Items {
    if items.NoItem? then NoItem else Item(Norm(items.head), NormItems(items.tail))
  }

  function NormFields(f: Fields): Fields {
    if f.NoField? then NoField else InsertField(f.key, Norm(f.value), NormFields(f.rest))
  }

  function HexChar(d: nat): char
    requires d < 16
  {
    if d < 10 then (48 + d) as char else (87 + d) as char
  }

  function EscapeChar(c: char): (e: string)
    ensures e != ""
  {
    if c == '"' then "\\\""
    else if c == '\\' then "\\\\"
    else if c == '\n' then "\\n"
    else if c == '\r' then "\\r"
    else if c == '\t' then "\\t"
    else if c as int == 8 then "\\b"
    else if c as int == 12 then "\\f"
    else if c as int < 32 then "\\u00" + [HexChar(c as int / 16), HexChar(c as int % 16)]
    else [c]
  }

  /** The characters of a string literal and its closing quote. */
  function CharsText(s: string): string {
    if s == "" then "\"" else EscapeChar(s[0]) + CharsText(s[1..])
  }

  function NatText(n: nat): string {
    if n < 10 then [(48 + n) as char] else NatText(n / 10) + [(48 + n % 10) as char]
  }

  function IntText(n: int): string {
    if n < 0 then "-" + NatText(-n) else NatText(n)
  }

  /** Compact text: no white space, keys in the order of the dictionary. */
  function Text(j: Json): string {
    match j
    case Null => "null"
    case Bool(b) => if b then "true" else "false"
    case Int(n) => IntText(n)
    case Str(s) => "\"" + CharsText(s)
    case List(items) => "[" + (if items.NoItem? then "]" else ItemsText(items))
    case Obj(fields) => "{" + (if fields.NoField? then "}" else FieldsText(fields))
  }

  function ItemsText(items: Items): string
    requires items.Item?
  {
    Text(items.head) + (if items.tail.NoItem? then "]" else "," + ItemsText(items.tail))
  }

  function FieldsText(f: Fields): string
    requires f.Field?
  {
    "\"" + CharsText(f.key) + (":" + Text(f.value) + (if f.rest.NoField? then "}" else "," + FieldsText(f.rest)))
  }

  /** `json.dumps(j, sort_keys=True, separators=(",", ":"), ensure_ascii=False)`. */
  function Dumps(j: Json): string {
    Text(Norm(j))
  }

  // -------------------------------------------------------------------------------------------- parsing

  /** A value read from the front of a text, and the text after it. */
  datatype Parse<+T> = Got(value: T, rest: string) | Fail

  predicate IsSpace(c: char) {
    c == ' ' || c == '\t' || c == '\n' || c == '\r'
  }

  function SkipSpace(s: string): (t: string)
    ensures |t| <= |s|
  {
    if s != "" && IsSpace(s[0]) then SkipSpace(s[1..]) else s
  }

  predicate IsDigit(c: char) {
    '0' <= c <= '9'
  }

  function Digits(s: string, read: nat): (r: Parse<nat>)
    ensures r.Got? && |r.rest| <= |s|
  {
    if s != "" && IsDigit(s[0]) then Digits(s[1..], read * 10 + (s[0] as int - 48)) else Got(read, s)
  }

  /** A zero or a digit sequence without a leading zero. */
  function ParseNat(s: string): (r: Parse<nat>)
    ensures r.Got? ==> |r.rest| < |s|
  {
    if s == "" || !IsDigit(s[0]) then Fail
    else if s[0] == '0' then Got(0, s[1..])
    else Digits(s[1..], s[0] as int - 48)
  }

  function ParseInt(s: string): (r: Parse<Json>)
    ensures r.Got? ==> |r.rest| < |s|
  {
    if s != "" && s[0] == '-' then
      match ParseNat(s[1..])
      case Got(n, rest) => Got(Int(0 - n), rest)
      case Fail => Fail
    else
      match ParseNat(s)
      case Got(n, rest) => Got(Int(n), rest)
      case Fail => Fail
  }

  function HexDigit(c: char): (d: Option<nat>)
    ensures d.Some? ==> d.value < 16
  {
    if '0' <= c <= '9' then Some(c as int - 48)
    else if 'a' <= c <= 'f' then Some(c as int - 87)
    else if 'A' <= c <= 'F' then Some(c as int - 55)
    else None
  }

  /** Four hexadecimal digits at the front of `s`. */
  function HexQuad(s: string): (n: Option<nat>)
    ensures n.Some? ==> |s| >= 4 && n.value < 0x1_0000
  {
    if |s| < 4 then None
    else
      var a, b, c, d := HexDigit(s[0]), HexDigit(s[1]), HexDigit(s[2]), HexDigit(s[3]);
      if a.None? || b.None? || c.None? || d.None? then None
      else Some(a.value * 0x1000 + b.value * 0x100 + c.value * 0x10 + d.value)
  }

  predicate IsHigh(n: nat) {
    0xD800 <= n < 0xDC00
  }

  predicate IsLow(n: nat) {
    0xDC00 <= n < 0xE000
  }

  /** The character an escape denotes; `s` starts after the backslash.  A lone surrogate is no character. */
  function Unescape(s: string): (r: Parse<char>)
    ensures r.Got? ==> |r.rest| < |s|
  {
    if s == "" then Fail
    else match s[0]
      case '"' => Got('"', s[1..])
      case '\\' => Got('\\', s[1..])
      case '/' => Got('/', s[1..])
      case 'b' => Got(8 as char, s[1..])
      case 'f' => Got(12 as char, s[1..])
      case 'n' => Got('\n', s[1..])
      case 'r' => Got('\r', s[1..])
      case 't' => Got('\t', s[1..])
      case 'u' =>
        var high := HexQuad(s[1..]);
        if high.None? then Fail
        else if !IsHigh(high.value) && !IsLow(high.value) then Got(high.value as char, s[5..])
        else if IsHigh(high.value) && |s| >= 7 && s[5] == '\\' && s[6] == 'u' then
          var low := HexQuad(s[7..]);
          if low.None? || !IsLow(low.value) then Fail
          else Got((0x1_0000 + (high.value - 0xD800) * 0x400 + (low.value - 0xDC00)) as char, s[11..])
        else Fail
      case _ => Fail
  }

  /** A string literal after its opening quote; control characters must be escaped. */
  function ParseChars(s: string): (r: Parse<string>)
    ensures r.Got? ==> |r.rest| < |s|
    decreases |s|
  {
    if s == "" then Fail
    else if s[0] == '"' then Got("", s[1..])
    else if s[0] == '\\' then
      match Unescape(s[1..])
      case Got(c, rest) => Prepend(c, ParseChars(rest))
      case Fail => Fail
    else if s[0] as int < 32 then Fail
    else Prepend(s[0], ParseChars(s[1..]))
  }

  function Prepend(c: char, r: Parse<string>): Parse<string> {
    match r
    case Got(s, rest) => Got([c] + s, rest)
    case Fail => Fail
  }

  function ParseValue(s: string): (r: Parse<Json>)
    ensures r.Got? ==> |r.rest| < |s|
    decreases |s|, 0
  {
    if s == "" then Fail
    else if s[0] == '"' then
      match ParseChars(s[1..])
      case Got(t, rest) => Got(Str(t), rest)
      case Fail => Fail
    else if s[0] == '[' then
      var t := SkipSpace(s[1..]);
      if t != "" && t[0] == ']' then Got(List(NoItem), t[1..])
      else
        match ParseItems(t)
        case Got(items, rest) => Got(List(items), rest)
        case Fail => Fail
    else if s[0] == '{' then
      var t := SkipSpace(s[1..]);
      if t != "" && t[0] == '}' then Got(Obj(NoField), t[1..])
      else
        match ParseFields(t)
        case Got(pairs, rest) => Got(Obj(Dict(pairs)), rest)
        case Fail => Fail
    else if "null" <= s then Got(Null, s[4..])
    else if "true" <= s then Got(Bool(true), s[4..])
    else if "false" <= s then Got(Bool(false), s[5..])
    else ParseInt(s)
  }

  /** One or more values, each followed by a comma or the closing bracket. */
  function ParseItems(s: string): (r: Parse<Items>)
    ensures r.Got? ==> |r.rest| < |s|
    decreases |s|, 1
  {
    match ParseValue(s)
    case Fail => Fail
    case Got(v, rest) =>
      var t := SkipSpace(rest);
      if t == "" then Fail
      else if t[0] == ']' then Got(Item(v, NoItem), t[1..])
      else if t[0] != ',' then Fail
      else
        match ParseItems(SkipSpace(t[1..]))
        case Got(more, after) => Got(Item(v, more), after)
        case Fail => Fail
  }

  /** One or more key-value pairs, each followed by a comma or the closing brace. */
  function ParseFields(s: string): (r: Parse<Fields>)
    ensures r.Got? ==> |r.rest| < |s|
    decreases |s|, 1
  {
    if s == "" || s[0] != '"' then Fail
    else
      match ParseChars(s[1..])
      case Fail => Fail
      case Got(k, rest) => ParseRest(k, SkipSpace(rest))
  }

  /** A colon, the value of key `k`, and the pairs after it. */
  function ParseRest(k: string, s: string): (r: Parse<Fields>)
    ensures r.Got? ==> |r.rest| < |s|
    decreases |s|, 1
  {
    if s == "" || s[0] != ':' then Fail
    else
      match ParseValue(SkipSpace(s[1..]))
      case Fail => Fail
      case Got(v, rest) =>
        var t := SkipSpace(rest);
        if t == "" then Fail
        else if t[0] == '}' then Got(Field(k, v, NoField), t[1..])
        else if t[0] != ',' then Fail
        else
          match ParseFields(SkipSpace(t[1..]))
          case Got(more, after) => Got(Field(k, v, more), after)
          case Fail => Fail
  }

  /** The dictionary of a list of pairs: a repeated key keeps its first place and takes its last value. */
  function Dict(pairs: Fields): Fields {
    if pairs.NoField? then NoField
    else
      var later := Dict(pairs.rest);
      Field(pairs.key, if HasKey(later, pairs.key) then Lookup(later, pairs.key) else pairs.value,
            Remove(later, pairs.key))
  }

  /** `json.loads`: one value, with white space around it. */
  function Loads(s: string): Option<Json> {
    match ParseValue(SkipSpace(s))
    case Fail => None
    case Got(j, rest) => if SkipSpace(rest) == "" then Some(j) else None
  }
}
