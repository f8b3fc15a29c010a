/** Canonical JSON text (RFC 8259 values, members sorted by UTF-16 code units as in section 3.2.3 of RFC 8785) and its
    parser.  Strings are sequences of UTF-16 code units, as in the program; a finite number is represented by the token
    it prints as. */
module Json {
  import opened Wrappers

  type Unit = x: int | 0 <= x < 0x1_0000

  type Text = seq<Unit>

  datatype Json =
    | Null
    | Bool(b: bool)
    | Number(token: Text)
    | String(text: Text)
    | Array(items: Items)
    | Object(fields: Fields)

  datatype Items = End | More(head: Json, tail: Items)

  /** The members of an object in insertion order. */
  datatype Fields = Done | Field(key: Text, value: Json, rest: Fields)

  const QUOTE: Unit := 34
  const BACKSLASH: Unit := 92
  const COMMA: Unit := 44
  const COLON: Unit := 58
  const NULL_TEXT: Text := [110, 117, 108, 108]
  const TRUE_TEXT: Text := [116, 114, 117, 101]
  const FALSE_TEXT: Text := [102, 97, 108, 115, 101]

  predicate IsLead(u: Unit) { 0xD800 <= u < 0xDC00 }

  predicate IsTrail(u: Unit) { 0xDC00 <= u < 0xE000 }

  predicate IsSpace(u: Unit) { u == 32 || u == 9 || u == 10 || u == 13 }

  predicate IsDigit(u: Unit) { 48 <= u <= 57 }

  predicate IsNumeric(u: Unit) { IsDigit(u) || u == 43 || u == 45 || u == 46 || u == 69 || u == 101 }

  // ---------------------------------------------------------------- numbers

  function Digits(t: Text): Text {
    if t != [] && IsDigit(t[0]) then Digits(t[1..]) else t
  }

  /** What is left of a number after its optional fraction and exponent. */
  function Exponent(t: Text): Text {
    if t == [] || (t[0] != 69 && t[0] != 101) then t
    else
      var u := if |t| > 1 && (t[1] == 43 || t[1] == 45) then t[2..] else t[1..];
      if u != [] && IsDigit(u[0]) then Digits(u) else t
  }

  function Fraction(t: Text): Text {
    if |t| > 1 && t[0] == 46 && IsDigit(t[1]) then Digits(t[1..]) else t
  }

  /** RFC 8259, section 6. */
  predicate NumberToken(t: Text) {
    && t != [] && (IsDigit(t[0]) || t[0] == 45) && (forall k :: 0 <= k < |t| ==> IsNumeric(t[k]))
    && var u := if t[0] == 45 then t[1..] else t;
       && u != [] && IsDigit(u[0])
       && Exponent(Fraction(if u[0] == 48 then u[1..] else Digits(u))) == []
  }

  // ---------------------------------------------------------------- printing

  function HexDigit(n: int): Unit
    requires 0 <= n < 16
  {
    if n < 10 then 48 + n else 87 + n
  }

  function Hex4(u: Unit): Text {
    [HexDigit(u / 4096), HexDigit(u / 256 % 16), HexDigit(u / 16 % 16), HexDigit(u % 16)]
  }

  /** One code unit inside a string literal. */
  function Escaped(u: Unit): Text {
    if u == QUOTE || u == BACKSLASH then [BACKSLASH, u]
    else if u == 8 then [BACKSLASH, 98]
    else if u == 9 then [BACKSLASH, 116]
    else if u == 10 then [BACKSLASH, 110]
    else if u == 12 then [BACKSLASH, 102]
    else if u == 13 then [BACKSLASH, 114]
    else if u < 32 || IsLead(u) || IsTrail(u) then [BACKSLASH, 117] + Hex4(u)
    else [u]
  }

  /** The inside of a string literal: surrogate pairs as they are, lone surrogates escaped. */
  function Quoted(s: Text): Text {
    if s == [] then []
    else if |s| > 1 && IsLead(s[0]) && IsTrail(s[1]) then [s[0], s[1]] + Quoted(s[2..])
    else Escaped(s[0]) + Quoted(s[1..])
  }

  function Literal(s: Text): Text { [QUOTE] + Quoted(s) + [QUOTE] }

  function Emit(v: Json): Text {
    match v
    case Null => NULL_TEXT
    case Bool(b) => if b then TRUE_TEXT else FALSE_TEXT
    case Number(token) => token
    case String(s) => Literal(s)
    case Array(End) => [91, 93]
    case Array(More(x, tail)) => [91] + Emit(x) + EmitItems(tail) + [93]
    case Object(Done) => [123, 125]
    case Object(Field(k, x, rest)) => [123] + Literal(k) + [COLON] + Emit(x) + EmitFields(rest) + [125]
  }

  /** The remaining items, each with the comma before it. */
  function EmitItems(items: Items): Text {
    match items case End => [] case More(x, tail) => [COMMA] + Emit(x) + EmitItems(tail)
  }

  function EmitFields(fields: Fields): Text {
    match fields case Done => [] case Field(k, x, rest) => [COMMA] + Literal(k) + [COLON] + Emit(x) + EmitFields(rest)
  }

  /** Lexicographic order on code units. */
  predicate Below(a: Text, b: Text) {
    b != [] && (a == [] || a[0] < b[0] || (a[0] == b[0] && Below(a[1..], b[1..])))
  }

  function Inserted(k: Text, x: Json, fields: Fields): Fields {
    match fields
    case Done => Field(k, x, Done)
    case Field(j, y, rest) => if Below(j, k) then Field(j, y, Inserted(k, x, rest)) else Field(k, x, fields)
  }

  /** The value with the members of every object sorted. */
  function Normal(v: Json): Json {
    match v
    case Array(items) => Array(NormalItems(items))
    case Object(fields) => Object(NormalFields(fields))
    case _ => v
  }

  function NormalItems(items: Items): Items {
    match items case End => End case More(x, tail) => More(Normal(x), NormalItems(tail))
  }

  function NormalFields(fields: Fields): Fields {
    match fields case Done => Done case Field(k, x, rest) => Inserted(k, Normal(x), NormalFields(rest))
  }

  function CanonicalSerialize(v: Json): Text { Emit(Normal(v)) }

  predicate Has(fields: Fields, k: Text) {
    match fields case Done => false case Field(j, _, rest) => j == k || Has(rest, k)
  }

  /** A value of the program: number tokens are numbers and no object has a key twice. */
  predicate Proper(v: Json) {
    match v
    case Number(token) => NumberToken(token)
    case Array(items) => ProperItems(items)
    case Object(fields) => ProperFields(fields)
    case _ => true
  }

  predicate ProperItems(items: Items) {
    match items case End => true case More(x, tail) => Proper(x) && ProperItems(tail)
  }

  predicate ProperFields(fields: Fields) {
    match fields case Done => true case Field(k, x, rest) => Proper(x) && !Has(rest, k) && ProperFields(rest)
  }

  // ---------------------------------------------------------------- parsing

  function SkipSpace(t: Text): (r: Text)
    ensures |r| <= |t|
  {
    if t != [] && IsSpace(t[0]) then SkipSpace(t[1..]) else t
  }

  function HexValue(u: Unit): Option<int> {
    if IsDigit(u) then Some(u - 48)
    else if 97 <= u <= 102 then Some(u - 87)
    else if 65 <= u <= 70 then Some(u - 55)
    else None
  }

  function ParseHex4(t: Text): Option<Unit> {
    if |t| < 4 then None
    else
      var a, b, c, d := HexValue(t[0]), HexValue(t[1]), HexValue(t[2]), HexValue(t[3]);
      if a.None? || b.None? || c.None? || d.None? then None
      else
        var u := a.value * 4096 + b.value * 256 + c.value * 16 + d.value;
        if 0 <= u < 0x1_0000 then Some(u) else None
  }

  function Unescaped(u: Unit): Option<Unit> {
    if u == QUOTE || u == BACKSLASH || u == 47 then Some(u)
    else if u == 98 then Some(8)
    else if u == 116 then Some(9)
    else if u == 110 then Some(10)
    else if u == 102 then Some(12)
    else if u == 114 then Some(13)
    else None
  }

  /** A string after its opening quote, up to and including its closing one. */
  function ParseChars(t: Text): (r: Option<(Text, Text)>)
    ensures r.Some? ==> |r.value.1| < |t|
  {
    if t == [] || t[0] < 32 then None
    else if t[0] == QUOTE then Some(([], t[1..]))
    else if t[0] != BACKSLASH then Prefixed(t[0], ParseChars(t[1..]))
    else if |t| < 2 then None
    else if t[1] == 117 then
      if ParseHex4(t[2..]).None? then None else Prefixed(ParseHex4(t[2..]).value, ParseChars(t[6..]))
    else if Unescaped(t[1]).None? then None
    else Prefixed(Unescaped(t[1]).value, ParseChars(t[2..]))
  }

  function Prefixed(u: Unit, r: Option<(Text, Text)>): Option<(Text, Text)> {
    if r.None? then None else Some(([u] + r.value.0, r.value.1))
  }

  function NumericRun(t: Text): (n: nat)
    ensures n <= |t|
  {
    if t == [] || !IsNumeric(t[0]) then 0 else 1 + NumericRun(t[1..])
  }

  /** One value and what follows it; `t` starts at the value. */
  function ParseValue(t: Text): (r: Option<(Json, Text)>)
    ensures r.Some? ==> |r.value.1| < |t|
    decreases |t|, 0
  {
    if t == [] then None
    else if NULL_TEXT <= t then Some((Null, t[4..]))
    else if TRUE_TEXT <= t then Some((Bool(true), t[4..]))
    else if FALSE_TEXT <= t then Some((Bool(false), t[5..]))
    else if t[0] == QUOTE then
      var s := ParseChars(t[1..]);
      if s.None? then None else Some((String(s.value.0), s.value.1))
    else if t[0] == 91 then
      var u := SkipSpace(t[1..]);
      if u != [] && u[0] == 93 then Some((Array(End), u[1..]))
      else var items := ParseItems(u); if items.None? then None else Some((Array(items.value.0), items.value.1))
    else if t[0] == 123 then
      var u := SkipSpace(t[1..]);
      if u != [] && u[0] == 125 then Some((Object(Done), u[1..]))
      else var fields := ParseFields(u); if fields.None? then None else Some((Object(fields.value.0), fields.value.1))
    else
      var n := NumericRun(t);
      if NumberToken(t[..n]) then Some((Number(t[..n]), t[n..])) else None
  }

  function ParseItems(t: Text): (r: Option<(Items, Text)>)
    ensures r.Some? ==> |r.value.1| < |t|
    decreases |t|, 1
  {
    var x := ParseValue(t);
    if x.None? then None
    else
      var u := SkipSpace(x.value.1);
      if u == [] then None
      else if u[0] == 93 then Some((More(x.value.0, End), u[1..]))
      else if u[0] != COMMA then None
      else
        var tail := ParseItems(SkipSpace(u[1..]));
        if tail.None? then None else Some((More(x.value.0, tail.value.0), tail.value.1))
  }

  /** Of two members with one key the later value counts. */
  function ParseFields(t: Text): (r: Option<(Fields, Text)>)
    ensures r.Some? ==> |r.value.1| < |t|
    decreases |t|, 1
  {
    if t == [] || t[0] != QUOTE then None
    else
      var k := ParseChars(t[1..]);
      if k.None? then None
      else
        var c := SkipSpace(k.value.1);
        if c == [] || c[0] != COLON then None
        else
          var x := ParseValue(SkipSpace(c[1..]));
          if x.None? then None
          else
            var u := SkipSpace(x.value.1);
            if u == [] then None
            else if u[0] == 125 then Some((Field(k.value.0, x.value.0, Done), u[1..]))
            else if u[0] != COMMA then None
            else
              var rest := ParseFields(SkipSpace(u[1..]));
              if rest.None? then None
              else Some((if Has(rest.value.0, k.value.0) then rest.value.0
                         else Field(k.value.0, x.value.0, rest.value.0), rest.value.1))
  }

  function Parse(t: Text): Option<Json> {
    var v := ParseValue(SkipSpace(t));
    if v.None? || SkipSpace(v.value.1) != [] then None else Some(v.value.0)
  }
}
