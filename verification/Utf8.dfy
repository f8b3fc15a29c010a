/** UTF-8 as the program uses it: encoding of UTF-16 text and strict decoding that keeps a byte order mark
    (section 3.9 of the Unicode Standard). */
module Utf8 {
  import opened Wrappers
  import opened Json

  type Byte = b: int | 0 <= b < 256

  type Bytes = seq<Byte>

  /** The bytes that chunks add up to. */
  function Joined(chunks: seq<Bytes>): Bytes {
    if chunks == [] then [] else Joined(chunks[..|chunks| - 1]) + chunks[|chunks| - 1]
  }

  /** No lone surrogate. */
  predicate WellFormed(t: Text) {
    if t == [] then true
    else if IsLead(t[0]) then |t| > 1 && IsTrail(t[1]) && WellFormed(t[2..])
    else !IsTrail(t[0]) && WellFormed(t[1..])
  }

  function PairValue(lead: Unit, trail: Unit): int { 0x1_0000 + (lead - 0xD800) * 1024 + (trail - 0xDC00) }

  function EncodeUnit(u: Unit): Bytes
    requires !IsLead(u) && !IsTrail(u)
  {
    if u < 0x80 then [u]
    else if u < 0x800 then [0xC0 + u / 64, 0x80 + u % 64]
    else [0xE0 + u / 4096, 0x80 + u / 64 % 64, 0x80 + u % 64]
  }

  function EncodePair(c: int): Bytes
    requires 0x1_0000 <= c < 0x11_0000
  {
    [0xF0 + c / 262144, 0x80 + c / 4096 % 64, 0x80 + c / 64 % 64, 0x80 + c % 64]
  }

  function Encode(t: Text): Bytes
    requires WellFormed(t)
  {
    if t == [] then []
    else if IsLead(t[0]) then EncodePair(PairValue(t[0], t[1])) + Encode(t[2..])
    else EncodeUnit(t[0]) + Encode(t[1..])
  }

  predicate Continues(b: Byte) { 0x80 <= b < 0xC0 }

  function Before(t: Text, r: Option<Text>): Option<Text> { if r.None? then None else Some(t + r.value) }

  /** Strict decoding: no stray or missing continuation byte, no overlong form, no surrogate, nothing past U+10FFFF. */
  function Decode(b: Bytes): Option<Text> {
    if b == [] then Some([])
    else if b[0] < 0x80 then Before([b[0]], Decode(b[1..]))
    else if b[0] < 0xC2 then None
    else if b[0] < 0xE0 then
      if |b| < 2 || !Continues(b[1]) then None
      else Before([(b[0] as int - 0xC0) * 64 + (b[1] as int - 0x80)], Decode(b[2..]))
    else if b[0] < 0xF0 then
      if |b| < 3 || !Continues(b[1]) || !Continues(b[2]) then None
      else
        var u := (b[0] as int - 0xE0) * 4096 + (b[1] as int - 0x80) * 64 + (b[2] as int - 0x80);
        if u < 0x800 || IsLead(u) || IsTrail(u) then None else Before([u], Decode(b[3..]))
    else if b[0] < 0xF5 then
      if |b| < 4 || !Continues(b[1]) || !Continues(b[2]) || !Continues(b[3]) then None
      else
        var c := (b[0] as int - 0xF0) * 262144 + (b[1] as int - 0x80) * 4096 + (b[2] as int - 0x80) * 64
          + (b[3] as int - 0x80);
        if c < 0x1_0000 || c >= 0x11_0000 then None
        else Before([0xD800 + (c - 0x1_0000) / 1024, 0xDC00 + (c - 0x1_0000) % 1024], Decode(b[4..]))
    else None
  }

  lemma UnitDecodes(u: Unit, rest: Bytes)
    requires !IsLead(u) && !IsTrail(u)
    ensures Decode(EncodeUnit(u) + rest) == Before([u], Decode(rest))
  {
    var b := EncodeUnit(u) + rest;
    if u < 0x80 { assert b[1..] == rest; }
    else if u < 0x800 { assert b[2..] == rest; assert u == u / 64 * 64 + u % 64; }
    else { assert b[3..] == rest; assert u == u / 4096 * 4096 + u / 64 % 64 * 64 + u % 64; }
  }

  lemma CodeSum(c: int)
    requires 0 <= c < 0x11_0000
    ensures c == c / 262144 * 262144 + c / 4096 % 64 * 4096 + c / 64 % 64 * 64 + c % 64
  {
  }

  lemma PairDecodes(lead: Unit, trail: Unit, rest: Bytes)
    requires IsLead(lead) && IsTrail(trail)
    ensures Decode(EncodePair(PairValue(lead, trail)) + rest) == Before([lead, trail], Decode(rest))
  {
    var c := PairValue(lead, trail);
    var b := EncodePair(c) + rest;
    assert b[4..] == rest;
    CodeSum(c);
    assert (c - 0x1_0000) / 1024 == lead - 0xD800 && (c - 0x1_0000) % 1024 == trail - 0xDC00;
  }

  lemma {:induction false} DecodesBack(t: Text)
    requires WellFormed(t)
    ensures Decode(Encode(t)) == Some(t)
  {
    if t == [] {
    } else if IsLead(t[0]) {
      DecodesBack(t[2..]);
      PairDecodes(t[0], t[1], Encode(t[2..]));
      assert t == [t[0], t[1]] + t[2..];
    } else {
      DecodesBack(t[1..]);
      UnitDecodes(t[0], Encode(t[1..]));
      assert t == [t[0]] + t[1..];
    }
  }

  lemma Radix(a: int, b: int, c: int, d: int)
    requires 0 <= a && 0 <= b < 64 && 0 <= c < 64 && 0 <= d < 64
    ensures var n := a * 262144 + b * 4096 + c * 64 + d;
            n / 262144 == a && n / 4096 % 64 == b && n / 64 % 64 == c && n % 64 == d && n / 4096 == a * 64 + b
  {
    var n := a * 262144 + b * 4096 + c * 64 + d;
    assert n / 262144 == a;
    assert n / 4096 == a * 64 + b;
    assert n / 64 == (a * 64 + b) * 64 + c;
  }

  lemma UnitBack(u: Unit, code: Bytes, rest: Text)
    requires !IsLead(u) && !IsTrail(u) && EncodeUnit(u) == code && WellFormed(rest)
    ensures WellFormed([u] + rest) && Encode([u] + rest) == code + Encode(rest)
  {
    assert ([u] + rest)[1..] == rest;
  }

  lemma PairBack(code: int, bytes: Bytes, rest: Text)
    requires 0x1_0000 <= code < 0x11_0000 && EncodePair(code) == bytes && WellFormed(rest)
    ensures var t := [0xD800 + (code - 0x1_0000) / 1024, 0xDC00 + (code - 0x1_0000) % 1024] + rest;
            WellFormed(t) && Encode(t) == bytes + Encode(rest)
  {
    var lead, trail := 0xD800 + (code - 0x1_0000) / 1024, 0xDC00 + (code - 0x1_0000) % 1024;
    assert ([lead, trail] + rest)[2..] == rest && PairValue(lead, trail) == code;
  }

  lemma ThreeBack(a: Byte, b: Byte, c: Byte, u: Unit)
    requires 0xE0 <= a < 0xF0 && Continues(b) && Continues(c) && 0x800 <= u && !IsLead(u) && !IsTrail(u)
    requires u == (a as int - 0xE0) * 4096 + (b as int - 0x80) * 64 + (c as int - 0x80)
    ensures EncodeUnit(u) == [a, b, c]
  {
    Radix(0, a as int - 0xE0, b as int - 0x80, c as int - 0x80);
    assert u / 4096 == a as int - 0xE0;
  }

  lemma FourBack(a: Byte, b: Byte, c: Byte, d: Byte, code: int)
    requires 0xF0 <= a < 0xF5 && Continues(b) && Continues(c) && Continues(d) && 0x1_0000 <= code < 0x11_0000
    requires code == (a as int - 0xF0) * 262144 + (b as int - 0x80) * 4096 + (c as int - 0x80) * 64 + (d as int - 0x80)
    ensures EncodePair(code) == [a, b, c, d]
  {
    Radix(a as int - 0xF0, b as int - 0x80, c as int - 0x80, d as int - 0x80);
  }

  ghost predicate Encodes(t: Text, b: Bytes) { WellFormed(t) && Encode(t) == b }

  lemma TwoCase(b: Bytes)
    requires |b| >= 2 && 0xC2 <= b[0] < 0xE0 && Decode(b).Some? && Encodes(Decode(b[2..]).value, b[2..])
    ensures Encodes(Decode(b).value, b)
  {
    UnitBack((b[0] as int - 0xC0) * 64 + (b[1] as int - 0x80), [b[0], b[1]], Decode(b[2..]).value);
    assert b == [b[0], b[1]] + b[2..];
  }

  lemma ThreeCase(b: Bytes)
    requires |b| >= 3 && 0xE0 <= b[0] < 0xF0 && Decode(b).Some? && Encodes(Decode(b[3..]).value, b[3..])
    ensures Encodes(Decode(b).value, b)
  {
    var u := (b[0] as int - 0xE0) * 4096 + (b[1] as int - 0x80) * 64 + (b[2] as int - 0x80);
    ThreeBack(b[0], b[1], b[2], u);
    UnitBack(u, [b[0], b[1], b[2]], Decode(b[3..]).value);
    assert b == [b[0], b[1], b[2]] + b[3..];
  }

  lemma FourCase(b: Bytes)
    requires |b| >= 4 && 0xF0 <= b[0] && Decode(b).Some? && Encodes(Decode(b[4..]).value, b[4..])
    ensures Encodes(Decode(b).value, b)
  {
    var code := (b[0] as int - 0xF0) * 262144 + (b[1] as int - 0x80) * 4096 + (b[2] as int - 0x80) * 64
      + (b[3] as int - 0x80);
    FourBack(b[0], b[1], b[2], b[3], code);
    PairBack(code, [b[0], b[1], b[2], b[3]], Decode(b[4..]).value);
    assert b == [b[0], b[1], b[2], b[3]] + b[4..];
  }

  /** And only encoded text is decoded: whatever decodes is the encoding of what it decodes to. */
  lemma {:induction false} EncodesBack(b: Bytes)
    requires Decode(b).Some?
    ensures WellFormed(Decode(b).value) && Encode(Decode(b).value) == b
  {
    if b == [] {
    } else if b[0] < 0x80 {
      EncodesBack(b[1..]);
      UnitBack(b[0], [b[0]], Decode(b[1..]).value);
    } else if b[0] < 0xE0 {
      EncodesBack(b[2..]);
      TwoCase(b);
    } else if b[0] < 0xF0 {
      EncodesBack(b[3..]);
      ThreeCase(b);
    } else {
      EncodesBack(b[4..]);
      FourCase(b);
    }
  }

  // ---------------------------------------------------------------- canonical text is well formed

  lemma {:induction false} WellFormedJoins(a: Text, b: Text)
    requires WellFormed(a) && WellFormed(b)
    ensures WellFormed(a + b)
  {
    if a == [] {
      assert a + b == b;
    } else if IsLead(a[0]) {
      WellFormedJoins(a[2..], b);
      assert (a + b)[2..] == a[2..] + b;
    } else {
      WellFormedJoins(a[1..], b);
      assert (a + b)[1..] == a[1..] + b;
    }
  }

  predicate Plain(t: Text) { forall k :: 0 <= k < |t| ==> !IsLead(t[k]) && !IsTrail(t[k]) }

  lemma {:induction false} PlainWellFormed(t: Text)
    requires Plain(t)
    ensures WellFormed(t)
  {
    if t != [] { PlainWellFormed(t[1..]); }
  }

  lemma {:induction false} QuotedWellFormed(s: Text)
    ensures WellFormed(Quoted(s))
  {
    if s == [] {
    } else if |s| > 1 && IsLead(s[0]) && IsTrail(s[1]) {
      QuotedWellFormed(s[2..]);
      assert Quoted(s)[2..] == Quoted(s[2..]);
    } else {
      QuotedWellFormed(s[1..]);
      PlainWellFormed(Escaped(s[0]));
      WellFormedJoins(Escaped(s[0]), Quoted(s[1..]));
    }
  }

  lemma Enclosed(open: Unit, t: Text, close: Unit)
    requires WellFormed(t) && Plain([open]) && Plain([close])
    ensures WellFormed([open] + t + [close])
  {
    PlainWellFormed([open]);
    PlainWellFormed([close]);
    WellFormedJoins([open], t);
    WellFormedJoins([open] + t, [close]);
  }

  lemma LiteralWellFormed(s: Text)
    ensures WellFormed(Literal(s))
  {
    QuotedWellFormed(s);
    Enclosed(QUOTE, Quoted(s), QUOTE);
  }

  lemma MemberWellFormed(open: Unit, k: Text, x: Text, rest: Text)
    requires WellFormed(x) && WellFormed(rest) && Plain([open])
    ensures WellFormed([open] + Literal(k) + [COLON] + x + rest)
  {
    PlainWellFormed([open]);
    PlainWellFormed([COLON]);
    LiteralWellFormed(k);
    WellFormedJoins([open], Literal(k));
    WellFormedJoins([open] + Literal(k), [COLON]);
    WellFormedJoins([open] + Literal(k) + [COLON], x);
    WellFormedJoins([open] + Literal(k) + [COLON] + x, rest);
  }

  lemma Closed(t: Text)
    requires WellFormed(t)
    ensures WellFormed(t + [125])
  {
    PlainWellFormed([125]);
    WellFormedJoins(t, [125]);
  }

  lemma ArrayWellFormed(x: Text, rest: Text)
    requires WellFormed(x) && WellFormed(rest)
    ensures WellFormed([91] + x + rest + [93])
  {
    WellFormedJoins(x, rest);
    Enclosed(91, x + rest, 93);
    assert [91] + x + rest + [93] == [91] + (x + rest) + [93];
  }

  lemma {:induction false} EmitWellFormed(v: Json)
    requires Proper(v)
    ensures WellFormed(Emit(v))
    decreases v
  {
    match v
    case Null => PlainWellFormed(NULL_TEXT);
    case Bool(b) => PlainWellFormed(if b then TRUE_TEXT else FALSE_TEXT);
    case Number(token) => PlainWellFormed(token);
    case String(s) => LiteralWellFormed(s);
    case Array(End) => PlainWellFormed([91, 93]);
    case Array(More(x, tail)) =>
      EmitWellFormed(x);
      ItemsWellFormed(tail);
      ArrayWellFormed(Emit(x), EmitItems(tail));
    case Object(Done) => PlainWellFormed([123, 125]);
    case Object(Field(k, x, rest)) =>
      EmitWellFormed(x);
      FieldsWellFormed(rest);
      MemberWellFormed(123, k, Emit(x), EmitFields(rest));
      Closed([123] + Literal(k) + [COLON] + Emit(x) + EmitFields(rest));
  }

  lemma {:induction false} ItemsWellFormed(items: Items)
    requires ProperItems(items)
    ensures WellFormed(EmitItems(items))
    decreases items
  {
    if items.More? {
      EmitWellFormed(items.head);
      ItemsWellFormed(items.tail);
      PlainWellFormed([COMMA]);
      WellFormedJoins([COMMA], Emit(items.head));
      WellFormedJoins([COMMA] + Emit(items.head), EmitItems(items.tail));
    }
  }

  lemma {:induction false} FieldsWellFormed(fields: Fields)
    requires ProperFields(fields)
    ensures WellFormed(EmitFields(fields))
    decreases fields
  {
    if fields.Field? {
      EmitWellFormed(fields.value);
      FieldsWellFormed(fields.rest);
      MemberWellFormed(COMMA, fields.key, Emit(fields.value), EmitFields(fields.rest));
    }
  }
}
