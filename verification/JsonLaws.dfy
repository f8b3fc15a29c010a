/** The parser undoes the canonical printer, and the printer forgets exactly the order of members. */
module JsonLaws {
  import opened Wrappers
  import opened Json

  // ---------------------------------------------------------------- strings

  lemma HexRead(n: int)
    requires 0 <= n < 16
    ensures HexValue(HexDigit(n)) == Some(n)
  {
  }

  lemma HexSum(u: Unit)
    ensures u == u / 4096 * 4096 + u / 256 % 16 * 256 + u / 16 % 16 * 16 + u % 16 && u / 4096 < 16
  {
  }

  lemma HexDigitsRead(a: int, b: int, c: int, d: int, t: Text)
    requires 0 <= a < 16 && 0 <= b < 16 && 0 <= c < 16 && 0 <= d < 16 && |t| >= 4
    requires t[0] == HexDigit(a) && t[1] == HexDigit(b) && t[2] == HexDigit(c) && t[3] == HexDigit(d)
    ensures ParseHex4(t) == Some(a * 4096 + b * 256 + c * 16 + d)
  {
    HexRead(a);
    HexRead(b);
    HexRead(c);
    HexRead(d);
  }

  lemma Hex4Read(u: Unit, rest: Text)
    ensures ParseHex4(Hex4(u) + rest) == Some(u)
  {
    HexSum(u);
    HexDigitsRead(u / 4096, u / 256 % 16, u / 16 % 16, u % 16, Hex4(u) + rest);
  }

  lemma EscapedRead(u: Unit, t: Text)
    ensures ParseChars(Escaped(u) + t) == Prefixed(u, ParseChars(t))
  {
    var e := Escaped(u);
    if |e| == 1 {
      assert (e + t)[1..] == t;
    } else if |e| == 2 {
      assert (e + t)[2..] == t;
    } else {
      assert e == [BACKSLASH, 117] + Hex4(u);
      assert (e + t)[2..] == Hex4(u) + t;
      assert (e + t)[6..] == t;
      Hex4Read(u, t);
    }
  }

  lemma Regroup(a: Text, b: Text, c: Text, d: Text)
    ensures a + b + c + d == a + (b + c + d)
  {
  }

  lemma PairShape(a: Unit, b: Unit, c: Text, d: Text, e: Text)
    ensures [a, b] + c + d + e == [a] + ([b] + (c + d + e))
  {
  }

  /** Reading a quoted string gives back the string and stops at its closing quote. */
  lemma {:induction false} QuotedRead(s: Text, rest: Text)
    ensures ParseChars(Quoted(s) + [QUOTE] + rest) == Some((s, rest))
  {
    if s == [] {
      assert ([QUOTE] + rest)[1..] == rest;
      assert Quoted(s) + [QUOTE] + rest == [QUOTE] + rest;
    } else if |s| > 1 && IsLead(s[0]) && IsTrail(s[1]) {
      QuotedRead(s[2..], rest);
      PairRead(s, Quoted(s[2..]) + [QUOTE] + rest, rest);
      PairShape(s[0], s[1], Quoted(s[2..]), [QUOTE], rest);
    } else {
      QuotedRead(s[1..], rest);
      UnitRead(s, Quoted(s[1..]) + [QUOTE] + rest, rest);
      Regroup(Escaped(s[0]), Quoted(s[1..]), [QUOTE], rest);
    }
  }

  lemma PairRead(s: Text, t: Text, rest: Text)
    requires |s| > 1 && IsLead(s[0]) && IsTrail(s[1]) && ParseChars(t) == Some((s[2..], rest))
    ensures ParseChars([s[0]] + ([s[1]] + t)) == Some((s, rest))
  {
    PlainRead(s[1], t);
    PlainRead(s[0], [s[1]] + t);
    assert [s[0]] + ([s[1]] + s[2..]) == s;
  }

  lemma UnitRead(s: Text, t: Text, rest: Text)
    requires s != [] && ParseChars(t) == Some((s[1..], rest))
    ensures ParseChars(Escaped(s[0]) + t) == Some((s, rest))
  {
    EscapedRead(s[0], t);
    assert [s[0]] + s[1..] == s;
  }

  lemma PlainRead(u: Unit, t: Text)
    requires u >= 32 && u != QUOTE && u != BACKSLASH
    ensures ParseChars([u] + t) == Prefixed(u, ParseChars(t))
  {
    assert ([u] + t)[1..] == t;
  }

  lemma LiteralRead(s: Text, rest: Text)
    ensures Literal(s) + rest == [QUOTE] + (Quoted(s) + [QUOTE] + rest)
    ensures ParseChars((Literal(s) + rest)[1..]) == Some((s, rest))
  {
    QuotedRead(s, rest);
    assert Literal(s) + rest == [QUOTE] + (Quoted(s) + [QUOTE] + rest);
  }

  // ---------------------------------------------------------------- values

  /** What may follow a number. */
  predicate Stops(rest: Text) { rest == [] || !IsNumeric(rest[0]) }

  lemma {:induction false} NumericRunIs(t: Text, rest: Text)
    requires (forall k :: 0 <= k < |t| ==> IsNumeric(t[k])) && Stops(rest)
    ensures NumericRun(t + rest) == |t|
  {
    if t == [] {
      assert t + rest == rest;
    } else {
      assert (t + rest)[1..] == t[1..] + rest;
      NumericRunIs(t[1..], rest);
    }
  }

  lemma NumberRead(token: Text, rest: Text)
    requires NumberToken(token) && Stops(rest)
    ensures ParseValue(token + rest) == Some((Number(token), rest))
  {
    NumericRunIs(token, rest);
    assert (token + rest)[..|token|] == token && (token + rest)[|token|..] == rest;
    assert (token + rest)[0] == token[0];
  }

  lemma WordRead(word: Text, rest: Text)
    requires word == NULL_TEXT || word == TRUE_TEXT || word == FALSE_TEXT
    ensures ParseValue(word + rest) ==
            Some((if word == NULL_TEXT then Null else if word == TRUE_TEXT then Bool(true) else Bool(false), rest))
  {
    var t := word + rest;
    assert word <= t && t[|word|..] == rest && t[0] == word[0];
  }

  /** A value starts with no space and no closing bracket. */
  lemma Starts(v: Json, rest: Text)
    requires Proper(v)
    ensures Emit(v) != [] && !IsSpace(Emit(v)[0]) && Emit(v)[0] != 93 && Emit(v)[0] != 125
    ensures SkipSpace(Emit(v) + rest) == Emit(v) + rest
  {
  }

  lemma StringRead(s: Text, rest: Text)
    ensures ParseValue(Literal(s) + rest) == Some((String(s), rest))
  {
    LiteralRead(s, rest);
    var t := Literal(s) + rest;
    assert t[0] == QUOTE;
    assert NULL_TEXT[0] != t[0] && TRUE_TEXT[0] != t[0] && FALSE_TEXT[0] != t[0];
  }

  lemma EmptyRead(rest: Text)
    ensures ParseValue([91, 93] + rest) == Some((Array(End), rest))
    ensures ParseValue([123, 125] + rest) == Some((Object(Done), rest))
  {
    assert ([91, 93] + rest)[1..] == [93] + rest && ([93] + rest)[1..] == rest;
    assert ([123, 125] + rest)[1..] == [125] + rest && ([125] + rest)[1..] == rest;
  }

  lemma Assoc(a: Text, b: Text, c: Text, d: Text, rest: Text)
    ensures a + b + c + d + rest == a + (b + (c + d + rest))
  {
  }

  lemma {:induction false} ValueRead(v: Json, rest: Text)
    requires Proper(v) && Stops(rest)
    ensures ParseValue(Emit(v) + rest) == Some((v, rest))
    decreases v, 1
  {
    match v
    case Null => WordRead(NULL_TEXT, rest);
    case Bool(b) => WordRead(if b then TRUE_TEXT else FALSE_TEXT, rest);
    case Number(token) => NumberRead(token, rest);
    case String(s) => StringRead(s, rest);
    case Array(End) => EmptyRead(rest);
    case Array(More(x, tail)) => ArrayRead(v.items, rest);
    case Object(Done) => EmptyRead(rest);
    case Object(Field(k, x, more)) => ObjectRead(v.fields, rest);
  }

  lemma ArrayRead(items: Items, rest: Text)
    requires items.More? && ProperItems(items)
    ensures ParseValue(Emit(Array(items)) + rest) == Some((Array(items), rest))
    decreases items, 2
  {
    var after := EmitItems(items.tail) + [93] + rest;
    Assoc([91], Emit(items.head), EmitItems(items.tail), [93], rest);
    ItemsRead(items, rest);
    Starts(items.head, after);
    OpenArray(Emit(items.head) + after, items, rest);
  }

  lemma ObjectRead(fields: Fields, rest: Text)
    requires fields.Field? && ProperFields(fields)
    ensures ParseValue(Emit(Object(fields)) + rest) == Some((Object(fields), rest))
    decreases fields, 2
  {
    FieldsRead(fields, rest);
    MemberShape([123], Literal(fields.key), Emit(fields.value), EmitFields(fields.rest), [125], rest);
    OpenObject(FieldText(fields, rest), fields, rest);
  }

  lemma OpenArray(t: Text, items: Items, rest: Text)
    requires t != [] && !IsSpace(t[0]) && t[0] != 93 && ParseItems(t) == Some((items, rest))
    ensures ParseValue([91] + t) == Some((Array(items), rest))
  {
    assert ([91] + t)[1..] == t;
  }

  lemma OpenObject(t: Text, fields: Fields, rest: Text)
    requires t != [] && t[0] == QUOTE && ParseFields(t) == Some((fields, rest))
    ensures ParseValue([123] + t) == Some((Object(fields), rest))
  {
    assert ([123] + t)[1..] == t;
  }

  lemma LastItem(t: Text, x: Json, rest: Text)
    requires ParseValue(t) == Some((x, [93] + rest))
    ensures ParseItems(t) == Some((More(x, End), rest))
  {
    assert ([93] + rest)[1..] == rest;
  }

  lemma NextItem(t: Text, x: Json, u: Text, tail: Items, rest: Text)
    requires ParseValue(t) == Some((x, [COMMA] + u)) && SkipSpace(u) == u && ParseItems(u) == Some((tail, rest))
    ensures ParseItems(t) == Some((More(x, tail), rest))
  {
    assert ([COMMA] + u)[1..] == u;
  }

  lemma {:induction false} ItemsRead(items: Items, rest: Text)
    requires items.More? && ProperItems(items)
    ensures ParseItems(Emit(items.head) + (EmitItems(items.tail) + [93] + rest)) == Some((items, rest))
    decreases items, 1
  {
    var x, tail := items.head, items.tail;
    var after := EmitItems(tail) + [93] + rest;
    if tail.End? {
      assert after == [93] + rest;
      ValueRead(x, after);
      LastItem(Emit(x) + after, x, rest);
    } else {
      var u := Emit(tail.head) + (EmitItems(tail.tail) + [93] + rest);
      Assoc([COMMA], Emit(tail.head), EmitItems(tail.tail), [93], rest);
      assert after == [COMMA] + u;
      ValueRead(x, after);
      ItemsRead(tail, rest);
      Starts(tail.head, EmitItems(tail.tail) + [93] + rest);
      NextItem(Emit(x) + after, x, u, tail, rest);
    }
  }

  /** The members from the first one to the closing bracket and on. */
  function FieldText(fields: Fields, rest: Text): Text
    requires fields.Field?
  {
    Literal(fields.key) + ([COLON] + (Emit(fields.value) + (EmitFields(fields.rest) + [125] + rest)))
  }

  /** Reading a key and its colon leaves the value. */
  lemma KeyRead(k: Text, t: Text)
    requires SkipSpace(t) == t
    ensures var u := Literal(k) + ([COLON] + t);
            u[0] == QUOTE && ParseChars(u[1..]) == Some((k, [COLON] + t)) && SkipSpace([COLON] + t) == [COLON] + t
            && SkipSpace(([COLON] + t)[1..]) == t
  {
    LiteralRead(k, [COLON] + t);
    assert ([COLON] + t)[1..] == t;
  }

  lemma LastField(k: Text, x: Json, t: Text, rest: Text)
    requires SkipSpace(t) == t && ParseValue(t) == Some((x, [125] + rest))
    ensures ParseFields(Literal(k) + ([COLON] + t)) == Some((Field(k, x, Done), rest))
  {
    KeyRead(k, t);
    assert ([125] + rest)[1..] == rest;
  }

  lemma NextField(k: Text, x: Json, t: Text, u: Text, more: Fields, rest: Text)
    requires SkipSpace(t) == t && ParseValue(t) == Some((x, [COMMA] + u)) && SkipSpace(u) == u
    requires ParseFields(u) == Some((more, rest)) && !Has(more, k)
    ensures ParseFields(Literal(k) + ([COLON] + t)) == Some((Field(k, x, more), rest))
  {
    KeyRead(k, t);
    assert ([COMMA] + u)[1..] == u;
  }

  lemma MemberShape(open: Text, k: Text, x: Text, more: Text, close: Text, rest: Text)
    ensures open + k + [COLON] + x + more + close + rest == open + (k + ([COLON] + (x + (more + close + rest))))
  {
  }

  lemma FieldsSplit(more: Fields, rest: Text)
    requires more.Field?
    ensures EmitFields(more) + [125] + rest == [COMMA] + FieldText(more, rest)
            && SkipSpace(FieldText(more, rest)) == FieldText(more, rest)
  {
    MemberShape([COMMA], Literal(more.key), Emit(more.value), EmitFields(more.rest), [125], rest);
    assert FieldText(more, rest)[0] == QUOTE;
  }

  lemma {:induction false} FieldsRead(fields: Fields, rest: Text)
    requires fields.Field? && ProperFields(fields)
    ensures ParseFields(FieldText(fields, rest)) == Some((fields, rest)) && FieldText(fields, rest)[0] == QUOTE
    decreases fields, 1
  {
    var k, x, more := fields.key, fields.value, fields.rest;
    var after := EmitFields(more) + [125] + rest;
    Starts(x, after);
    if more.Done? {
      assert after == [125] + rest;
      ValueRead(x, after);
      LastField(k, x, Emit(x) + after, rest);
    } else {
      FieldsSplit(more, rest);
      ValueRead(x, after);
      FieldsRead(more, rest);
      NextField(k, x, Emit(x) + after, FieldText(more, rest), more, rest);
    }
  }

  // ---------------------------------------------------------------- sorting members

  lemma {:induction false} BelowOrders(a: Text, b: Text)
    ensures !(Below(a, b) && Below(b, a)) && (Below(a, b) || a == b || Below(b, a))
    ensures a == b ==> !Below(a, b)
  {
    if a != [] && b != [] {
      BelowOrders(a[1..], b[1..]);
      assert a == [a[0]] + a[1..] && b == [b[0]] + b[1..];
    }
  }

  lemma {:induction false} BelowTransitive(a: Text, b: Text, c: Text)
    requires Below(a, b) && Below(b, c)
    ensures Below(a, c)
  {
    if a != [] && a[0] == b[0] == c[0] { BelowTransitive(a[1..], b[1..], c[1..]); }
  }

  function Get(fields: Fields, k: Text): Json
    requires Has(fields, k)
  {
    if fields.key == k then fields.value else Get(fields.rest, k)
  }

  function Size(fields: Fields): nat {
    match fields case Done => 0 case Field(_, _, rest) => 1 + Size(rest)
  }

  /** Strictly ascending keys. */
  predicate Ascending(fields: Fields) {
    fields.Field? && fields.rest.Field? ==> Below(fields.key, fields.rest.key) && Ascending(fields.rest)
  }

  lemma {:induction false} AboveFirst(fields: Fields, k: Text)
    requires Ascending(fields) && fields.Field? && Has(fields.rest, k)
    ensures Below(fields.key, k)
  {
    if fields.rest.key != k {
      AboveFirst(fields.rest, k);
      BelowTransitive(fields.key, fields.rest.key, k);
    }
  }

  lemma {:induction false} InsertedHas(k: Text, x: Json, fields: Fields, j: Text)
    ensures Has(Inserted(k, x, fields), j) <==> j == k || Has(fields, j)
    ensures Has(Inserted(k, x, fields), j) ==> Get(Inserted(k, x, fields), j) == if j == k then x else Get(fields, j)
    ensures Size(Inserted(k, x, fields)) == Size(fields) + 1
  {
    if fields.Field? && Below(fields.key, k) {
      BelowOrders(fields.key, k);
      InsertedHas(k, x, fields.rest, j);
    }
  }

  lemma {:induction false} InsertedAscends(k: Text, x: Json, fields: Fields)
    requires Ascending(fields) && !Has(fields, k)
    ensures Ascending(Inserted(k, x, fields))
  {
    if fields.Field? {
      BelowOrders(fields.key, k);
      if Below(fields.key, k) { InsertedAscends(k, x, fields.rest); }
    }
  }

  lemma {:induction false} NormalHas(fields: Fields, k: Text)
    ensures Has(NormalFields(fields), k) <==> Has(fields, k)
    ensures Has(fields, k) ==> Get(NormalFields(fields), k) == Normal(Get(fields, k))
    ensures Size(NormalFields(fields)) == Size(fields)
  {
    if fields.Field? {
      InsertedHas(fields.key, Normal(fields.value), NormalFields(fields.rest), k);
      NormalHas(fields.rest, k);
    }
  }

  lemma {:induction false} NormalAscends(fields: Fields)
    requires ProperFields(fields)
    ensures Ascending(NormalFields(fields))
  {
    if fields.Field? {
      NormalAscends(fields.rest);
      NormalHas(fields.rest, fields.key);
      InsertedAscends(fields.key, Normal(fields.value), NormalFields(fields.rest));
    }
  }

  lemma {:induction false} InsertedProper(k: Text, x: Json, fields: Fields)
    requires Proper(x) && ProperFields(fields) && !Has(fields, k)
    ensures ProperFields(Inserted(k, x, fields))
  {
    if fields.Field? && Below(fields.key, k) {
      InsertedProper(k, x, fields.rest);
      InsertedHas(k, x, fields.rest, fields.key);
    }
  }

  lemma {:induction false} NormalProper(v: Json)
    requires Proper(v)
    ensures Proper(Normal(v))
    decreases v
  {
    if v.Array? { NormalItemsProper(v.items); }
    if v.Object? { NormalFieldsProper(v.fields); }
  }

  lemma {:induction false} NormalItemsProper(items: Items)
    requires ProperItems(items)
    ensures ProperItems(NormalItems(items))
    decreases items
  {
    if items.More? {
      NormalProper(items.head);
      NormalItemsProper(items.tail);
    }
  }

  lemma {:induction false} NormalFieldsProper(fields: Fields)
    requires ProperFields(fields)
    ensures ProperFields(NormalFields(fields))
    decreases fields
  {
    if fields.Field? {
      NormalProper(fields.value);
      NormalFieldsProper(fields.rest);
      NormalHas(fields.rest, fields.key);
      InsertedProper(fields.key, Normal(fields.value), NormalFields(fields.rest));
    }
  }

  /** Parsing canonical text gives back the value, its members sorted. */
  lemma RoundTrip(v: Json)
    requires Proper(v)
    ensures Parse(CanonicalSerialize(v)) == Some(Normal(v))
  {
    NormalProper(v);
    var t := CanonicalSerialize(v);
    ValueRead(Normal(v), []);
    Starts(Normal(v), []);
    assert t + [] == t;
  }

  // ---------------------------------------------------------------- equality up to the order of members

  /** The same value as the program sees it: members are looked up by key. */
  predicate Same(v: Json, w: Json) {
    match v
    case Array(items) => w.Array? && SameItems(items, w.items)
    case Object(fields) => w.Object? && Size(fields) == Size(w.fields) && Found(fields, w.fields)
    case _ => v == w
  }

  predicate SameItems(items: Items, others: Items) {
    match items
    case End => others.End?
    case More(x, tail) => others.More? && Same(x, others.head) && SameItems(tail, others.tail)
  }

  predicate Found(fields: Fields, others: Fields) {
    match fields
    case Done => true
    case Field(k, x, rest) => Has(others, k) && Same(x, Get(others, k)) && Found(rest, others)
  }

  predicate Within(fields: Fields, others: Fields) {
    match fields
    case Done => true
    case Field(k, x, rest) => Has(others, k) && Get(others, k) == x && Within(rest, others)
  }

  /** Members all above the first of the others are found past it. */
  lemma {:induction false} WithinRest(fields: Fields, others: Fields)
    requires Within(fields, others) && others.Field? && !Has(fields, others.key)
    ensures Within(fields, others.rest)
  {
    if fields.Field? { WithinRest(fields.rest, others); }
  }

  /** Two ascending lists, one within the other and as long, are equal. */
  lemma {:induction false} AscendingUnique(a: Fields, b: Fields)
    requires Ascending(a) && Ascending(b) && Within(a, b)
    ensures Size(a) <= Size(b) && (Size(a) == Size(b) ==> a == b)
    decreases b
  {
    if a.Field? && a.key == b.key {
      NotAgain(a);
      WithinRest(a.rest, b);
      AscendingUnique(a.rest, b.rest);
    } else if a.Field? {
      AboveFirst(b, a.key);
      NotBelow(a, b.key);
      WithinRest(a, b);
      AscendingUnique(a, b.rest);
    }
  }

  lemma NotAgain(a: Fields)
    requires Ascending(a) && a.Field?
    ensures !Has(a.rest, a.key)
  {
    BelowOrders(a.key, a.key);
    if Has(a.rest, a.key) { AboveFirst(a, a.key); }
  }

  lemma NotBelow(a: Fields, k: Text)
    requires Ascending(a) && a.Field? && Below(k, a.key)
    ensures !Has(a, k)
  {
    BelowOrders(k, a.key);
    if Has(a.rest, k) { AboveFirst(a, k); }
  }

  lemma {:induction false} SameNormal(v: Json, w: Json)
    requires Proper(v) && Proper(w) && Same(v, w)
    ensures Normal(v) == Normal(w)
    decreases v
  {
    if v.Array? { SameNormalItems(v.items, w.items); }
    if v.Object? {
      FoundWithin(v.fields, w.fields);
      NormalAscends(v.fields);
      NormalAscends(w.fields);
      NormalHas(v.fields, []);
      NormalHas(w.fields, []);
      AscendingUnique(NormalFields(v.fields), NormalFields(w.fields));
    }
  }

  lemma {:induction false} SameNormalItems(items: Items, others: Items)
    requires ProperItems(items) && ProperItems(others) && SameItems(items, others)
    ensures NormalItems(items) == NormalItems(others)
    decreases items
  {
    if items.More? {
      SameNormal(items.head, others.head);
      SameNormalItems(items.tail, others.tail);
    }
  }

  lemma {:induction false} GetProper(fields: Fields, k: Text)
    requires ProperFields(fields) && Has(fields, k)
    ensures Proper(Get(fields, k))
  {
    if fields.key != k { GetProper(fields.rest, k); }
  }

  lemma {:induction false} InsertedWithin(k: Text, x: Json, fields: Fields, others: Fields)
    requires Within(fields, others) && Has(others, k) && Get(others, k) == x
    ensures Within(Inserted(k, x, fields), others)
  {
    if fields.Field? && Below(fields.key, k) { InsertedWithin(k, x, fields.rest, others); }
  }

  lemma {:induction false} FoundWithin(fields: Fields, others: Fields)
    requires ProperFields(fields) && ProperFields(others) && Found(fields, others)
    ensures Within(NormalFields(fields), NormalFields(others))
    decreases fields
  {
    if fields.Field? {
      GetProper(others, fields.key);
      SameNormal(fields.value, Get(others, fields.key));
      FoundWithin(fields.rest, others);
      NormalHas(others, fields.key);
      InsertedWithin(fields.key, Normal(fields.value), NormalFields(fields.rest), NormalFields(others));
    }
  }

  lemma {:induction false} NormalSame(v: Json, w: Json)
    requires Proper(v) && Proper(w) && Normal(v) == Normal(w)
    ensures Same(v, w)
    decreases v
  {
    if v.Array? { NormalSameItems(v.items, w.items); }
    if v.Object? {
      NormalHas(v.fields, []);
      NormalHas(w.fields, []);
      forall k | Has(v.fields, k)
        ensures Has(NormalFields(w.fields), k) && Get(NormalFields(w.fields), k) == Normal(Get(v.fields, k))
      {
        NormalHas(v.fields, k);
      }
      WithinFound(v.fields, w.fields);
    }
  }

  lemma {:induction false} NormalSameItems(items: Items, others: Items)
    requires ProperItems(items) && ProperItems(others) && NormalItems(items) == NormalItems(others)
    ensures SameItems(items, others)
    decreases items
  {
    if items.More? {
      NormalSame(items.head, others.head);
      NormalSameItems(items.tail, others.tail);
    }
  }

  lemma {:induction false} WithinFound(part: Fields, others: Fields)
    requires ProperFields(part) && ProperFields(others)
    requires forall k :: Has(part, k) ==>
               Has(NormalFields(others), k) && Get(NormalFields(others), k) == Normal(Get(part, k))
    ensures Found(part, others)
    decreases part
  {
    if part.Field? {
      var k := part.key;
      assert Has(part, k);
      NormalHas(others, k);
      GetProper(others, k);
      NormalSame(part.value, Get(others, k));
      forall j | Has(part.rest, j)
        ensures Has(NormalFields(others), j) && Get(NormalFields(others), j) == Normal(Get(part.rest, j))
      {
        assert Has(part, j);
      }
      WithinFound(part.rest, others);
    }
  }

  /** Sorting members does not change a value. */
  lemma {:induction false} NormalIsSame(v: Json)
    requires Proper(v)
    ensures Same(v, Normal(v))
    decreases v
  {
    if v.Array? { NormalItemsSame(v.items); }
    if v.Object? {
      NormalHas(v.fields, []);
      FoundInNormal(v.fields, v.fields);
    }
  }

  lemma {:induction false} NormalItemsSame(items: Items)
    requires ProperItems(items)
    ensures SameItems(items, NormalItems(items))
    decreases items
  {
    if items.More? {
      NormalIsSame(items.head);
      NormalItemsSame(items.tail);
    }
  }

  lemma {:induction false} FoundInNormal(part: Fields, whole: Fields)
    requires ProperFields(part) && forall k :: Has(part, k) ==> Has(whole, k) && Get(whole, k) == Get(part, k)
    ensures Found(part, NormalFields(whole))
    decreases part
  {
    if part.Field? {
      assert Has(part, part.key);
      NormalHas(whole, part.key);
      NormalIsSame(part.value);
      forall k | Has(part.rest, k) ensures Has(whole, k) && Get(whole, k) == Get(part.rest, k) { assert Has(part, k); }
      FoundInNormal(part.rest, whole);
    }
  }

  /** Canonical text is the same for two values exactly when they are the same up to the order of members: it depends
      on no member order, and it loses nothing else. */
  lemma SerializesSame(v: Json, w: Json)
    requires Proper(v) && Proper(w)
    ensures CanonicalSerialize(v) == CanonicalSerialize(w) <==> Same(v, w)
  {
    if Same(v, w) { SameNormal(v, w); }
    if CanonicalSerialize(v) == CanonicalSerialize(w) {
      RoundTrip(v);
      RoundTrip(w);
      NormalSame(v, w);
    }
  }
}
