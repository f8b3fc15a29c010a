/** The event-stream reader: a subset of section 9.2 of the WHATWG HTML Standard, read from byte chunks cut anywhere. */
module EventStream {
  import opened Wrappers
  import opened Json
  import opened JsonLaws
  import opened Utf8

  const CR: Unit := 13
  const LF: Unit := 10

  /** A streaming text decoder: any automaton over bytes, with what it emits when the stream ends. */
  datatype TextDecoder<!S> = TextDecoder(start: S, step: (S, Byte) -> (S, Text), finish: S -> Text)

  function Fed<S>(d: TextDecoder<S>, s: S, b: Bytes): (S, Text) {
    if b == [] then (s, [])
    else
      var (s', t) := Fed(d, s, b[..|b| - 1]);
      var (s'', u) := d.step(s', b[|b| - 1]);
      (s'', t + u)
  }

  function Ascii(s: string): Text {
    seq(|s|, i requires 0 <= i < |s| => if s[i] as int < 0x1_0000 then s[i] as int else 0)
  }

  // ---------------------------------------------------------------- blocks

  /** The length of a blank-line match starting at `i`: a line end, then another. */
  function LineEnd(t: Text, i: nat): nat
    requires i <= |t|
  {
    if i < |t| && t[i] == LF then 1
    else if i + 1 < |t| && t[i] == CR && t[i + 1] == LF then 2
    else 0
  }

  function MatchAt(t: Text, i: nat): (n: nat)
    requires i <= |t|
    ensures i + n <= |t| && (n > 0 ==> 2 <= n <= 4)
  {
    var a := LineEnd(t, i);
    var b := LineEnd(t, i + a);
    if a > 0 && b > 0 then a + b else 0
  }

  /** The leftmost match from `i` on, or the end of the text. */
  function Leftmost(t: Text, i: nat): (k: nat)
    requires i <= |t|
    ensures i <= k <= |t| && forall j :: i <= j < k ==> MatchAt(t, j) == 0
    ensures k < |t| ==> MatchAt(t, k) > 0
    decreases |t| - i
  {
    if i == |t| || MatchAt(t, i) > 0 then i else Leftmost(t, i + 1)
  }

  lemma {:induction false} LeftmostIs(t: Text, i: nat, k: nat)
    requires i <= k < |t| && (forall j :: i <= j < k ==> MatchAt(t, j) == 0) && MatchAt(t, k) > 0
    ensures Leftmost(t, i) == k
    decreases k - i
  {
    if i < k { LeftmostIs(t, i + 1, k); }
  }

  /** A match stays where it is, and stays the leftmost one, in every extension of the text. */
  lemma LeftmostStays(a: Text, b: Text)
    requires Leftmost(a, 0) < |a|
    ensures Leftmost(a + b, 0) == Leftmost(a, 0) && MatchAt(a + b, Leftmost(a, 0)) == MatchAt(a, Leftmost(a, 0))
  {
    var k := Leftmost(a, 0);
    SameMatch(a, b, k);
    forall j | 0 <= j < k ensures MatchAt(a + b, j) == 0 { NoNewMatch(a, b, j, k); }
    LeftmostIs(a + b, 0, k);
  }

  lemma SameMatch(a: Text, b: Text, k: nat)
    requires k < |a| && MatchAt(a, k) > 0
    ensures MatchAt(a + b, k) == MatchAt(a, k)
  {
    assert forall i :: 0 <= i < |a| ==> (a + b)[i] == a[i];
  }

  /** No match appears before an existing one: it would have to end past the text, and then it would be that one. */
  lemma NoNewMatch(a: Text, b: Text, j: nat, k: nat)
    requires j < k < |a| && MatchAt(a, k) > 0 && MatchAt(a, j) == 0
    ensures MatchAt(a + b, j) == 0
  {
    assert forall i :: 0 <= i < |a| ==> (a + b)[i] == a[i];
  }

  // ---------------------------------------------------------------- events

  predicate Trimmed(u: Unit) {
    9 <= u <= 13 || u == 32 || u == 0xA0 || u == 0x1680 || 0x2000 <= u <= 0x200A || u == 0x2028 || u == 0x2029
    || u == 0x202F || u == 0x205F || u == 0x3000 || u == 0xFEFF
  }

  function TrimStart(t: Text): Text { if t != [] && Trimmed(t[0]) then TrimStart(t[1..]) else t }

  function Trim(t: Text): Text {
    var u := TrimStart(t);
    if u != [] && Trimmed(u[|u| - 1]) then TrimEnd(u) else u
  }

  function TrimEnd(t: Text): Text { if t != [] && Trimmed(t[|t| - 1]) then TrimEnd(t[..|t| - 1]) else t }

  function FirstLine(t: Text): (n: nat)
    ensures n <= |t|
  {
    if t == [] || t[0] == LF then 0 else 1 + FirstLine(t[1..])
  }

  /** The data lines of a block, each trimmed, joined. */
  function DataOf(block: Text): Text
    decreases |block|
  {
    var n := FirstLine(block);
    var line := block[..n];
    var data := if Ascii("data:") <= line then Trim(line[|Ascii("data:")|..]) else [];
    data + (if n < |block| then DataOf(block[n + 1..]) else [])
  }

  function Utf8Length(t: Text): nat {
    if t == [] then 0
    else if |t| > 1 && IsLead(t[0]) && IsTrail(t[1]) then 4 + Utf8Length(t[2..])
    else (if t[0] < 0x80 then 1 else if t[0] < 0x800 then 2 else 3) + Utf8Length(t[1..])
  }

  datatype Event = Nothing | Delta(text: Text) | Completed | Passed | Unusable

  predicate Qualified(name: Text) {
    name in [Ascii("response.created"), Ascii("response.in_progress"), Ascii("response.output_item.added"),
             Ascii("response.output_item.done"), Ascii("response.content_part.added"),
             Ascii("response.content_part.done"), Ascii("response.output_text.done")]
  }

  function EventOf(block: Text): Event {
    var data := DataOf(block);
    if data == [] || data == Ascii("[DONE]") then Nothing
    else
      var parsed := Parse(data);
      if parsed.None? || !parsed.value.Object? || !Has(parsed.value.fields, Ascii("type"))
         || !Get(parsed.value.fields, Ascii("type")).String? then Unusable
      else
        var name := Get(parsed.value.fields, Ascii("type")).text;
        if name == Ascii("response.output_text.delta") then
          if Has(parsed.value.fields, Ascii("delta")) && Get(parsed.value.fields, Ascii("delta")).String?
          then Delta(Get(parsed.value.fields, Ascii("delta")).text) else Unusable
        else if name == Ascii("response.completed") then Completed
        else if Qualified(name) then Passed
        else Unusable
  }

  datatype Reading = Reading(output: Text, completed: bool)

  /** A bound on bytes, and what a block means. */
  datatype Profile = Profile(max: nat, interpret: Text -> Event)

  /** Consuming a block; None is a thrown error. */
  function Consume(r: Reading, block: Text, p: Profile): Option<Reading> {
    match p.interpret(block)
    case Nothing => Some(r)
    case Delta(text) => if Utf8Length(r.output + text) > p.max then None else Some(r.(output := r.output + text))
    case Completed => Some(r.(completed := true))
    case Passed => Some(r)
    case Unusable => None
  }

  // ---------------------------------------------------------------- the whole stream

  /** Consuming every complete block of a text; the rest stays in the buffer. */
  function Drain(r: Reading, t: Text, p: Profile): Option<(Reading, Text)>
    decreases |t|
  {
    var k := Leftmost(t, 0);
    if k == |t| then Some((r, t))
    else
      var next := Consume(r, t[..k], p);
      if next.None? then None else Drain(next.value, t[k + MatchAt(t, k)..], p)
  }

  function Resume(drained: Option<(Reading, Text)>, more: Text, p: Profile): Option<(Reading, Text)> {
    if drained.None? then None else Drain(drained.value.0, drained.value.1 + more, p)
  }

  lemma DrainStep(r: Reading, t: Text, k: nat, end: nat, p: Profile)
    requires k == Leftmost(t, 0) < |t| && end == k + MatchAt(t, k)
    ensures Drain(r, t, p) == if Consume(r, t[..k], p).None? then None
                              else Drain(Consume(r, t[..k], p).value, t[end..], p)
  {
  }

  /** Draining a text in two parts is draining it at once. */
  lemma {:induction false} DrainAppends(r: Reading, a: Text, b: Text, p: Profile)
    ensures Drain(r, a + b, p) == Resume(Drain(r, a, p), b, p)
    decreases |a|
  {
    var k := Leftmost(a, 0);
    if k < |a| {
      LeftmostStays(a, b);
      var end := k + MatchAt(a, k);
      DrainStep(r, a, k, end, p);
      DrainStep(r, a + b, k, end, p);
      assert (a + b)[..k] == a[..k];
      assert (a + b)[end..] == a[end..] + b;
      var next := Consume(r, a[..k], p);
      if next.Some? { DrainAppends(next.value, a[end..], b, p); }
    }
  }

  /** A block with no blank line in it that does not end inside a line end. */
  predicate OneBlock(block: Text) {
    && (forall j :: 0 <= j < |block| ==> MatchAt(block, j) == 0)
    && (block != [] ==> block[|block| - 1] != LF && block[|block| - 1] != CR)
  }

  lemma NoMatchInside(block: Text, rest: Text, j: nat)
    requires OneBlock(block) && j < |block|
    ensures MatchAt(block + rest, j) == 0
  {
    assert forall i :: 0 <= i < |block| ==> (block + rest)[i] == block[i];
    assert MatchAt(block, j) == 0;
  }

  /** A block and a blank line, then more: exactly that block is consumed, whatever follows. */
  lemma BlockConsumed(r: Reading, block: Text, rest: Text, p: Profile)
    requires OneBlock(block)
    ensures Drain(r, block + [LF, LF] + rest, p)
         == if Consume(r, block, p).None? then None else Drain(Consume(r, block, p).value, rest, p)
  {
    var t := block + ([LF, LF] + rest);
    assert block + [LF, LF] + rest == t;
    forall j | 0 <= j < |block| ensures MatchAt(t, j) == 0 { NoMatchInside(block, [LF, LF] + rest, j); }
    assert t[|block|] == LF && t[|block| + 1] == LF;
    LeftmostIs(t, 0, |block|);
    DrainStep(r, t, |block|, |block| + 2, p);
    assert t[..|block|] == block && t[|block| + 2..] == rest;
  }

  /** What is returned once the stream has ended, from what was drained and what the decoder still emits. */
  function Ended(drained: Option<(Reading, Text)>, tail: Text, p: Profile): Option<Text> {
    if drained.None? then None
    else
      var buffer := drained.value.1 + tail;
      var last := if Trim(buffer) != [] then Consume(drained.value.0, buffer, p) else Some(drained.value.0);
      if last.None? || !last.value.completed || Trim(last.value.output) == [] then None else Some(last.value.output)
  }

  const EMPTY := Reading([], false)

  function TextOf<S>(d: TextDecoder<S>, bytes: Bytes): Text { Fed(d, d.start, bytes).1 }

  /** The output of a byte stream, None where reading it fails. */
  function Output<S>(d: TextDecoder<S>, bytes: Bytes, p: Profile): Option<Text> {
    if |bytes| > p.max then None
    else Ended(Drain(EMPTY, TextOf(d, bytes), p), d.finish(Fed(d, d.start, bytes).0), p)
  }

  lemma {:induction false} FedAppends<S>(d: TextDecoder<S>, s: S, a: Bytes, b: Bytes)
    ensures var (s', t) := Fed(d, s, a);
            var (s'', u) := Fed(d, s', b);
            Fed(d, s, a + b) == (s'', t + u)
    decreases |b|
  {
    var (s', t) := Fed(d, s, a);
    if b == [] {
      assert a + b == a && t + [] == t;
    } else {
      assert (a + b)[..|a + b| - 1] == a + b[..|b| - 1];
      FedAppends(d, s, a, b[..|b| - 1]);
      var (s'', u) := Fed(d, s', b[..|b| - 1]);
      var (_, v) := d.step(s'', b[|b| - 1]);
      assert t + (u + v) == t + u + v;
    }
  }

  lemma {:induction false} JoinedGrows(chunks: seq<Bytes>, i: nat)
    requires i <= |chunks|
    ensures |Joined(chunks[..i])| <= |Joined(chunks)|
  {
    if i < |chunks| {
      assert chunks[..|chunks| - 1][..i] == chunks[..i];
      JoinedGrows(chunks[..|chunks| - 1], i);
    } else {
      assert chunks[..i] == chunks;
    }
  }

  lemma JoinedNext(chunks: seq<Bytes>, i: nat)
    requires i < |chunks|
    ensures Joined(chunks[..i + 1]) == Joined(chunks[..i]) + chunks[i]
  {
    assert chunks[..i + 1][..i] == chunks[..i];
  }

  /** What a prefix of the chunks leaves: the decoder's state and what was drained. */
  ghost predicate Read<S(!new)>(d: TextDecoder<S>, chunks: seq<Bytes>, i: nat, p: Profile, s: S,
      drained: Option<(Reading, Text)>)
    requires i <= |chunks|
  {
    s == Fed(d, d.start, Joined(chunks[..i])).0 && drained == Drain(EMPTY, TextOf(d, Joined(chunks[..i])), p)
  }

  lemma ReadNext<S(!new)>(d: TextDecoder<S>, chunks: seq<Bytes>, i: nat, p: Profile, s: S,
      drained: Option<(Reading, Text)>)
    requires i < |chunks| && Read(d, chunks, i, p, s, drained)
    ensures Read(d, chunks, i + 1, p, Fed(d, s, chunks[i]).0, Resume(drained, Fed(d, s, chunks[i]).1, p))
  {
    JoinedNext(chunks, i);
    FedAppends(d, d.start, Joined(chunks[..i]), chunks[i]);
    DrainAppends(EMPTY, TextOf(d, Joined(chunks[..i])), Fed(d, s, chunks[i]).1, p);
  }

  /** A block that cannot be consumed fails every continuation of the stream. */
  lemma {:induction false} FailsForGood<S(!new)>(d: TextDecoder<S>, chunks: seq<Bytes>, i: nat, p: Profile, s: S)
    requires i <= |chunks| && Read(d, chunks, i, p, s, None)
    ensures Output(d, Joined(chunks), p).None?
    decreases |chunks| - i
  {
    if i == |chunks| {
      assert chunks[..i] == chunks;
    } else {
      ReadNext(d, chunks, i, p, s, None);
      FailsForGood(d, chunks, i + 1, p, Fed(d, s, chunks[i]).0);
    }
  }

  /** Consumes the complete blocks of the buffer. */
  method DrainBuffer(start: Reading, text: Text, p: Profile) returns (r: Option<(Reading, Text)>)
    ensures r == Drain(start, text, p)
  {
    var reading, buffer := start, text;
    var boundary := Leftmost(buffer, 0);
    while boundary < |buffer|
      invariant boundary == Leftmost(buffer, 0)
      invariant Drain(start, text, p) == Drain(reading, buffer, p)
      decreases |buffer|
    {
      var end := boundary + MatchAt(buffer, boundary);
      DrainStep(reading, buffer, boundary, end, p);
      var next := Consume(reading, buffer[..boundary], p);
      if next.None? { return None; }
      reading := next.value;
      buffer := buffer[end..];
      boundary := Leftmost(buffer, 0);
    }
    r := Some((reading, buffer));
  }

  /** Reads the chunks as they come.  The result depends on the chunks only through the bytes they add up to. */
  method ReadStream<S(!new)>(d: TextDecoder<S>, chunks: seq<Bytes>, p: Profile) returns (output: Option<Text>)
    ensures output == Output(d, Joined(chunks), p)
  {
    var s, buffer, reading, total := d.start, [], EMPTY, 0;
    for i := 0 to |chunks|
      invariant total == |Joined(chunks[..i])| <= p.max
      invariant Read(d, chunks, i, p, s, Some((reading, buffer)))
    {
      JoinedNext(chunks, i);
      JoinedGrows(chunks, i + 1);
      total := total + |chunks[i]|;
      if total > p.max { return None; }
      ReadNext(d, chunks, i, p, s, Some((reading, buffer)));
      var (s', text) := Fed(d, s, chunks[i]);
      var drained := DrainBuffer(reading, buffer + text, p);
      if drained.None? {
        FailsForGood(d, chunks, i + 1, p, s');
        return None;
      }
      s := s';
      reading, buffer := drained.value.0, drained.value.1;
    }
    assert chunks[..|chunks|] == chunks;
    buffer := buffer + d.finish(s);
    if Trim(buffer) != [] {
      var last := Consume(reading, buffer, p);
      if last.None? { return None; }
      reading := last.value;
    }
    output := if !reading.completed || Trim(reading.output) == [] then None else Some(reading.output);
  }

  /** The reader with the program's own reading of a block. */
  method ReadQualifiedStream<S(!new)>(d: TextDecoder<S>, chunks: seq<Bytes>, max: nat) returns (output: Option<Text>)
    ensures output == Output(d, Joined(chunks), Profile(max, EventOf))
  {
    output := ReadStream(d, chunks, Profile(max, EventOf));
  }

  // ---------------------------------------------------------------- what a stream of blocks is read as

  /** A block of a stream and the blank line after it. */
  datatype Part = Part(block: Text, blank: Text)

  predicate BlankLine(t: Text) { t in [[LF, LF], [CR, LF, LF], [LF, CR, LF], [CR, LF, CR, LF]] }

  predicate NoBlank(t: Text) { forall j :: 0 <= j < |t| ==> MatchAt(t, j) == 0 }

  /** The block holds no blank line, and the one after it starts no earlier. */
  predicate Separate(p: Part) {
    && NoBlank(p.block) && BlankLine(p.blank)
    && (p.block != [] ==>
          p.block[|p.block| - 1] != LF && (p.block[|p.block| - 1] == CR ==> p.blank[0] == CR))
  }

  function Lines(parts: seq<Part>): Text {
    if parts == [] then [] else parts[0].block + parts[0].blank + Lines(parts[1..])
  }

  /** The events of the blocks, and of what is left at the end when it is not blank. */
  function EventsOf(parts: seq<Part>, left: Text, p: Profile): seq<Event> {
    if parts == [] then (if Trim(left) == [] then [] else [p.interpret(left)])
    else [p.interpret(parts[0].block)] + EventsOf(parts[1..], left, p)
  }

  /** The texts of the delta events, in order. */
  function Written(events: seq<Event>): Text {
    if events == [] then []
    else (if events[0].Delta? then events[0].text else []) + Written(events[1..])
  }

  lemma BlankMatches(block: Text, blank: Text, rest: Text)
    requires BlankLine(blank)
    ensures MatchAt(block + (blank + rest), |block|) == |blank|
  {
    var t := block + (blank + rest);
    assert forall i :: 0 <= i < |blank| ==> t[|block| + i] == blank[i];
  }

  lemma NoEarlierMatch(p: Part, rest: Text, j: nat)
    requires Separate(p) && j < |p.block|
    ensures MatchAt(p.block + (p.blank + rest), j) == 0
  {
    var t := p.block + (p.blank + rest);
    assert forall i :: 0 <= i < |p.block| ==> t[i] == p.block[i];
    assert t[|p.block|] == p.blank[0];
    assert MatchAt(p.block, j) == 0;
  }

  lemma FirstMatch(p: Part, rest: Text)
    requires Separate(p)
    ensures var t := p.block + (p.blank + rest);
            Leftmost(t, 0) == |p.block| < |t| && MatchAt(t, |p.block|) == |p.blank|
  {
    var t := p.block + (p.blank + rest);
    forall j | 0 <= j < |p.block| ensures MatchAt(t, j) == 0 { NoEarlierMatch(p, rest, j); }
    BlankMatches(p.block, p.blank, rest);
    LeftmostIs(t, 0, |p.block|);
  }

  lemma Sliced(block: Text, blank: Text, rest: Text)
    ensures var t := block + (blank + rest); t[..|block|] == block && t[|block| + |blank|..] == rest
  {
  }

  lemma DrainFirst(r: Reading, t: Text, block: Text, blank: Text, rest: Text, p: Profile)
    requires Leftmost(t, 0) == |block| < |t| && MatchAt(t, |block|) == |blank|
    requires t[..|block|] == block && t[|block| + |blank|..] == rest
    ensures Drain(r, t, p)
         == if Consume(r, block, p).None? then None else Drain(Consume(r, block, p).value, rest, p)
  {
    DrainStep(r, t, |block|, |block| + |blank|, p);
  }

  /** The first part of a text is what is drained first. */
  lemma PartDrained(r: Reading, part: Part, rest: Text, p: Profile)
    requires Separate(part)
    ensures Drain(r, part.block + (part.blank + rest), p)
         == if Consume(r, part.block, p).None? then None else Drain(Consume(r, part.block, p).value, rest, p)
  {
    FirstMatch(part, rest);
    Sliced(part.block, part.blank, rest);
    DrainFirst(r, part.block + (part.blank + rest), part.block, part.blank, rest, p);
  }

  lemma RestUndrained(r: Reading, last: Text, p: Profile)
    requires NoBlank(last)
    ensures Drain(r, last, p) == Some((r, last))
  {
    assert Leftmost(last, 0) == |last|;
  }

  lemma LinesCons(first: Part, others: seq<Part>, last: Text)
    ensures Lines([first] + others) + last == first.block + (first.blank + (Lines(others) + last))
  {
    assert ([first] + others)[1..] == others;
  }

  lemma Resliced(t: Text, k: nat, n: nat)
    requires k + n <= |t|
    ensures t == t[..k] + (t[k..k + n] + t[k + n..])
  {
  }

  ghost predicate MadeOf(t: Text, parts: seq<Part>, last: Text) {
    (forall k :: 0 <= k < |parts| ==> Separate(parts[k])) && NoBlank(last) && t == Lines(parts) + last
  }

  lemma OnePartMore(t: Text, k: nat, n: nat, others: seq<Part>, end: Text) returns (parts: seq<Part>, last: Text)
    requires k + n <= |t| && Separate(Part(t[..k], t[k..k + n])) && MadeOf(t[k + n..], others, end)
    ensures MadeOf(t, parts, last)
  {
    var first := Part(t[..k], t[k..k + n]);
    parts, last := [first] + others, end;
    LinesCons(first, others, end);
    Resliced(t, k, n);
  }

  /** Every text is parts and a rest without a blank line. */
  lemma {:induction false} PartsOf(t: Text) returns (parts: seq<Part>, last: Text)
    ensures MadeOf(t, parts, last)
    decreases |t|
  {
    var k := Leftmost(t, 0);
    if k == |t| {
      parts, last := [], t;
      assert Lines([]) + t == t;
    } else {
      var n := MatchAt(t, k);
      FirstIsSeparate(t, k);
      var others, end := PartsOf(t[k + n..]);
      parts, last := OnePartMore(t, k, n, others, end);
    }
  }

  lemma MatchIsBlank(t: Text, k: nat)
    requires k < |t| && MatchAt(t, k) > 0
    ensures BlankLine(t[k..k + MatchAt(t, k)])
  {
    var a := LineEnd(t, k);
    var b := LineEnd(t, k + a);
    if a == 1 && b == 1 { assert t[k..k + 2] == [LF, LF]; }
    else if a == 1 { assert t[k..k + 3] == [LF, CR, LF]; }
    else if b == 1 { assert t[k..k + 3] == [CR, LF, LF]; }
    else { assert t[k..k + 4] == [CR, LF, CR, LF]; }
  }

  lemma BeforeMatch(t: Text, k: nat)
    requires 0 < k < |t| && MatchAt(t, k) > 0 && MatchAt(t, k - 1) == 0
    ensures t[k - 1] != LF && (t[k - 1] == CR ==> t[k] == CR)
  {
  }

  lemma FrontNoBlank(t: Text, k: nat)
    requires k == Leftmost(t, 0) < |t|
    ensures NoBlank(t[..k])
  {
    var block, rest := t[..k], t[k..];
    assert block + rest == t;
    forall j | 0 <= j < |block| ensures MatchAt(block, j) == 0 {
      if MatchAt(block, j) > 0 { SameMatch(block, rest, j); }
    }
  }

  lemma FirstIsSeparate(t: Text, k: nat)
    requires k == Leftmost(t, 0) < |t|
    ensures Separate(Part(t[..k], t[k..k + MatchAt(t, k)]))
  {
    FrontNoBlank(t, k);
    if k > 0 { BeforeMatch(t, k); }
    MatchIsBlank(t, k);
  }

  // ---------------------------------------------------------------- its output

  lemma {:induction false} LongerText(a: Text, b: Text)
    ensures Utf8Length(a) <= Utf8Length(a + b)
  {
    if a == [] {
    } else if |a| > 1 && IsLead(a[0]) && IsTrail(a[1]) {
      assert (a + b)[2..] == a[2..] + b;
      LongerText(a[2..], b);
    } else if |a| == 1 && IsLead(a[0]) && b != [] && IsTrail(b[0]) {
      assert Utf8Length(a[1..]) == 0;
    } else {
      assert (a + b)[1..] == a[1..] + b;
      LongerText(a[1..], b);
    }
  }

  /** Whether events can be read on from what was read, and what they are then read as. */
  ghost predicate Readable(r: Reading, events: seq<Event>, p: Profile) {
    Unusable !in events && (Written(events) != [] ==> Utf8Length(r.output + Written(events)) <= p.max)
  }

  ghost predicate Fits(r: Reading, p: Profile) { Utf8Length(r.output) <= p.max }

  function ReadOn(r: Reading, events: seq<Event>): Reading {
    Reading(r.output + Written(events), r.completed || Completed in events)
  }

  function TextIn(e: Event): Text { if e.Delta? then e.text else [] }

  lemma WrittenThen(e: Event, more: seq<Event>)
    ensures Written([e] + more) == TextIn(e) + Written(more) && Written([e]) == TextIn(e)
  {
    assert ([e] + more)[1..] == more;
    assert [e][1..] == [] && Written([]) == [];
  }

  /** Consuming one block is reading its event on. */
  lemma ConsumeReads(r: Reading, block: Text, p: Profile)
    requires Fits(r, p)
    ensures Consume(r, block, p).Some? <==> Readable(r, [p.interpret(block)], p)
    ensures Consume(r, block, p).Some? ==>
              Consume(r, block, p).value == ReadOn(r, [p.interpret(block)]) && Fits(Consume(r, block, p).value, p)
  {
    WrittenThen(p.interpret(block), []);
    assert r.output + [] == r.output;
  }

  /** What is returned when these events are all there are. */
  ghost function Result(r: Reading, events: seq<Event>, p: Profile): Option<Text> {
    var read := ReadOn(r, events);
    if Readable(r, events, p) && read.completed && Trim(read.output) != [] then Some(read.output) else None
  }

  lemma ReadableThen(r: Reading, e: Event, more: seq<Event>, p: Profile)
    requires Fits(r, p)
    ensures Readable(r, [e] + more, p) <==> Readable(r, [e], p) && Readable(ReadOn(r, [e]), more, p)
  {
    WrittenThen(e, more);
    var one, rest := TextIn(e), Written(more);
    assert r.output + one + rest == r.output + (one + rest);
    LongerText(r.output + one, rest);
    assert Unusable in [e] + more <==> e == Unusable || Unusable in more;
    if rest == [] { assert one + rest == one; }
    if one == [] { assert r.output + one == r.output; }
  }

  /** Reading an event on and then more is reading them all on. */
  lemma ResultThen(r: Reading, e: Event, more: seq<Event>, p: Profile)
    requires Fits(r, p)
    ensures Result(r, [e] + more, p) == if Readable(r, [e], p) then Result(ReadOn(r, [e]), more, p) else None
  {
    ReadableThen(r, e, more, p);
    WrittenThen(e, more);
    assert r.output + (TextIn(e) + Written(more)) == r.output + TextIn(e) + Written(more);
    assert Completed in [e] + more <==> e == Completed || Completed in more;
    assert Completed in [e] <==> e == Completed;
  }

  lemma LastReads(r: Reading, last: Text, tail: Text, p: Profile)
    requires Fits(r, p) && NoBlank(last)
    ensures Ended(Drain(r, last, p), tail, p) == Result(r, EventsOf([], last + tail, p), p)
  {
    RestUndrained(r, last, p);
    if Trim(last + tail) == [] {
      assert r.output + [] == r.output && Written([]) == [];
    } else {
      ConsumeReads(r, last + tail, p);
    }
  }

  lemma {:induction false} DrainedReads(r: Reading, parts: seq<Part>, last: Text, tail: Text, p: Profile)
    requires Fits(r, p) && NoBlank(last) && forall k :: 0 <= k < |parts| ==> Separate(parts[k])
    ensures Ended(Drain(r, Lines(parts) + last, p), tail, p) == Result(r, EventsOf(parts, last + tail, p), p)
    decreases |parts|
  {
    if parts == [] {
      assert Lines(parts) + last == last;
      LastReads(r, last, tail, p);
    } else {
      var first, rest := parts[0], parts[1..];
      assert parts == [first] + rest;
      LinesCons(first, rest, last);
      PartDrained(r, first, Lines(rest) + last, p);
      ConsumeReads(r, first.block, p);
      ResultThen(r, p.interpret(first.block), EventsOf(rest, last + tail, p), p);
      var next := Consume(r, first.block, p);
      if next.Some? { DrainedReads(next.value, rest, last, tail, p); }
    }
  }

  predicate Acceptable(bytes: Bytes, events: seq<Event>, p: Profile) {
    && |bytes| <= p.max && Utf8Length(Written(events)) <= p.max
    && Unusable !in events && Completed in events && Trim(Written(events)) != []
  }

  lemma ResultFromStart(events: seq<Event>, p: Profile)
    ensures Result(EMPTY, events, p)
         == if Utf8Length(Written(events)) <= p.max && Unusable !in events && Completed in events
               && Trim(Written(events)) != [] then Some(Written(events)) else None
  {
    assert EMPTY.output + Written(events) == Written(events);
  }

  /** What a stream is read as, whatever its text is made of: reading succeeds exactly when the bytes and the text
      written stay within the bound, no event is unusable, one says the response is complete, and the text is not blank;
      the output is then the delta texts in their order. */
  lemma StreamMeans<S>(d: TextDecoder<S>, bytes: Bytes, parts: seq<Part>, last: Text, p: Profile)
    requires MadeOf(TextOf(d, bytes), parts, last)
    ensures var events := EventsOf(parts, last + d.finish(Fed(d, d.start, bytes).0), p);
            Output(d, bytes, p) == if Acceptable(bytes, events, p) then Some(Written(events)) else None
  {
    var tail := d.finish(Fed(d, d.start, bytes).0);
    DrainedReads(EMPTY, parts, last, tail, p);
    ResultFromStart(EventsOf(parts, last + tail, p), p);
  }

  // ---------------------------------------------------------------- what a block of JSON is read as

  /** No control character: so no line end. */
  predicate Printed(t: Text) { forall k :: 0 <= k < |t| ==> t[k] >= 32 }

  lemma {:induction false} QuotedPrinted(s: Text)
    ensures Printed(Quoted(s))
  {
    if s == [] {
    } else if |s| > 1 && IsLead(s[0]) && IsTrail(s[1]) {
      QuotedPrinted(s[2..]);
    } else {
      QuotedPrinted(s[1..]);
      assert Printed(Escaped(s[0]));
    }
  }

  lemma MemberPrinted(open: Unit, k: Text, x: Text, rest: Text)
    requires open >= 32 && Printed(x) && Printed(rest)
    ensures Printed([open] + Literal(k) + [COLON] + x + rest)
  {
    QuotedPrinted(k);
    assert Printed(Literal(k));
  }

  lemma {:induction false} EmitPrinted(v: Json)
    requires Proper(v)
    ensures Printed(Emit(v))
    decreases v
  {
    match v
    case Null =>
    case Bool(_) =>
    case Number(_) =>
    case String(s) => QuotedPrinted(s);
    case Array(End) =>
    case Array(More(x, tail)) =>
      EmitPrinted(x);
      ItemsPrinted(tail);
    case Object(Done) =>
    case Object(Field(k, x, rest)) =>
      EmitPrinted(x);
      FieldsPrinted(rest);
      MemberPrinted(123, k, Emit(x), EmitFields(rest));
  }

  lemma {:induction false} ItemsPrinted(items: Items)
    requires ProperItems(items)
    ensures Printed(EmitItems(items))
    decreases items
  {
    if items.More? {
      EmitPrinted(items.head);
      ItemsPrinted(items.tail);
    }
  }

  lemma {:induction false} FieldsPrinted(fields: Fields)
    requires ProperFields(fields)
    ensures Printed(EmitFields(fields))
    decreases fields
  {
    if fields.Field? {
      EmitPrinted(fields.value);
      FieldsPrinted(fields.rest);
      MemberPrinted(COMMA, fields.key, Emit(fields.value), EmitFields(fields.rest));
    }
  }

  lemma {:induction false} OneLine(t: Text)
    requires Printed(t)
    ensures FirstLine(t) == |t|
  {
    if t != [] { OneLine(t[1..]); }
  }

  /** The block that carries a JSON text as its data. */
  function DataLine(text: Text): Text { Ascii("data:") + [32] + text }

  lemma DataRead(text: Text)
    requires Printed(text) && text != [] && !Trimmed(text[0]) && !Trimmed(text[|text| - 1])
    ensures DataOf(DataLine(text)) == text
  {
    var block := DataLine(text);
    assert forall k :: 0 <= k < |Ascii("data:")| ==> Ascii("data:")[k] >= 32;
    OneLine(block);
    assert block[..|block|] == block && block[|Ascii("data:")|..] == [32] + text;
    assert ([32] + text)[1..] == text;
    assert TrimStart([32] + text) == text;
    assert text + [] == text;
  }

  predicate Typed(fields: Fields, name: Text) {
    Has(fields, Ascii("type")) && Get(fields, Ascii("type")) == String(name)
  }

  predicate Carrying(fields: Fields, text: Text) {
    Has(fields, Ascii("delta")) && Get(fields, Ascii("delta")) == String(text)
  }

  lemma ObjectText(fields: Fields)
    requires ProperFields(fields)
    ensures var text := CanonicalSerialize(Object(fields));
            Printed(text) && |text| > 1 && text[0] == 123 && text[|text| - 1] == 125
  {
    NormalProper(Object(fields));
    EmitPrinted(Normal(Object(fields)));
  }

  lemma NormalKeeps(fields: Fields, name: Text)
    ensures Typed(NormalFields(fields), name) <==> Typed(fields, name)
    ensures Carrying(NormalFields(fields), name) <==> Carrying(fields, name)
  {
    NormalHas(fields, Ascii("type"));
    NormalHas(fields, Ascii("delta"));
  }

  /** A block with the canonical text of an object is the delta event of its text, the completion, a passed event or
      unusable, as the members `type` and `delta` of the object say, in whatever order they were written. */
  lemma EventRead(fields: Fields)
    requires ProperFields(fields)
    ensures var e := EventOf(DataLine(CanonicalSerialize(Object(fields))));
            && (forall text :: e == Delta(text) <==>
                  Typed(fields, Ascii("response.output_text.delta")) && Carrying(fields, text))
            && (e == Completed <==> Typed(fields, Ascii("response.completed")))
            && (e == Passed <==> exists name :: Qualified(name) && Typed(fields, name))
            && e != Nothing
  {
    var text := CanonicalSerialize(Object(fields));
    ObjectText(fields);
    DataRead(text);
    RoundTrip(Object(fields));
    assert Parse(text) == Some(Object(NormalFields(fields)));
    assert text != Ascii("[DONE]") by { assert Ascii("[DONE]")[0] == 91; }
    NamesDiffer();
    ObjectEvent(NormalFields(fields), text);
    forall name ensures Typed(NormalFields(fields), name) <==> Typed(fields, name) { NormalKeeps(fields, name); }
    forall t ensures Carrying(NormalFields(fields), t) <==> Carrying(fields, t) { NormalKeeps(fields, t); }
  }

  lemma NamesDiffer()
    ensures Ascii("response.completed") != Ascii("response.output_text.delta")
    ensures !Qualified(Ascii("response.completed")) && !Qualified(Ascii("response.output_text.delta"))
  {
    var delta := Ascii("response.output_text.delta");
    assert |Ascii("response.completed")| == 18 && |delta| == 26;
    assert delta[12] == 'p' as int && Ascii("response.output_item.added")[12] == 'p' as int;
    assert delta[16] == 't' as int && Ascii("response.output_item.added")[16] == 'i' as int;
  }

  lemma ObjectEvent(fields: Fields, data: Text)
    requires Parse(data) == Some(Object(fields)) && data != [] && data != Ascii("[DONE]")
    requires DataOf(DataLine(data)) == data
    ensures var e := EventOf(DataLine(data));
            && (forall text :: e == Delta(text) <==>
                  Typed(fields, Ascii("response.output_text.delta")) && Carrying(fields, text))
            && (e == Completed <==> Typed(fields, Ascii("response.completed")))
            && (e == Passed <==> exists name :: Qualified(name) && Typed(fields, name))
            && e != Nothing
  {
    NamesDiffer();
    if Has(fields, Ascii("type")) && Get(fields, Ascii("type")).String? {
      assert Typed(fields, Get(fields, Ascii("type")).text);
    }
    if Has(fields, Ascii("delta")) && Get(fields, Ascii("delta")).String? {
      assert Carrying(fields, Get(fields, Ascii("delta")).text);
    }
  }
}
