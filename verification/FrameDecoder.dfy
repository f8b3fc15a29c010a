/** Length-prefixed frames of canonical JSON: the encoder, the incremental decoder, and why the way a byte stream is
    cut into chunks does not matter. */
module FrameDecoder {
  import opened Wrappers
  import opened Json
  import opened JsonLaws
  import opened Utf8

  const HEADER_BYTES := 4
  const LARGEST_LIMIT := 16777216

  datatype Code = ZeroLengthFrame | FrameTooLarge | InvalidJsonFrame | TruncatedFrame | InvalidFrameChunk

  predicate Limit(max: nat) { 1 <= max <= LARGEST_LIMIT }

  function ReadUInt32BE(b: Bytes): nat
    requires |b| >= HEADER_BYTES
  {
    b[0] as nat * 16777216 + b[1] as nat * 65536 + b[2] as nat * 256 + b[3] as nat
  }

  function WriteUInt32BE(n: nat): Bytes
    requires n < 0x1_0000_0000
  {
    [n / 16777216, n / 65536 % 256, n / 256 % 256, n % 256]
  }

  function EncodeFrame(v: Json, max: nat): Result<Bytes, Code>
    requires Limit(max)
  {
    var text := CanonicalSerialize(v);
    if !WellFormed(text) then Err(InvalidJsonFrame)
    else
      var body := Encode(text);
      if |body| == 0 then Err(ZeroLengthFrame)
      else if |body| > max then Err(FrameTooLarge)
      else Ok(WriteUInt32BE(|body|) + body)
  }

  function ParseBody(body: Bytes): Option<Json> {
    var text := Decode(body);
    if text.None? then None else Parse(text.value)
  }

  /** What the buffered bytes start with. */
  datatype Head = Short | Bad(code: Code) | Frame(message: Json, size: nat)

  function HeadOf(b: Bytes, max: nat): (h: Head)
    ensures h.Frame? ==> HEADER_BYTES < h.size <= |b|
    ensures h.Short? ==> |b| < HEADER_BYTES + max || |b| < HEADER_BYTES
  {
    if |b| < HEADER_BYTES then Short
    else
      var length := ReadUInt32BE(b);
      if length == 0 then Bad(ZeroLengthFrame)
      else if length > max then Bad(FrameTooLarge)
      else if |b| < HEADER_BYTES + length then Short
      else
        var message := ParseBody(b[HEADER_BYTES..HEADER_BYTES + length]);
        if message.None? then Bad(InvalidJsonFrame) else Frame(message.value, HEADER_BYTES + length)
  }

  /** What a decoder has delivered, kept and reported once it was given these bytes. */
  datatype Heard = Heard(messages: seq<Json>, pending: Bytes, error: Option<Code>)

  function Hear(b: Bytes, max: nat): (h: Heard)
    ensures h.error.None? ==> |h.pending| < HEADER_BYTES + max || |h.pending| < HEADER_BYTES
    ensures h.error.Some? ==> h.pending == []
    decreases |b|, 0
  {
    match HeadOf(b, max)
    case Short => Heard([], b, None)
    case Bad(code) => Heard([], [], Some(code))
    case Frame(message, size) => After([message], b[size..], max)
  }

  /** These messages, then what hearing these bytes gives. */
  function After(messages: seq<Json>, b: Bytes, max: nat): (h: Heard)
    ensures h.error.None? ==> |h.pending| < HEADER_BYTES + max || |h.pending| < HEADER_BYTES
    ensures h.error.Some? ==> h.pending == []
    decreases |b|, 1
  {
    var h := Hear(b, max);
    Heard(messages + h.messages, h.pending, h.error)
  }

  /** What was heard so far, then more bytes. */
  function Resumed(h: Heard, b: Bytes, max: nat): Heard {
    if h.error.Some? then h else After(h.messages, h.pending + b, max)
  }

  lemma HeadKept(a: Bytes, b: Bytes, max: nat)
    requires !HeadOf(a, max).Short?
    ensures HeadOf(a + b, max) == HeadOf(a, max)
  {
    assert forall k :: 0 <= k < |a| ==> (a + b)[k] == a[k];
    assert ReadUInt32BE(a + b) == ReadUInt32BE(a);
    var end := HEADER_BYTES + ReadUInt32BE(a);
    if HEADER_BYTES < end <= |a| { assert (a + b)[HEADER_BYTES..end] == a[HEADER_BYTES..end]; }
  }

  lemma AfterAfter(one: seq<Json>, two: seq<Json>, b: Bytes, max: nat)
    ensures var h := After(two, b, max);
            Heard(one + h.messages, h.pending, h.error) == After(one + two, b, max)
  {
    assert one + (two + Hear(b, max).messages) == one + two + Hear(b, max).messages;
  }

  /** One step of hearing, by what the bytes start with. */
  lemma AfterHead(messages: seq<Json>, b: Bytes, max: nat)
    ensures var head := HeadOf(b, max);
            After(messages, b, max) ==
              if head.Short? then Heard(messages, b, None)
              else if head.Bad? then Heard(messages, [], Some(head.code))
              else After(messages + [head.message], b[head.size..], max)
  {
    if HeadOf(b, max).Frame? { AfterAfter(messages, [HeadOf(b, max).message], b[HeadOf(b, max).size..], max); }
  }

  /** Hearing bytes in two parts is hearing them at once. */
  lemma {:induction false} HearAppends(a: Bytes, b: Bytes, max: nat)
    ensures Hear(a + b, max) == Resumed(Hear(a, max), b, max)
    decreases |a|
  {
    match HeadOf(a, max)
    case Short =>
    case Bad(code) => HeadKept(a, b, max);
    case Frame(message, size) =>
      HeadKept(a, b, max);
      assert (a + b)[size..] == a[size..] + b;
      HearAppends(a[size..], b, max);
      var h := Hear(a[size..], max);
      if h.error.None? { AfterAfter([message], h.messages, h.pending + b, max); }
  }

  /** The outcome of a whole stream that then ends. */
  function Finished(h: Heard): (seq<Json>, Option<Code>) {
    (h.messages, if h.error.Some? then h.error else if h.pending != [] then Some(TruncatedFrame) else None)
  }

  /** How a decoder that heard no error was closed: its stream ended, or it was given a chunk that is not bytes. */
  datatype Closing = Ended | Misfed

  /** The messages and the error of a decoder that heard `h` and was then closed, if it was. */
  function Outcome(h: Heard, closing: Option<Closing>): (seq<Json>, Option<Code>) {
    if h.error.Some? || closing.None? then (h.messages, h.error)
    else if closing.value.Misfed? then (h.messages, Some(InvalidFrameChunk))
    else Finished(h)
  }

  class Decoder {
    const max: nat
    var pending: Bytes
    var closed: bool
    var messages: seq<Json>
    var error: Option<Code>
    ghost var fed: Bytes
    ghost var closing: Option<Closing>

    /** `fed` are the bytes pushed while open.  An open decoder is in the state that hearing them at once leaves and
        keeps less than one frame; a closed one has the outcome of what it heard and how it was closed. */
    ghost predicate Valid()
      reads this
    {
      && Limit(max) && (messages, error) == Outcome(Hear(fed, max), closing)
      && (closed <==> closing.Some? || Hear(fed, max).error.Some?)
      && pending == (if closed then [] else Hear(fed, max).pending)
      && (!closed ==> |pending| < HEADER_BYTES + max)
    }

    constructor (max: nat)
      requires Limit(max)
      ensures Valid() && this.max == max && fed == [] && !closed && closing == None
    {
      this.max, pending, closed, messages, error, fed, closing := max, [], false, [], None, [], None;
    }

    method Fail(code: Code)
      modifies this`closed, this`pending, this`error
      ensures if old(closed) then closed && pending == old(pending) && error == old(error)
              else closed && pending == [] && error == Some(code)
    {
      if closed { return; }
      closed, pending, error := true, [], Some(code);
    }

    /** The decoding loop over the buffered bytes. */
    method Drain() returns (dispatched: nat)
      requires !closed && error == None
      modifies this`messages, this`pending, this`closed, this`error
      ensures Heard(messages, pending, error) == After(old(messages), old(pending), max) && (closed <==> error.Some?)
      ensures |messages| == |old(messages)| + dispatched && old(messages) <= messages
    {
      dispatched := 0;
      ghost var goal := After(messages, pending, max);
      while !closed && |pending| >= HEADER_BYTES
        invariant |messages| == |old(messages)| + dispatched && old(messages) <= messages
        invariant closed <==> error.Some?
        invariant goal == if closed then Heard(messages, pending, error) else After(messages, pending, max)
        decreases !closed, |pending|
      {
        AfterHead(messages, pending, max);
        var length := ReadUInt32BE(pending);
        if length == 0 { Fail(ZeroLengthFrame); break; }
        if length > max { Fail(FrameTooLarge); break; }
        if |pending| < HEADER_BYTES + length { break; }
        var body := pending[HEADER_BYTES..HEADER_BYTES + length];
        pending := pending[HEADER_BYTES + length..];
        var message := ParseBody(body);
        if message.None? { Fail(InvalidJsonFrame); break; }
        dispatched := dispatched + 1;
        messages := messages + [message.value];
      }
      AfterHead(messages, pending, max);
    }

    method Push(chunk: Bytes) returns (dispatched: nat)
      requires Valid()
      modifies this
      ensures Valid() && (if old(closed) then unchanged(this) else fed == old(fed) + chunk && closing == None)
      ensures |messages| == |old(messages)| + dispatched && old(messages) <= messages
    {
      if closed { return 0; }
      HearAppends(fed, chunk, max);
      fed := fed + chunk;
      pending := pending + chunk;
      dispatched := Drain();
    }

    method PushOther()
      requires Valid()
      modifies this
      ensures Valid() && (if old(closed) then unchanged(this) else closed && fed == old(fed) && closing == Some(Misfed))
    {
      if !closed { closing := Some(Misfed); }
      Fail(InvalidFrameChunk);
    }

    method End()
      requires Valid()
      modifies this
      ensures Valid() && (if old(closed) then unchanged(this) else closed && fed == old(fed) && closing == Some(Ended))
    {
      if closed { return; }
      closing := Some(Ended);
      if |pending| != 0 { Fail(TruncatedFrame); return; }
      closed := true;
    }
  }

  /** Feeding a stream chunk by chunk and ending it. */
  method Deliver(chunks: seq<Bytes>, max: nat) returns (messages: seq<Json>, error: Option<Code>)
    requires Limit(max)
    ensures (messages, error) == Finished(Hear(Joined(chunks), max))
  {
    var decoder := new Decoder(max);
    for i := 0 to |chunks|
      invariant decoder.Valid() && decoder.max == max && decoder.closing == None
      invariant Hear(decoder.fed, max) == Hear(Joined(chunks[..i]), max)
    {
      HearAppends(decoder.fed, chunks[i], max);
      HearAppends(Joined(chunks[..i]), chunks[i], max);
      assert chunks[..i + 1][..i] == chunks[..i];
      var _ := decoder.Push(chunks[i]);
    }
    assert chunks[..|chunks|] == chunks;
    decoder.End();
    messages, error := decoder.messages, decoder.error;
  }

  // ---------------------------------------------------------------- encoded frames come back

  lemma LengthRead(n: nat, rest: Bytes)
    requires n < 0x1_0000_0000
    ensures ReadUInt32BE(WriteUInt32BE(n) + rest) == n
  {
    var b := WriteUInt32BE(n) + rest;
    assert b[0] == n / 16777216 && b[1] == n / 65536 % 256 && b[2] == n / 256 % 256 && b[3] == n % 256;
    assert n == n / 16777216 * 16777216 + n / 65536 % 256 * 65536 + n / 256 % 256 * 256 + n % 256;
  }

  lemma BodyRead(v: Json)
    requires Proper(v)
    ensures WellFormed(CanonicalSerialize(v)) && Encode(CanonicalSerialize(v)) != []
    ensures ParseBody(Encode(CanonicalSerialize(v))) == Some(Normal(v))
  {
    NormalProper(v);
    EmitWellFormed(Normal(v));
    DecodesBack(CanonicalSerialize(v));
    RoundTrip(v);
    Starts(Normal(v), []);
  }

  /** A program's value is never refused but for its size. */
  lemma FrameMade(v: Json, max: nat)
    requires Limit(max) && Proper(v)
    ensures WellFormed(CanonicalSerialize(v))
    ensures var body := Encode(CanonicalSerialize(v));
            EncodeFrame(v, max) == if |body| > max then Err(FrameTooLarge) else Ok(WriteUInt32BE(|body|) + body)
  {
    BodyRead(v);
  }

  lemma FrameHeard(v: Json, max: nat, rest: Bytes)
    requires Limit(max) && Proper(v) && EncodeFrame(v, max).Ok?
    ensures var h := Hear(rest, max);
            Hear(EncodeFrame(v, max).value + rest, max) == Heard([Normal(v)] + h.messages, h.pending, h.error)
  {
    BodyRead(v);
    var body := Encode(CanonicalSerialize(v));
    var b := EncodeFrame(v, max).value + rest;
    assert b == WriteUInt32BE(|body|) + (body + rest);
    LengthRead(|body|, body + rest);
    assert b[HEADER_BYTES..HEADER_BYTES + |body|] == body;
    assert b[HEADER_BYTES + |body|..] == rest;
  }

  function Frames(values: seq<Json>, max: nat): Bytes
    requires Limit(max) && forall k :: 0 <= k < |values| ==> EncodeFrame(values[k], max).Ok?
  {
    if values == [] then [] else EncodeFrame(values[0], max).value + Frames(values[1..], max)
  }

  function Normals(values: seq<Json>): seq<Json> {
    if values == [] then [] else [Normal(values[0])] + Normals(values[1..])
  }

  /** Decoding the concatenation of encoded messages, however it is cut, returns exactly those messages in order and no
      error. */
  lemma {:induction false} FramesRead(values: seq<Json>, max: nat, chunks: seq<Bytes>)
    requires Limit(max) && forall k :: 0 <= k < |values| ==> Proper(values[k]) && EncodeFrame(values[k], max).Ok?
    requires Joined(chunks) == Frames(values, max)
    ensures Finished(Hear(Joined(chunks), max)) == (Normals(values), None)
  {
    FramesHeard(values, max);
  }

  lemma {:induction false} FramesHeard(values: seq<Json>, max: nat)
    requires Limit(max) && forall k :: 0 <= k < |values| ==> Proper(values[k]) && EncodeFrame(values[k], max).Ok?
    ensures Hear(Frames(values, max), max) == Heard(Normals(values), [], None)
  {
    if values != [] {
      FramesHeard(values[1..], max);
      FrameHeard(values[0], max, Frames(values[1..], max));
    }
  }

  // ---------------------------------------------------------------- and what is no frame is refused

  lemma HeardThen(values: seq<Json>, max: nat, rest: Bytes)
    requires Limit(max) && forall k :: 0 <= k < |values| ==> Proper(values[k]) && EncodeFrame(values[k], max).Ok?
    ensures Hear(Frames(values, max) + rest, max) == After(Normals(values), rest, max)
  {
    FramesHeard(values, max);
    HearAppends(Frames(values, max), rest, max);
    assert [] + rest == rest;
  }

  /** Bytes after which a decoder stops with an error: a header of zero or above the limit, a body that is no JSON
      text in strict UTF-8, or the end of the stream inside a frame. */
  datatype Ending =
    | Zero(more: Bytes)
    | Large(length: nat, more: Bytes)
    | NotJson(body: Bytes, more: Bytes)
    | Cut(message: Json, length: nat)

  ghost predicate Fails(e: Ending, max: nat)
    requires Limit(max)
  {
    match e
    case Zero(_) => true
    case Large(length, _) => max < length < 0x1_0000_0000
    case NotJson(body, _) => 0 < |body| <= max && forall text :: Decode(body) == Some(text) ==> Parse(text).None?
    case Cut(v, length) => Proper(v) && EncodeFrame(v, max).Ok? && 0 < length < |EncodeFrame(v, max).value|
  }

  function BytesOf(e: Ending, max: nat): Bytes
    requires Limit(max) && Fails(e, max)
  {
    match e
    case Zero(more) => WriteUInt32BE(0) + more
    case Large(length, more) => WriteUInt32BE(length) + more
    case NotJson(body, more) => WriteUInt32BE(|body|) + (body + more)
    case Cut(v, length) => EncodeFrame(v, max).value[..length]
  }

  function CodeOf(e: Ending): Code {
    match e
    case Zero(_) => ZeroLengthFrame
    case Large(_, _) => FrameTooLarge
    case NotJson(_, _) => InvalidJsonFrame
    case Cut(_, _) => TruncatedFrame
  }

  lemma EndingHeard(e: Ending, max: nat)
    requires Limit(max) && Fails(e, max)
    ensures Finished(Hear(BytesOf(e, max), max)) == ([], Some(CodeOf(e)))
  {
    var b := BytesOf(e, max);
    match e
    case Zero(more) => LengthRead(0, more);
    case Large(length, more) => LengthRead(length, more);
    case NotJson(body, more) =>
      LengthRead(|body|, body + more);
      assert b[HEADER_BYTES..HEADER_BYTES + |body|] == body;
    case Cut(v, length) =>
      BodyRead(v);
      var body := Encode(CanonicalSerialize(v));
      if length >= HEADER_BYTES {
        LengthRead(|body|, body[..length - HEADER_BYTES]);
        assert b == WriteUInt32BE(|body|) + body[..length - HEADER_BYTES];
      }
  }

  /** Whatever a stream starts to fail with after whole frames, the messages before it are delivered in order and the
      error is the one that ending has. */
  lemma FramesThenFail(values: seq<Json>, e: Ending, max: nat, chunks: seq<Bytes>)
    requires Limit(max) && forall k :: 0 <= k < |values| ==> Proper(values[k]) && EncodeFrame(values[k], max).Ok?
    requires Fails(e, max) && Joined(chunks) == Frames(values, max) + BytesOf(e, max)
    ensures Finished(Hear(Joined(chunks), max)) == (Normals(values), Some(CodeOf(e)))
  {
    HeardThen(values, max, BytesOf(e, max));
    EndingHeard(e, max);
    assert Normals(values) + [] == Normals(values);
  }
}
