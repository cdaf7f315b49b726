/**
 * The incremental reader: bytes arrive in arbitrary chunks, complete lines are
 * handled as soon as they end, and the outcome depends on the bytes alone.
 */
module StreamReader {
  import opened Wrappers
  import opened Json
  import opened ClaudeStream

  newtype byte = b: int | 0 <= b < 256

  const NEWLINE: byte := 10

  /** Byte bounds of one reader: the whole stream, and one event where its mode bounds events. */
  datatype Limits = Limits(stream: nat, event: Option<nat>, keepsRaw: bool)

  /** The bounds under which evidence is retained instead of the raw bytes. */
  function LimitsOf(mode: Mode): Limits {
    Limits(ByteLimit(mode), if mode.Files? then Some(4 * 1024 * 1024) else None, false)
  }

  /** What one raw line does to everything behind the byte buffers; None raises. */
  type Handler<!S> = (S, seq<byte>) -> Option<S>

  datatype Buffers<S> = Buffers(received: nat, raw: seq<byte>, pending: seq<byte>, inner: S)

  function Start<S>(inner: S): Buffers<S> {
    Buffers(0, [], [], inner)
  }

  /** bytearray.find for the newline: the first index, or -1. */
  function Find(bytes: seq<byte>): (i: int)
    ensures -1 <= i < |bytes|
  {
    if bytes == [] then -1
    else if bytes[0] == NEWLINE then 0
    else
      var rest := Find(bytes[1..]);
      if rest == -1 then -1 else rest + 1
  }

  predicate TooLong(limits: Limits, bytes: seq<byte>) {
    limits.event.Some? && |bytes| > limits.event.value
  }

  function Handle<S>(limits: Limits, handler: Handler<S>, inner: S, line: seq<byte>): Option<S> {
    if TooLong(limits, line) then None else handler(inner, line)
  }

  datatype Drained<S> = Drained(inner: S, rest: seq<byte>)

  /** Every complete line of the pending bytes, in order. */
  function Drain<S>(limits: Limits, handler: Handler<S>, inner: S, pending: seq<byte>): Option<Drained<S>>
    decreases |pending|
  {
    var end := Find(pending);
    if end < 0 then Some(Drained(inner, pending))
    else
      var next := Handle(limits, handler, inner, pending[..end]);
      if next.None? then None else Drain(limits, handler, next.value, pending[end + 1..])
  }

  function FeedChunk<S>(limits: Limits, handler: Handler<S>, b: Buffers<S>, chunk: seq<byte>): Option<Buffers<S>> {
    if b.received + |chunk| > limits.stream then None
    else
      var d := Drain(limits, handler, b.inner, b.pending + chunk);
      if d.None? || TooLong(limits, d.value.rest) then None
      else Some(Buffers(b.received + |chunk|, if limits.keepsRaw then b.raw + chunk else b.raw, d.value.rest,
                        d.value.inner))
  }

  function FeedChunks<S>(limits: Limits, handler: Handler<S>, b: Buffers<S>, chunks: seq<seq<byte>>): Option<Buffers<S>>
    decreases |chunks|
  {
    if chunks == [] then Some(b)
    else
      var next := FeedChunk(limits, handler, b, chunks[0]);
      if next.None? then None else FeedChunks(limits, handler, next.value, chunks[1..])
  }

  function FinishStream<S>(limits: Limits, handler: Handler<S>, b: Buffers<S>): Option<Buffers<S>> {
    if b.pending == [] then Some(b)
    else
      var next := Handle(limits, handler, b.inner, b.pending);
      if next.None? then None else Some(b.(pending := [], inner := next.value))
  }

  function Accept<S>(limits: Limits, handler: Handler<S>, inner: S, chunks: seq<seq<byte>>): Option<Buffers<S>> {
    var b := FeedChunks(limits, handler, Start(inner), chunks);
    if b.None? then None else FinishStream(limits, handler, b.value)
  }

  function Concat(chunks: seq<seq<byte>>): seq<byte> {
    if chunks == [] then [] else chunks[0] + Concat(chunks[1..])
  }

  // ----- chunking does not matter -----

  lemma {:induction false} FindIsFirst(bytes: seq<byte>, i: nat)
    requires i < |bytes| && bytes[i] == NEWLINE && NEWLINE !in bytes[..i]
    ensures Find(bytes) == i
  {
    if i > 0 {
      assert bytes[0] in bytes[..i];
      assert bytes[1..][..i - 1] == bytes[..i][1..];
      FindIsFirst(bytes[1..], i - 1);
    }
  }

  lemma {:induction false} FindFinds(bytes: seq<byte>)
    ensures var i := Find(bytes);
            if i < 0 then NEWLINE !in bytes else bytes[i] == NEWLINE && NEWLINE !in bytes[..i]
  {
    if bytes != [] && bytes[0] != NEWLINE {
      FindFinds(bytes[1..]);
      assert bytes == [bytes[0]] + bytes[1..];
      var rest := Find(bytes[1..]);
      if rest >= 0 {
        assert bytes[..rest + 1] == [bytes[0]] + bytes[1..][..rest];
      }
    }
  }

  lemma FindInPrefix(a: seq<byte>, b: seq<byte>)
    ensures Find(a) >= 0 ==> Find(a + b) == Find(a)
    ensures Find(a) < 0 && Find(a + b) >= 0 ==> Find(a + b) >= |a|
  {
    assert forall k :: 0 <= k < |a| ==> (a + b)[k] == a[k];
    var i := Find(a);
    FindFinds(a);
    FindFinds(a + b);
    if i >= 0 {
      assert (a + b)[..i] == a[..i];
      FindIsFirst(a + b, i);
    }
  }

  lemma {:induction false} DrainInTwo<S>(limits: Limits, handler: Handler<S>, inner: S, a: seq<byte>, b: seq<byte>)
    ensures var first := Drain(limits, handler, inner, a);
            Drain(limits, handler, inner, a + b)
            == if first.None? then None else Drain(limits, handler, first.value.inner, first.value.rest + b)
    decreases |a|
  {
    FindInPrefix(a, b);
    var end := Find(a);
    if end >= 0 {
      assert (a + b)[..end] == a[..end];
      assert (a + b)[end + 1..] == a[end + 1..] + b;
      var next := Handle(limits, handler, inner, a[..end]);
      if next.Some? {
        DrainInTwo(limits, handler, next.value, a[end + 1..], b);
      }
    }
  }

  lemma {:induction false} DrainLeavesNoLine<S>(limits: Limits, handler: Handler<S>, inner: S, a: seq<byte>)
    ensures var d := Drain(limits, handler, inner, a);
            d.Some? ==> Find(d.value.rest) < 0
    decreases |a|
  {
    var end := Find(a);
    if end >= 0 {
      var next := Handle(limits, handler, inner, a[..end]);
      if next.Some? {
        DrainLeavesNoLine(limits, handler, next.value, a[end + 1..]);
      }
    }
  }

  /** An unfinished line that is already too long can only end badly. */
  lemma LongLineStaysLong<S>(limits: Limits, handler: Handler<S>, inner: S, rest: seq<byte>, more: seq<byte>)
    requires Find(rest) < 0 && TooLong(limits, rest)
    ensures var d := Drain(limits, handler, inner, rest + more);
            d.None? || TooLong(limits, d.value.rest)
  {
    FindInPrefix(rest, more);
  }

  lemma FeedInTwo<S>(limits: Limits, handler: Handler<S>, b: Buffers<S>, a: seq<byte>, c: seq<byte>)
    ensures var first := FeedChunk(limits, handler, b, a);
            FeedChunk(limits, handler, b, a + c)
            == if first.None? then None else FeedChunk(limits, handler, first.value, c)
  {
    assert b.pending + (a + c) == (b.pending + a) + c;
    DrainInTwo(limits, handler, b.inner, b.pending + a, c);
    var d := Drain(limits, handler, b.inner, b.pending + a);
    if d.Some? {
      DrainLeavesNoLine(limits, handler, b.inner, b.pending + a);
      if TooLong(limits, d.value.rest) {
        LongLineStaysLong(limits, handler, d.value.inner, d.value.rest, c);
      }
      assert b.raw + (a + c) == b.raw + a + c;
    }
  }

  predicate Settled<S>(limits: Limits, b: Buffers<S>) {
    b.received <= limits.stream && Find(b.pending) < 0 && !TooLong(limits, b.pending)
  }

  lemma FeedSettles<S>(limits: Limits, handler: Handler<S>, b: Buffers<S>, chunk: seq<byte>)
    requires FeedChunk(limits, handler, b, chunk).Some?
    ensures Settled(limits, FeedChunk(limits, handler, b, chunk).value)
  {
    DrainLeavesNoLine(limits, handler, b.inner, b.pending + chunk);
  }

  /** Any chunking leaves the reader, its callbacks and its errors as one whole feed does. */
  lemma {:induction false} ChunksFeedAlike<S>(limits: Limits, handler: Handler<S>, b: Buffers<S>,
                                              chunks: seq<seq<byte>>)
    requires Settled(limits, b)
    ensures FeedChunks(limits, handler, b, chunks) == FeedChunk(limits, handler, b, Concat(chunks))
    decreases |chunks|
  {
    if chunks == [] {
      assert b.pending + [] == b.pending && b.raw + [] == b.raw;
    } else {
      FeedInTwo(limits, handler, b, chunks[0], Concat(chunks[1..]));
      var next := FeedChunk(limits, handler, b, chunks[0]);
      if next.Some? {
        FeedSettles(limits, handler, b, chunks[0]);
        ChunksFeedAlike(limits, handler, next.value, chunks[1..]);
      }
    }
  }

  /** The same bytes are accepted or refused alike, with the same result, however they were cut. */
  lemma ChunkingIsInvisible<S>(limits: Limits, handler: Handler<S>, inner: S, one: seq<seq<byte>>,
                               other: seq<seq<byte>>)
    requires Concat(one) == Concat(other)
    ensures Accept(limits, handler, inner, one) == Accept(limits, handler, inner, other)
  {
    ChunksFeedAlike(limits, handler, Start(inner), one);
    ChunksFeedAlike(limits, handler, Start(inner), other);
  }

  // ----- the evidence reader behind the buffers -----

  datatype Decoded = BlankLine | Malformed | Parsed(event: Event)

  /** Events seen and events kept: the projection is all that reaches the final parse. */
  datatype FileReader = FileReader(state: Reader, seen: seq<Event>, kept: seq<Event>)

  function FileStart(first: Reader): FileReader {
    FileReader(first, [], [])
  }

  function FileLine(decode: seq<byte> -> Decoded, f: FileReader, line: seq<byte>): Option<FileReader> {
    match decode(line)
    case BlankLine => Some(f)
    case Malformed => None
    case Parsed(e) =>
      var next := ClaudeStream.Line(f.state, e);
      if next.None? then None
      else Some(FileReader(next.value, f.seen + [e], f.kept + if Retained(e) then [Project(e)] else []))
  }

  ghost predicate FileOk(first: Reader, f: FileReader) {
    && Lines(first, f.seen) == Some(f.state)
    && f.kept == Projection(f.seen)
  }

  lemma FileLineKeeps(decode: seq<byte> -> Decoded, first: Reader, f: FileReader, line: seq<byte>)
    requires FileOk(first, f) && FileLine(decode, f, line).Some?
    ensures FileOk(first, FileLine(decode, f, line).value)
  {
    if decode(line).Parsed? {
      LinesAppend(first, f.seen, decode(line).event);
      ProjectionAppend(f.seen, decode(line).event);
    }
  }

  function FileHandler(decode: seq<byte> -> Decoded): Handler<FileReader> {
    (f: FileReader, line: seq<byte>) => FileLine(decode, f, line)
  }

  lemma {:induction false} DrainKeeps(limits: Limits, decode: seq<byte> -> Decoded, first: Reader,
                                      f: FileReader, pending: seq<byte>)
    requires FileOk(first, f)
    ensures var d := Drain(limits, FileHandler(decode), f, pending);
            d.Some? ==> FileOk(first, d.value.inner)
    decreases |pending|
  {
    hide FileLine, FileOk;
    var end := Find(pending);
    if end >= 0 {
      var next := Handle(limits, FileHandler(decode), f, pending[..end]);
      if next.Some? {
        FileLineKeeps(decode, first, f, pending[..end]);
        DrainKeeps(limits, decode, first, next.value, pending[end + 1..]);
      }
    }
  }

  /** What an accepted stream leaves behind the buffers, and that its bytes stayed within the limit. */
  lemma AcceptedBytes(limits: Limits, decode: seq<byte> -> Decoded, first: Reader, chunks: seq<seq<byte>>)
    requires Accept(limits, FileHandler(decode), FileStart(first), chunks).Some?
    ensures FileOk(first, Accept(limits, FileHandler(decode), FileStart(first), chunks).value.inner)
    ensures |Concat(chunks)| <= limits.stream
  {
    hide FileLine, Drain;
    var handler := FileHandler(decode);
    ChunksFeedAlike(limits, handler, Start(FileStart(first)), chunks);
    DrainKeeps(limits, decode, first, FileStart(first), [] + Concat(chunks));
    var b := FeedChunks(limits, handler, Start(FileStart(first)), chunks).value;
    if b.pending != [] {
      FileLineKeeps(decode, first, b.inner, b.pending);
    }
  }

  /**
   * End to end: for every byte stream and every chunking the reader accepts,
   * the events are those of the whole stream, and parsing what was retained
   * gives the verdict of parsing all of them.
   */
  lemma AcceptedBytesKeepTheVerdict(decode: seq<byte> -> Decoded, size: Event -> nat, mode: Mode,
                                    chunks: seq<seq<byte>>, expected: Option<string>, requested: Option<string>,
                                    returncode: int)
    requires Accept(LimitsOf(mode), FileHandler(decode), FileStart(Fresh(expected, mode, size)), chunks).Some?
    ensures var start := FileStart(Fresh(expected, mode, size));
            var f := Accept(LimitsOf(mode), FileHandler(decode), start, chunks).value.inner;
            && Accept(LimitsOf(mode), FileHandler(decode), start, [Concat(chunks)]).Some?
            && f == Accept(LimitsOf(mode), FileHandler(decode), start, [Concat(chunks)]).value.inner
            && Parse(f.kept, f.state.output, mode, expected, requested, returncode)
               == Parse(f.seen, |Concat(chunks)|, mode, expected, requested, returncode)
  {
    hide FileLine, Drain, Accept, Parse, Line;
    var start, handler := FileStart(Fresh(expected, mode, size)), FileHandler(decode);
    assert Concat([Concat(chunks)]) == Concat(chunks) by {
      assert [Concat(chunks)][1..] == [];
    }
    ChunkingIsInvisible(LimitsOf(mode), handler, start, chunks, [Concat(chunks)]);
    AcceptedBytes(LimitsOf(mode), decode, Fresh(expected, mode, size), chunks);
    var f := Accept(LimitsOf(mode), handler, start, chunks).value.inner;
    ProjectionKeepsTheVerdict(f.seen, size, |Concat(chunks)|, mode, expected, requested, returncode);
  }

  // ----- the reader itself -----

  class ClaudeStreamReader<S> {
    const limits: Limits
    const handler: Handler<S>
    var received: nat
    var raw: seq<byte>
    var pending: seq<byte>
    var inner: S

    constructor (limits: Limits, handler: Handler<S>, inner: S)
      ensures this.limits == limits && this.handler == handler && State() == Start(inner)
    {
      this.limits, this.handler := limits, handler;
      received, raw, pending, this.inner := 0, [], [], inner;
    }

    function State(): Buffers<S>
      reads this
    {
      Buffers(received, raw, pending, inner)
    }

    method Feed(chunk: seq<byte>) returns (ok: bool)
      modifies this
      ensures ok == FeedChunk(limits, handler, old(State()), chunk).Some?
      ensures ok ==> State() == FeedChunk(limits, handler, old(State()), chunk).value
    {
      received := received + |chunk|;
      if received > limits.stream {
        return false;
      }
      if limits.keepsRaw {
        raw := raw + chunk;
      }
      pending := pending + chunk;
      var end := Find(pending);
      while end >= 0
        invariant end == Find(pending)
        invariant received == old(received) + |chunk| && raw == if limits.keepsRaw then old(raw) + chunk else old(raw)
        invariant Drain(limits, handler, inner, pending) == Drain(limits, handler, old(inner), old(pending) + chunk)
        decreases |pending|
      {
        var line := pending[..end];
        var next := Handle(limits, handler, inner, line);
        if next.None? {
          return false;
        }
        inner := next.value;
        pending := pending[end + 1..];
        end := Find(pending);
      }
      ok := !TooLong(limits, pending);
    }

    method Finish() returns (ok: bool)
      modifies this
      ensures ok == FinishStream(limits, handler, old(State())).Some?
      ensures ok ==> State() == FinishStream(limits, handler, old(State())).value
    {
      if pending != [] {
        var next := Handle(limits, handler, inner, pending);
        if next.None? {
          return false;
        }
        inner := next.value;
        pending := [];
      }
      ok := true;
    }
  }
}
