/**
 * The incremental reader against a reader of the whole output: cut at its
 * newlines, each line within its limit, handled in order, the last one too
 * unless it is empty.
 */
module StreamLines {
  import opened Wrappers
  import opened StreamReader
  import opened ClaudeStream

  /** The pieces between newlines; the last one is what follows the last newline. */
  function Cut(bytes: seq<byte>): (lines: seq<seq<byte>>)
    ensures lines != []
  {
    if bytes == [] then [[]]
    else
      var rest := Cut(bytes[1..]);
      if bytes[0] == 10 then [[]] + rest else [[bytes[0]] + rest[0]] + rest[1..]
  }

  function Rejoined(lines: seq<seq<byte>>): seq<byte>
    requires lines != []
  {
    if |lines| == 1 then lines[0] else lines[0] + [10] + Rejoined(lines[1..])
  }

  lemma RejoinsAfter(first: seq<byte>, rest: seq<seq<byte>>)
    requires rest != []
    ensures Rejoined([first] + rest) == first + [10] + Rejoined(rest)
  {
    assert ([first] + rest)[1..] == rest;
  }

  lemma Associates(b: byte, first: seq<byte>, rest: seq<byte>)
    ensures ([b] + first) + [10] + rest == [b] + (first + [10] + rest)
  {
  }

  lemma RejoinsLonger(b: byte, first: seq<byte>, rest: seq<seq<byte>>)
    ensures Rejoined([[b] + first] + rest) == [b] + Rejoined([first] + rest)
  {
    hide Rejoined;
    if rest != [] {
      RejoinsAfter([b] + first, rest);
      RejoinsAfter(first, rest);
      Associates(b, first, Rejoined(rest));
    } else {
      assert [[b] + first] + rest == [[b] + first] && [first] + rest == [first];
      OnePiece([b] + first);
      OnePiece(first);
    }
  }

  /** Cutting loses nothing. */
  lemma {:induction false} CutIsExact(bytes: seq<byte>)
    ensures Rejoined(Cut(bytes)) == bytes
  {
    hide Rejoined;
    if bytes == [] {
      OnePiece([]);
    } else {
      var rest := Cut(bytes[1..]);
      CutIsExact(bytes[1..]);
      RejoinsAfter([], rest);
      assert rest == [rest[0]] + rest[1..];
      RejoinsLonger(bytes[0], rest[0], rest[1..]);
      assert bytes == [bytes[0]] + bytes[1..];
      assert [] + [10] + bytes[1..] == [10] + bytes[1..];
    }
  }

  lemma OnePiece(piece: seq<byte>)
    ensures Rejoined([piece]) == piece
  {
  }

  /** No piece holds a newline. */
  lemma {:induction false} PiecesAreLines(bytes: seq<byte>)
    ensures forall i :: 0 <= i < |Cut(bytes)| ==> 10 !in Cut(bytes)[i]
  {
    if bytes != [] {
      PiecesAreLines(bytes[1..]);
    }
  }

  /** Every line in order, each within the limit of one event. */
  function HandleAll<S>(limits: Limits, handler: Handler<S>, inner: S, lines: seq<seq<byte>>): Option<S>
    decreases |lines|
  {
    if lines == [] then Some(inner)
    else if limits.event.Some? && |lines[0]| > limits.event.value then None
    else
      var next := handler(inner, lines[0]);
      if next.None? then None else HandleAll(limits, handler, next.value, lines[1..])
  }

  /** What there is to handle: a last empty piece is no line. */
  function ToHandle(bytes: seq<byte>): seq<seq<byte>> {
    var lines := Cut(bytes);
    if lines[|lines| - 1] == [] then lines[..|lines| - 1] else lines
  }

  lemma {:induction false} CutAtFirst(bytes: seq<byte>)
    ensures var end := Find(bytes);
            Cut(bytes) == if end < 0 then [bytes] else [bytes[..end]] + Cut(bytes[end + 1..])
  {
    if bytes != [] && bytes[0] != 10 {
      CutAtFirst(bytes[1..]);
      var rest := Find(bytes[1..]);
      if rest < 0 {
        assert [bytes[0]] + bytes[1..] == bytes;
      } else {
        assert bytes[..rest + 1] == [bytes[0]] + bytes[1..][..rest];
        assert bytes[rest + 2..] == bytes[1..][rest + 1..];
      }
    }
  }

  lemma {:induction false} DrainHandlesAll<S>(limits: Limits, handler: Handler<S>, inner: S, pending: seq<byte>)
    ensures var lines := Cut(pending); var n := |lines| - 1;
            var handled := HandleAll(limits, handler, inner, lines[..n]);
            Drain(limits, handler, inner, pending)
            == if handled.None? then None else Some(Drained(handled.value, lines[n]))
    decreases |pending|
  {
    CutAtFirst(pending);
    var end := Find(pending);
    if end >= 0 {
      var rest := Cut(pending[end + 1..]);
      var lines := [pending[..end]] + rest;
      assert lines[..|lines| - 1][1..] == rest[..|rest| - 1];
      var next := Handle(limits, handler, inner, pending[..end]);
      if next.Some? {
        DrainHandlesAll(limits, handler, next.value, pending[end + 1..]);
      }
    }
  }

  lemma {:induction false} HandleInTwo<S>(limits: Limits, handler: Handler<S>, inner: S, lines: seq<seq<byte>>,
                                          last: seq<byte>)
    ensures var before := HandleAll(limits, handler, inner, lines);
            HandleAll(limits, handler, inner, lines + [last])
            == if before.None? then None else Handle(limits, handler, before.value, last)
    decreases |lines|
  {
    if lines == [] {
      assert (lines + [last])[1..] == [];
    } else {
      assert (lines + [last])[1..] == lines[1..] + [last];
      var next := Handle(limits, handler, inner, lines[0]);
      if next.Some? {
        HandleInTwo(limits, handler, next.value, lines[1..], last);
      }
    }
  }

  /**
   * However the output was cut into chunks, it is accepted if and only if it is within the limit of the
   * whole stream and the reader of its lines takes them all; and then that reader's result is what is
   * behind the buffers, which are empty.
   */
  lemma AcceptedIffLinesAre<S>(limits: Limits, handler: Handler<S>, inner: S, chunks: seq<seq<byte>>)
    ensures var all := Concat(chunks);
            var r := Accept(limits, handler, inner, chunks);
            var handled := HandleAll(limits, handler, inner, ToHandle(all));
            && (r.Some? <==> |all| <= limits.stream && handled.Some?)
            && (r.Some? ==>
                  && r.value.inner == handled.value && r.value.pending == [] && r.value.received == |all|
                  && r.value.raw == if limits.keepsRaw then all else [])
  {
    hide Cut, Drain, HandleAll;
    var all := Concat(chunks);
    ChunksFeedAlike(limits, handler, Start(inner), chunks);
    assert [] + all == all;
    DrainHandlesAll(limits, handler, inner, all);
    var lines := Cut(all);
    var n := |lines| - 1;
    assert lines == lines[..n] + [lines[n]];
    HandleInTwo(limits, handler, inner, lines[..n], lines[n]);
    LongLinesFail(limits, handler, inner, lines[..n], lines[n]);
  }

  lemma LongLinesFail<S>(limits: Limits, handler: Handler<S>, inner: S, lines: seq<seq<byte>>, last: seq<byte>)
    ensures TooLong(limits, last) ==> last != [] && HandleAll(limits, handler, inner, lines + [last]).None?
  {
    HandleInTwo(limits, handler, inner, lines, last);
  }

  /** The bounds of a launch: two megabytes of text, or sixty-four of file events of four each. */
  lemma Bounds(mode: Mode)
    ensures LimitsOf(mode)
         == if mode == TextOnly then Limits(2_097_152, None, false) else Limits(67_108_864, Some(4_194_304), false)
  {
  }
}
