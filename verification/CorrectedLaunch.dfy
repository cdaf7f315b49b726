/**
 * One launch that may be corrected, end to end: output bytes in arbitrary
 * chunks, the questions asked between them, the observed events and the
 * durable journal they write through to.
 */
module CorrectedLaunch {
  import opened Wrappers
  import opened Identifiers
  import opened Json
  import opened ClaudeStream
  import opened StreamReader
  import opened CorrectionState
  import opened CorrectedStream
  import opened OutputText
  import Corrections

  /** The parent row may be another at every event; `owners` gives the one that each event's write joins. */
  datatype Launch = Launch(parent: JobId, mode: Mode, decode: seq<byte> -> Decoded, owners: nat -> Option<Owner>)

  datatype Journaled = Journaled(state: State, store: Store)

  function Memory(j: Journaled): Corrections.Launch {
    Corrections.Live(j.state.memory, j.store)
  }

  type Question = i: Corrections.Input | i.Ask? witness Corrections.Ask(false, false, None, "", 0, 0)

  /** One structured line: the event is checked and observed, and what it needs is written to the journal. */
  function SeeLine(l: Launch, j: Journaled, line: seq<byte>): Option<Journaled> {
    match l.decode(line)
    case BlankLine => Some(j)
    case Malformed => None
    case Parsed(e) => SeeEvent(l, j, e)
  }

  function SeeEvent(l: Launch, j: Journaled, e: Event): Option<Journaled> {
    var next := See(j.state, e);
    if next.None? then None
    else
      var call := Corrections.ObserveEvent(j.state.memory, e).call;
      var served := Corrections.Serve(j.store, l.owners(j.state.reader.count), l.parent, call);
      if served.Err? then None else Some(Journaled(next.value, served.value))
  }

  function LineHandler(l: Launch): Handler<Journaled> {
    (j: Journaled, line: seq<byte>) => SeeLine(l, j, line)
  }

  /** The launch always holds its initial frame. */
  function AskNow(l: Launch, j: Journaled, owner: Option<Owner>, q: Question): Option<Journaled> {
    if j.state.memory.frames == [] then None
    else
      match Corrections.Feed(Memory(j), owner, l.parent, q)
      case Lost(_) => None
      case Live(memory, store) => Some(Journaled(j.state.(memory := memory), store))
  }

  /** What the runtime does in turn: drain the output that arrived, or ask for the correction. */
  datatype Step = Arrived(chunks: seq<seq<byte>>) | Asked(owner: Option<Owner>, question: Question)

  function Do(l: Launch, b: Buffers<Journaled>, step: Step): Option<Buffers<Journaled>> {
    match step
    case Arrived(chunks) => FeedChunks(LimitsOf(l.mode), LineHandler(l), b, chunks)
    case Asked(owner, q) =>
      var next := AskNow(l, b.inner, owner, q);
      if next.None? then None else Some(b.(inner := next.value))
  }

  function DoAll(l: Launch, b: Buffers<Journaled>, steps: seq<Step>): Option<Buffers<Journaled>>
    decreases |steps|
  {
    if steps == [] then Some(b)
    else
      var next := Do(l, b, steps[0]);
      if next.None? then None else DoAll(l, next.value, steps[1..])
  }

  /** The whole launch; it is refused at its end unless every input was processed. */
  function Outcome(l: Launch, start: Journaled, steps: seq<Step>): Option<Journaled> {
    var b := DoAll(l, Start(start), steps);
    if b.None? then None
    else
      var last := FinishStream(LimitsOf(l.mode), LineHandler(l), b.value);
      if last.None? || !last.value.inner.state.memory.complete then None else Some(last.value.inner)
  }

  // ----- the journal never refuses what the stream accepts -----

  predicate BoundTo(owner: Option<Owner>, session: string) {
    Bound(owner) && owner.value.native == session
  }

  ghost predicate AlwaysBound(l: Launch, session: string) {
    forall n: nat :: BoundTo(l.owners(n), session)
  }

  /** Memory, journal and retained events all tell the same story. */
  ghost predicate Well(l: Launch, first: Reader, session: string, j: Journaled) {
    && Shadowed(first, j.state) && TerminalOk(j.state)
    && Corrections.Joined(Memory(j), l.parent)
    && j.state.memory.session == session
  }

  lemma SeeEventKeeps(l: Launch, first: Reader, session: string, j: Journaled, e: Event)
    requires Well(l, first, session, j) && AlwaysBound(l, session)
    ensures SeeEvent(l, j, e).Some? <==> See(j.state, e).Some?
    ensures SeeEvent(l, j, e).Some? ==> Well(l, first, session, SeeEvent(l, j, e).value)
  {
    hide Check, ValidateTerminal, SessionAfter, Written, Shadowed, TerminalOk, Corrections.ObserveEvent,
      Corrections.Serve, Corrections.Agrees, Sound;
    var owner := l.owners(j.state.reader.count);
    assert BoundTo(owner, session);
    if See(j.state, e).Some? {
      Corrections.SeeKeepsJoined(j.state.memory, j.store, owner, l.parent, e);
      SeeKeepsShadow(first, j.state, e);
      SeeKeepsTerminal(j.state, e);
    }
  }

  lemma AskKeeps(l: Launch, first: Reader, session: string, j: Journaled, owner: Option<Owner>, q: Question)
    requires Well(l, first, session, j) && BoundTo(owner, session)
    ensures AskNow(l, j, owner, q).Some? && Well(l, first, session, AskNow(l, j, owner, q).value)
  {
    hide ClaimChild, Corrections.Feed, Corrections.Agrees, Sound, Joined, Lines, Terminal;
    assert j.state.memory.frames != [] by {
      AgreeingHolds(j.state.memory, j.store, l.parent);
    }
    Corrections.AskKeepsJoined(Memory(j), owner, l.parent, q);
    AskLeavesResults(Memory(j), owner, l.parent, q);
  }

  lemma AgreeingHolds(m: Corrections.Memory, s: Store, parent: JobId)
    requires Corrections.Agrees(m, s, parent)
    ensures m.frames != []
  {
  }

  lemma AskLeavesResults(m: Corrections.Launch, owner: Option<Owner>, parent: JobId, q: Question)
    requires m.Live? && m.memory.frames != [] && Corrections.Feed(m, owner, parent, q).Live?
    ensures var after := Corrections.Feed(m, owner, parent, q).memory;
            after.results == m.memory.results && after.complete == m.memory.complete
  {
    hide ClaimChild;
  }

  lemma SeeLineKeeps(l: Launch, first: Reader, session: string, j: Journaled, line: seq<byte>)
    requires Well(l, first, session, j) && AlwaysBound(l, session) && SeeLine(l, j, line).Some?
    ensures Well(l, first, session, SeeLine(l, j, line).value)
  {
    hide Well, AlwaysBound, SeeEvent;
    if l.decode(line).Parsed? {
      SeeEventKeeps(l, first, session, j, l.decode(line).event);
    }
  }

  lemma {:induction false} DrainKeepsWell(l: Launch, limits: Limits, first: Reader, session: string, j: Journaled,
                                          pending: seq<byte>)
    requires Well(l, first, session, j) && AlwaysBound(l, session)
    ensures var d := Drain(limits, LineHandler(l), j, pending); d.Some? ==> Well(l, first, session, d.value.inner)
    decreases |pending|
  {
    hide SeeLine, Well, AlwaysBound;
    var end := Find(pending);
    if end >= 0 {
      var next := Handle(limits, LineHandler(l), j, pending[..end]);
      if next.Some? {
        SeeLineKeeps(l, first, session, j, pending[..end]);
        DrainKeepsWell(l, limits, first, session, next.value, pending[end + 1..]);
      }
    }
  }

  // ----- the cuts between two questions do not matter -----

  /** The same steps with the output between two questions arriving at once. */
  function Whole(steps: seq<Step>): (r: seq<Step>)
    ensures |r| == |steps|
  {
    seq(|steps|, i requires 0 <= i < |steps| =>
      if steps[i].Arrived? then Arrived([Concat(steps[i].chunks)]) else steps[i])
  }

  lemma WholeTail(steps: seq<Step>)
    requires steps != []
    ensures Whole(steps)[1..] == Whole(steps[1..])
  {
  }

  ghost predicate Ready(l: Launch, first: Reader, session: string, b: Buffers<Journaled>) {
    Settled(LimitsOf(l.mode), b) && Well(l, first, session, b.inner)
  }

  lemma OneChunk(chunk: seq<byte>)
    ensures Concat([chunk]) == chunk
  {
    assert [chunk][1..] == [];
  }

  lemma ArrivedKeeps(l: Launch, first: Reader, session: string, b: Buffers<Journaled>, chunks: seq<seq<byte>>)
    requires Ready(l, first, session, b) && AlwaysBound(l, session)
    ensures Do(l, b, Arrived(chunks)) == Do(l, b, Arrived([Concat(chunks)]))
    ensures Do(l, b, Arrived(chunks)).Some? ==> Ready(l, first, session, Do(l, b, Arrived(chunks)).value)
  {
    hide Drain, Well, AlwaysBound, Settled, SeeLine;
    var limits, handler, all := LimitsOf(l.mode), LineHandler(l), Concat(chunks);
    ChunksFeedAlike(limits, handler, b, chunks);
    ChunksFeedAlike(limits, handler, b, [all]);
    OneChunk(all);
    if FeedChunk(limits, handler, b, all).Some? {
      FeedSettles(limits, handler, b, all);
      DrainKeepsWell(l, limits, first, session, b.inner, b.pending + all);
    }
  }

  /** No step of a bound launch fails for its question, and each keeps what the next one needs. */
  lemma DoKeeps(l: Launch, first: Reader, session: string, b: Buffers<Journaled>, step: Step)
    requires Ready(l, first, session, b) && AlwaysBound(l, session)
    requires step.Asked? ==> BoundTo(step.owner, session)
    ensures step.Asked? ==> Do(l, b, step).Some?
    ensures Do(l, b, step).Some? ==> Ready(l, first, session, Do(l, b, step).value)
  {
    hide Well, AlwaysBound, AskNow, FeedChunks, BoundTo;
    match step
    case Arrived(chunks) => ArrivedKeeps(l, first, session, b, chunks);
    case Asked(owner, q) => AskKeeps(l, first, session, b.inner, owner, q);
  }

  lemma {:induction false} DoAllKeeps(l: Launch, first: Reader, session: string, b: Buffers<Journaled>,
                                      steps: seq<Step>)
    requires Ready(l, first, session, b) && AlwaysBound(l, session)
    requires forall i :: 0 <= i < |steps| && steps[i].Asked? ==> BoundTo(steps[i].owner, session)
    ensures DoAll(l, b, Whole(steps)) == DoAll(l, b, steps)
    ensures DoAll(l, b, steps).Some? ==> Ready(l, first, session, DoAll(l, b, steps).value)
    decreases |steps|
  {
    hide Do, Ready, AlwaysBound, BoundTo;
    if steps != [] {
      DoKeeps(l, first, session, b, steps[0]);
      if steps[0].Arrived? {
        ArrivedKeeps(l, first, session, b, steps[0].chunks);
      }
      WholeTail(steps);
      if Do(l, b, steps[0]).Some? {
        DoAllKeeps(l, first, session, Do(l, b, steps[0]).value, steps[1..]);
      }
    }
  }

  lemma OutcomeIsWell(l: Launch, s: Store, owner: Option<Owner>, frame: Frame, root: string, steps: seq<Step>,
                      first: Reader)
    requires Sound(s) && PrepareRun(s, owner, l.parent, frame, root).Ok? && AlwaysBound(l, frame.session)
    requires forall i :: 0 <= i < |steps| && steps[i].Asked? ==> BoundTo(steps[i].owner, frame.session)
    requires !first.terminalSeen
    ensures var start := Journaled(Begin(frame, first), PrepareRun(s, owner, l.parent, frame, root).value);
            var outcome := Outcome(l, start, steps);
            && Outcome(l, start, Whole(steps)) == outcome
            && (outcome.Some? ==> Well(l, first, frame.session, outcome.value) && outcome.value.state.memory.complete)
  {
    hide AlwaysBound, BoundTo, PrepareRun, DoAll, SeeLine, Shadowed, TerminalOk, Sound, Corrections.Agrees;
    var start := Journaled(Begin(frame, first), PrepareRun(s, owner, l.parent, frame, root).value);
    BeginsWell(frame, first);
    Corrections.PrepareAgrees(s, owner, l.parent, frame, root);
    PreparePasses(s, owner, l.parent, frame, root);
    DoAllKeeps(l, first, frame.session, StreamReader.Start(start), steps);
    var b := DoAll(l, StreamReader.Start(start), steps);
    if b.Some? && b.value.pending != [] && SeeLine(l, b.value.inner, b.value.pending).Some? {
      SeeLineKeeps(l, first, frame.session, b.value.inner, b.value.pending);
    }
  }

  /**
   * End to end: a prepared launch whose parent stays bound, and that is
   * accepted, retains events that parse to the joined text of its results, has
   * a journal that validates its completion, and the same outcome however its
   * output was cut between two questions.
   */
  lemma AcceptedLaunchGivesTheJoinedText(l: Launch, s: Store, owner: Option<Owner>, frame: Frame, root: string,
                                         steps: seq<Step>, size: Event -> nat, expected: Option<string>,
                                         requested: Option<string>)
    requires Sound(s) && PrepareRun(s, owner, l.parent, frame, root).Ok? && AlwaysBound(l, frame.session)
    requires forall i :: 0 <= i < |steps| && steps[i].Asked? ==> BoundTo(steps[i].owner, frame.session)
    ensures var start := Journaled(Begin(frame, Fresh(expected, l.mode, size)),
                                   PrepareRun(s, owner, l.parent, frame, root).value);
            var outcome := Outcome(l, start, steps);
            && Outcome(l, start, Whole(steps)) == outcome
            && (outcome.Some? ==>
                  && GivesTheJoinedText(outcome.value.state, l.mode, expected, requested)
                  && Sound(outcome.value.store) && ConfirmCompletion(outcome.value.store, l.parent).Ok?)
  {
    hide AlwaysBound, BoundTo, PrepareRun, DoAll, SeeLine, Outcome, Shadowed, TerminalOk, GivesTheJoinedText, Sound,
      ConfirmCompletion, Corrections.Agrees;
    var first, store := Fresh(expected, l.mode, size), PrepareRun(s, owner, l.parent, frame, root).value;
    OutcomeIsWell(l, s, owner, frame, root, steps, first);
    var outcome := Outcome(l, Journaled(Begin(frame, first), store), steps);
    if outcome.Some? {
      WellMeansJoined(outcome.value.state, size, l.mode, expected, requested);
      Corrections.CompleteIffConfirmed(outcome.value.state.memory, outcome.value.store, l.parent);
    }
  }

  /**
   * What the worker is told of an accepted launch: the joined text, or the
   * only result's failure, if no retained string holds a line separator, and
   * a refusal otherwise.
   */
  lemma AcceptedLaunchIsTold(l: Launch, s: Store, owner: Option<Owner>, frame: Frame, root: string, steps: seq<Step>,
                             write: Writing, read: Reading, expected: Option<string>, requested: Option<string>)
    requires Sound(s) && PrepareRun(s, owner, l.parent, frame, root).Ok? && AlwaysBound(l, frame.session)
    requires forall i :: 0 <= i < |steps| && steps[i].Asked? ==> BoundTo(steps[i].owner, frame.session)
    requires var start := Journaled(Begin(frame, Fresh(expected, l.mode, SizeOf(write))),
                                    PrepareRun(s, owner, l.parent, frame, root).value);
             var outcome := Outcome(l, start, steps);
             outcome.Some? && AllWritten(write, read, Projection(outcome.value.state.kept))
    ensures var start := Journaled(Begin(frame, Fresh(expected, l.mode, SizeOf(write))),
                                   PrepareRun(s, owner, l.parent, frame, root).value);
            var state := Outcome(l, start, steps).value.state;
            var text := TextOf(LinesFor(write, Projection(state.kept)));
            var told := ParseText(read, text, l.mode, expected, requested, 0);
            if AllBreakless(Projection(state.kept)) then JoinedVerdict(told, state.memory.results) else told.Refused?
  {
    hide AlwaysBound, BoundTo, PrepareRun, DoAll, Outcome, TerminalOk, Sound, JoinedVerdict, Parse, ParseText, Lines,
      AllWritten, AllBreakless, Projection, Corrections.Joined;
    var first, store := Fresh(expected, l.mode, SizeOf(write)), PrepareRun(s, owner, l.parent, frame, root).value;
    OutcomeIsWell(l, s, owner, frame, root, steps, first);
    var state := Outcome(l, Journaled(Begin(frame, first), store), steps).value.state;
    WellMeansJoined(state, SizeOf(write), l.mode, expected, requested);
    OutputIsWritten(write, first, state.kept);
    WrittenParses(write, read, Projection(state.kept), l.mode, expected, requested, 0);
  }
}
