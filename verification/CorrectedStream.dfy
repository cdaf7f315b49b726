/**
 * The reader of a launch that may be corrected: receipts, lifecycle events and
 * intermediate results are dropped, and two results are retained as one.
 */
module CorrectedStream {
  import opened Wrappers
  import opened Json
  import opened Texts
  import opened ClaudeStream
  import Corrections
  import CorrectionState

  datatype State = State(reader: Reader, memory: Corrections.Memory, kept: seq<Event>)

  function Begin(frame: CorrectionState.Frame, first: Reader): State {
    State(first, Corrections.Start(frame), [])
  }

  /** Session of the stream after an event, None when the event names another or none. */
  function SessionAfter(r: Reader, e: Event): Option<Option<string>> {
    if "session_id" !in e then Some(r.session)
    else
      var session := SessionId(e["session_id"]);
      if session.None? || (r.session.Some? && r.session != session) then None else Some(session)
  }

  /** One event whose durable write, if it needs one, succeeds. */
  function See(s: State, e: Event): Option<State> {
    var r := s.reader;
    var policy, session := Check(r.policy, e), SessionAfter(r, e);
    if policy.None? || r.count + 1 > EventLimit(r.policy.mode) || session.None? then None
    else if Is(e, "result") && ValidateTerminal(e).None? then None
    else
      var o := Corrections.ObserveEvent(s.memory, e);
      if o.Refused? || o.verdict.Err? then None
      else
        var seen := o.verdict.value;
        var written := if seen.retain then Written(r, seen.event) else r.output;
        if r.terminalSeen && !Suggestion(e) && !(!seen.retain && Is(e, "command_lifecycle")) then None
        else if written > MAX_OUTPUT_BYTES then None
        else
          var terminal := r.terminalSeen || (Is(e, "result") && seen.retain);
          Some(State(Reader(session.value, policy.value, r.count + 1, terminal, written, r.size), o.memory,
                     s.kept + if seen.retain then [seen.event] else []))
  }

  /**
   * An event is taken exactly if policy, session, count and size allow it, a result does not contradict
   * itself, memory observes it, and after the terminal it is a suggestion or a dropped lifecycle event.
   */
  lemma SeenIff(s: State, e: Event)
    ensures var r, o := s.reader, Corrections.ObserveEvent(s.memory, e);
            var named := "session_id" in e;
            && (See(s, e).Some? <==>
                && Check(r.policy, e).Some? && r.count < EventLimit(r.policy.mode)
                && (named ==> e["session_id"].Text? && UuidText(e["session_id"].text)
                              && (r.session.Some? ==> e["session_id"] == Text(r.session.value)))
                && (Get(e, "type") == Text("result") ==> ValidateTerminal(e).Some?)
                && o.Went? && o.verdict.Ok?
                && (r.terminalSeen ==>
                    || Get(e, "type") == Text("prompt_suggestion")
                    || (Get(e, "type") == Text("command_lifecycle") && !o.verdict.value.retain))
                && (if o.verdict.value.retain then Written(r, o.verdict.value.event) else r.output) <= MAX_OUTPUT_BYTES)
            && (See(s, e).Some? ==>
                  var next, kept := See(s, e).value, o.verdict.value;
                  && next.memory == o.memory
                  && next.kept == s.kept + (if kept.retain then [kept.event] else [])
                  && next.reader.session == (if named then Some(e["session_id"].text) else r.session)
                  && next.reader.count == r.count + 1 && next.reader.policy == Check(r.policy, e).value
                  && (next.reader.terminalSeen <==>
                      r.terminalSeen || (Get(e, "type") == Text("result") && kept.retain)))
  {
    hide Check, ValidateTerminal, Written, UuidText, Corrections.ObserveEvent;
  }

  lemma SeeKeepsFrames(s: State, e: Event)
    requires See(s, e).Some?
    ensures See(s, e).value.memory.frames == s.memory.frames
  {
    hide Check, ValidateTerminal, SessionAfter, Written;
  }

  /** The runtime sees events and, between them, asks for the one correction. */
  datatype Input = Saw(event: Event) | Polled(answer: Corrections.Admission)

  function Take(s: State, i: Input): (r: Option<State>)
    requires s.memory.frames != []
    ensures r.Some? ==> r.value.memory.frames != []
  {
    match i
    case Saw(e) => (if See(s, e).Some? then SeeKeepsFrames(s, e); See(s, e) else None)
    case Polled(answer) =>
      if !Corrections.WillAsk(s.memory) then Some(s)
      else
        var polled := Corrections.PollWith(s.memory, answer);
        if polled.Err? then None else Some(s.(memory := polled.value))
  }

  function TakeAll(s: State, inputs: seq<Input>): (r: Option<State>)
    requires s.memory.frames != []
    ensures r.Some? ==> r.value.memory.frames != []
    decreases |inputs|
  {
    if inputs == [] then Some(s)
    else
      var next := Take(s, inputs[0]);
      if next.None? then None else TakeAll(next.value, inputs[1..])
  }

  function JoinedText(results: seq<Event>): string
    requires results != []
  {
    if |results| == 1 then Corrections.ResultText(results[0])
    else Corrections.ResultText(results[0]) + "\n\n" + Corrections.ResultText(results[1])
  }

  /** The one result a complete launch retains. */
  function Joined(results: seq<Event>): Event
    requires results != []
  {
    if |results| == 1 then results[0] else results[1]["result" := Text(JoinedText(results))]
  }

  // ----- the kept events are an accepted stream of their own -----

  /** A reader of the kept events alone stands where this one does, perhaps without having met the session yet. */
  ghost predicate Shadowed(first: Reader, s: State) {
    var plain := Lines(first, s.kept);
    && plain.Some?
    && plain.value.policy == s.reader.policy && plain.value.size == s.reader.size
    && plain.value.count <= s.reader.count && plain.value.output == s.reader.output
    && plain.value.terminalSeen == s.reader.terminalSeen
    && (plain.value.session.None? || plain.value.session == s.reader.session)
  }

  /** The terminal is seen exactly when the launch is complete, and then it is the joined result. */
  predicate TerminalOk(s: State) {
    && s.reader.terminalSeen == s.memory.complete
    && |s.memory.results| <= 2
    && (!s.memory.complete ==> forall e :: e in s.kept ==> !Is(e, "result"))
    && (s.memory.complete ==> s.memory.results != [] && Terminal(s.kept) == Some(Joined(s.memory.results)))
    && (s.memory.complete && |s.memory.results| == 2 ==> Get(s.memory.results[1], "is_error") == Flag(false))
  }

  lemma {:induction false} TrackOnlyToolTurns(p: Policy, kind: Value, blocks: seq<Value>)
    requires kind != Text("assistant") && kind != Text("user")
    ensures TrackBlocks(p, kind, blocks) == p
  {
    if blocks != [] {
      TrackOnlyToolTurns(p, kind, blocks[..|blocks| - 1]);
    }
  }

  /** No policy looks at the text of a result. */
  lemma CheckIgnoresTheText(p: Policy, e: Event, v: Value)
    requires Is(e, "result")
    ensures Check(p, e["result" := v]) == Check(p, e)
  {
    hide StartsWith, EndsWith, TrackBlocks, BlockAllowed, ToolBlock;
    var f := e["result" := v];
    assert forall k :: k != "result" ==> Get(f, k) == Get(e, k) && (k in f <==> k in e);
    assert Content(f) == Content(e);
    assert !BashHeartbeat(p, e) && !BashHeartbeat(p, f);
  }

  /** What is dropped leaves the policy as it was. */
  lemma DroppedKeepsThePolicy(m: Corrections.Memory, p: Policy, e: Event)
    requires Check(p, e).Some?
    requires var o := Corrections.ObserveEvent(m, e); o.Went? && o.verdict.Ok? && !o.verdict.value.retain
    ensures Check(p, e).value == p
  {
    hide EventAllowed, TextOnlyAllowed, BashHeartbeat;
    if Content(e).Items? {
      TrackOnlyToolTurns(p, Get(e, "type"), Content(e).items);
    }
  }

  lemma {:induction false} TerminalAppend(events: seq<Event>, e: Event)
    ensures Is(e, "result") && (forall x :: x in events ==> !Is(x, "result")) ==> Terminal(events + [e]) == Some(e)
    ensures Suggestion(e) && Terminal(events).Some? ==> Terminal(events + [e]) == Terminal(events)
  {
    if events == [] {
      assert (events + [e])[0] == e;
    } else {
      assert (events + [e])[1..] == events[1..] + [e];
      assert (events + [e])[0] == events[0];
      TerminalAppend(events[1..], e);
      if Is(events[0], "result") && Suggestion(e) && Terminal(events).Some? {
        assert forall i :: 1 <= i < |events + [e]| ==> (events + [e])[i] == if i < |events| then events[i] else e;
      }
    }
  }

  lemma ObservedResult(m: Corrections.Memory, e: Event)
    requires Is(e, "result") && |m.results| <= 2
    requires var o := Corrections.ObserveEvent(m, e); o.Went? && o.verdict.Ok?
    ensures var o := Corrections.ObserveEvent(m, e);
            var seen := o.verdict.value;
            && !m.complete && o.memory.results == m.results + [e] && |o.memory.results| <= 2
            && seen.retain == o.memory.complete
            && (seen.retain ==> seen.event == Joined(o.memory.results))
            && (|o.memory.results| == 2 && seen.retain ==>
                  Get(e, "is_error") == Flag(false) && |JoinedText(o.memory.results)| <= MAX_VISIBLE_CHARACTERS)
  {
  }

  lemma ObservedOther(m: Corrections.Memory, e: Event)
    requires !Is(e, "result")
    requires var o := Corrections.ObserveEvent(m, e); o.Went? && o.verdict.Ok?
    ensures var o := Corrections.ObserveEvent(m, e);
            && o.memory.results == m.results && o.memory.complete == m.complete && o.verdict.value.event == e
  {
  }

  lemma JoinedIsValid(e: Event, first: string)
    requires ValidateTerminal(e) == Some(false)
    requires var text := first + "\n\n" + Corrections.ResultText(e); |text| <= MAX_VISIBLE_CHARACTERS
    ensures ValidateTerminal(e["result" := Text(first + "\n\n" + Corrections.ResultText(e))]) == Some(false)
  {
    var text := first + "\n\n" + Corrections.ResultText(e);
    var second := Corrections.ResultText(e);
    var i :| 0 <= i < |second| && !IsSpace(second[i]);
    assert text[|first| + 2 + i] == second[i];
    assert !Blank(text);
    var f := e["result" := Text(text)];
    assert forall k :: k != "result" ==> Get(f, k) == Get(e, k);
  }

  /** The plain reader accepts a retained event whenever this reader accepts the event it came from. */
  lemma RetainedIsAccepted(r: Reader, plain: Reader, e: Event, kept: Event)
    requires plain.policy == r.policy && plain.size == r.size && plain.count <= r.count && plain.output == r.output
    requires plain.terminalSeen == r.terminalSeen && (plain.session.None? || plain.session == r.session)
    requires Check(r.policy, e).Some? && Check(r.policy, kept) == Check(r.policy, e)
    requires r.count + 1 <= EventLimit(r.policy.mode) && SessionAfter(r, e).Some?
    requires Is(kept, "result") ==> ValidateTerminal(kept).Some?
    requires Is(kept, "result") == Is(e, "result") && Suggestion(kept) == Suggestion(e)
    requires Get(kept, "session_id") == Get(e, "session_id") && ("session_id" in kept <==> "session_id" in e)
    requires (r.terminalSeen ==> Suggestion(e)) && Written(r, kept) <= MAX_OUTPUT_BYTES
    ensures var next := Line(plain, kept);
            && next.Some? && next.value.policy == Check(r.policy, e).value && next.value.size == r.size
            && next.value.count <= r.count + 1 && next.value.output == Written(r, kept)
            && next.value.terminalSeen == (r.terminalSeen || Is(e, "result"))
            && (next.value.session.None? || next.value.session == SessionAfter(r, e).value)
  {
    hide Check, ValidateTerminal, SessionId;
  }

  lemma SessionKept(r: Reader, e: Event)
    requires SessionAfter(r, e).Some?
    ensures r.session.Some? ==> SessionAfter(r, e).value == r.session
  {
  }

  /** How the retained form of an event relates to the event. */
  lemma RetainedForm(m: Corrections.Memory, p: Policy, e: Event)
    requires |m.results| <= 2 && (Is(e, "result") ==> ValidateTerminal(e).Some?)
    requires var o := Corrections.ObserveEvent(m, e); o.Went? && o.verdict.Ok? && o.verdict.value.retain
    ensures var kept := Corrections.ObserveEvent(m, e).verdict.value.event;
            && Check(p, kept) == Check(p, e)
            && (Is(kept, "result") ==> ValidateTerminal(kept).Some?)
            && Is(kept, "result") == Is(e, "result") && Suggestion(kept) == Suggestion(e)
            && Get(kept, "session_id") == Get(e, "session_id") && ("session_id" in kept <==> "session_id" in e)
  {
    hide Check, ValidateTerminal, Corrections.ObserveEvent, Corrections.ResultText;
    var o := Corrections.ObserveEvent(m, e);
    if Is(e, "result") {
      ObservedResult(m, e);
      if |o.memory.results| == 2 {
        var first := Corrections.ResultText(m.results[0]);
        assert o.memory.results[0] == m.results[0] && o.memory.results[1] == e;
        CheckIgnoresTheText(p, e, Text(JoinedText(o.memory.results)));
        FalseTerminal(e);
        JoinedIsValid(e, first);
      }
    } else {
      ObservedOther(m, e);
    }
  }

  lemma FalseTerminal(e: Event)
    requires ValidateTerminal(e).Some? && Get(e, "is_error") == Flag(false)
    ensures ValidateTerminal(e) == Some(false)
  {
  }

  lemma SeeKeepsShadow(first: Reader, s: State, e: Event)
    requires Shadowed(first, s) && TerminalOk(s) && See(s, e).Some?
    ensures Shadowed(first, See(s, e).value)
  {
    hide Check, ValidateTerminal, SessionAfter, Line, Lines, Joined, Terminal, Written, Corrections.ObserveEvent,
      Suggestion;
    var o := Corrections.ObserveEvent(s.memory, e);
    var seen := o.verdict.value;
    SessionKept(s.reader, e);
    if seen.retain {
      RetainedForm(s.memory, s.reader.policy, e);
      var plain := Lines(first, s.kept).value;
      assert s.reader.terminalSeen ==> Suggestion(e);
      RetainedIsAccepted(s.reader, plain, e, seen.event);
      LinesAppend(first, s.kept, seen.event);
    } else {
      DroppedKeepsThePolicy(s.memory, s.reader.policy, e);
      assert s.kept + [] == s.kept;
    }
  }

  lemma SeeKeepsTerminal(s: State, e: Event)
    requires TerminalOk(s) && See(s, e).Some?
    ensures TerminalOk(See(s, e).value)
  {
    hide Check, ValidateTerminal, SessionAfter, Joined, Terminal, Written, Corrections.ObserveEvent, Suggestion;
    var o := Corrections.ObserveEvent(s.memory, e);
    var seen := o.verdict.value;
    if Is(e, "result") {
      ObservedResult(s.memory, e);
    } else {
      ObservedOther(s.memory, e);
    }
    if seen.retain {
      RetainedForm(s.memory, s.reader.policy, e);
      TerminalAppend(s.kept, seen.event);
      assert s.reader.terminalSeen ==> Suggestion(e);
    } else {
      assert s.kept + [] == s.kept;
    }
  }

  /** A poll asks only while it may, and leaves the reader alone. */
  lemma PolledIff(s: State, answer: Corrections.Admission)
    requires s.memory.frames != []
    ensures var next := Take(s, Polled(answer));
            if s.memory.closed || |s.memory.frames| == 2 then next == Some(s)
            else
              var polled := Corrections.PollWith(s.memory, answer);
              next == if polled.Ok? then Some(State(s.reader, polled.value, s.kept)) else None
  {
  }

  lemma TakeKeeps(first: Reader, s: State, i: Input)
    requires s.memory.frames != [] && Shadowed(first, s) && TerminalOk(s) && Take(s, i).Some?
    ensures Shadowed(first, Take(s, i).value) && TerminalOk(Take(s, i).value)
  {
    hide See, Lines, Terminal, Joined;
    if i.Saw? {
      SeeKeepsShadow(first, s, i.event);
      SeeKeepsTerminal(s, i.event);
    }
  }

  lemma {:induction false} TakeAllKeeps(first: Reader, s: State, inputs: seq<Input>)
    requires s.memory.frames != [] && Shadowed(first, s) && TerminalOk(s) && TakeAll(s, inputs).Some?
    ensures Shadowed(first, TakeAll(s, inputs).value) && TerminalOk(TakeAll(s, inputs).value)
    decreases |inputs|
  {
    hide Take, Shadowed, TerminalOk;
    if inputs != [] {
      TakeKeeps(first, s, inputs[0]);
      TakeAllKeeps(first, Take(s, inputs[0]).value, inputs[1..]);
    }
  }

  /** The joined text of the results, or the only result's own failure. */
  ghost predicate JoinedVerdict(v: Verdict, results: seq<Event>) {
    && 1 <= |results| <= 2
    && (|results| == 2 || Get(results[0], "is_error") == Flag(false) ==>
          v.Parsed? && v.text == Strip(JoinedText(results)))
    && (|results| == 1 && Get(results[0], "is_error") == Flag(true) ==> v.Failed?)
  }

  /** What parsing the retained projection of a complete launch gives. */
  ghost predicate GivesTheJoinedText(s: State, mode: Mode, expected: Option<string>, requested: Option<string>) {
    JoinedVerdict(Parse(Projection(s.kept), s.reader.output, mode, expected, requested, 0), s.memory.results)
  }

  /**
   * For every launch, corrected or not, that is accepted and complete, parsing
   * what the reader retained gives exactly the joined text of its results, or
   * its only result's own failure: the dropped receipts and intermediate
   * results change nothing.
   */
  lemma RetainedStreamGivesTheJoinedText(frame: CorrectionState.Frame, inputs: seq<Input>, size: Event -> nat,
                                         mode: Mode, expected: Option<string>, requested: Option<string>)
    requires var s := TakeAll(Begin(frame, Fresh(expected, mode, size)), inputs); s.Some? && s.value.memory.complete
    ensures var s := TakeAll(Begin(frame, Fresh(expected, mode, size)), inputs).value;
            GivesTheJoinedText(s, mode, expected, requested)
  {
    hide Take, Lines, Line, Parse, Shadowed, Joined;
    var first := Fresh(expected, mode, size);
    BeginsWell(frame, first);
    TakeAllKeeps(first, Begin(frame, first), inputs);
    WellMeansJoined(TakeAll(Begin(frame, first), inputs).value, size, mode, expected, requested);
  }

  function Receipt(frame: CorrectionState.Frame): Event {
    map["type" := Text("user"), "isReplay" := Flag(true), "uuid" := Text(frame.uuid),
        "session_id" := Text(frame.session), "parent_tool_use_id" := Null,
        "message" := Corrections.UserMessage(frame.text)]
  }

  function Success(session: string, text: string): Event {
    map["type" := Text("result"), "subtype" := Text("success"), "is_error" := Flag(false),
        "session_id" := Text(session), "result" := Text(text)]
  }

  lemma ReceiptPasses(p: Policy, frame: CorrectionState.Frame)
    requires p.mode.TextOnly?
    ensures Check(p, Receipt(frame)) == Some(p)
  {
  }

  lemma SuccessPasses(p: Policy, session: string, text: string)
    requires p.mode.TextOnly? && UuidText(session) && !Blank(text) && |text| <= MAX_VISIBLE_CHARACTERS
    ensures Check(p, Success(session, text)) == Some(p) && ValidateTerminal(Success(session, text)) == Some(false)
  {
  }

  /** A receipt is taken while its frame is the next unconfirmed one. */
  lemma SeeReceipt(s: State, frame: CorrectionState.Frame)
    requires s.reader.policy.mode.TextOnly? && s.reader.count < MAX_EVENTS && s.reader.output <= MAX_OUTPUT_BYTES
    requires UuidText(frame.session) && (s.reader.session.Some? ==> s.reader.session == Some(frame.session))
    requires !s.reader.terminalSeen && !s.memory.complete
    requires |s.memory.receipts| < |s.memory.frames| && s.memory.frames[|s.memory.receipts|] == frame
    ensures See(s, Receipt(frame)) == Some(State(
      s.reader.(session := Some(frame.session), count := s.reader.count + 1),
      s.memory.(receipts := s.memory.receipts + [|s.memory.results| + 1]), s.kept))
  {
    hide Check, UuidText;
    ReceiptPasses(s.reader.policy, frame);
    assert s.kept + [] == s.kept;
  }

  /** The first result of a corrected launch whose correction is not received yet is dropped. */
  lemma SeeFirst(s: State, session: string, text: string)
    requires s.reader.policy.mode.TextOnly? && s.reader.count < MAX_EVENTS && s.reader.output <= MAX_OUTPUT_BYTES
    requires UuidText(session) && s.reader.session == Some(session) && !s.reader.terminalSeen && !s.memory.complete
    requires !Blank(text) && |text| <= MAX_VISIBLE_CHARACTERS
    requires |s.memory.frames| == 2 && s.memory.receipts == [1] && s.memory.results == []
    ensures See(s, Success(session, text)) == Some(State(
      s.reader.(count := s.reader.count + 1),
      s.memory.(closed := true, results := [Success(session, text)]), s.kept))
  {
    hide Check, UuidText, ValidateTerminal, Blank;
    SuccessPasses(s.reader.policy, session, text);
    assert s.kept + [] == s.kept;
    assert s.memory.results + [Success(session, text)] == [Success(session, text)];
    assert Is(Success(session, text), "result");
  }

  lemma SeeSecond(s: State, session: string, first: string, text: string)
    requires s.reader.policy.mode.TextOnly? && s.reader.count < MAX_EVENTS
    requires s.reader.output + s.reader.size(Project(Success(session, first + "\n\n" + text))) <= MAX_OUTPUT_BYTES
    requires UuidText(session) && s.reader.session == Some(session) && !s.reader.terminalSeen && !s.memory.complete
    requires !Blank(text) && |first| + 2 + |text| <= MAX_VISIBLE_CHARACTERS
    requires |s.memory.frames| == 2 && s.memory.receipts == [1, 2] && s.memory.results == [Success(session, first)]
    ensures var next := See(s, Success(session, text));
            && next.Some? && next.value.memory.complete
            && next.value.memory.results == [Success(session, first), Success(session, text)]
  {
    hide Check, UuidText, ValidateTerminal, Blank, Project;
    SuccessPasses(s.reader.policy, session, text);
    Corrections.LargestOfTwo(s.memory.receipts);
    assert Success(session, text)["result" := Text(first + "\n\n" + text)]
        == Success(session, first + "\n\n" + text);
  }

  /** A correction polled before the first result, and both inputs confirmed and answered in turn. */
  function CorrectedRun(frame: CorrectionState.Frame, correction: CorrectionState.Frame, first: string, second: string)
    : seq<Input>
  {
    [Saw(Receipt(frame)), Polled(Corrections.Reserved(correction)), Saw(Success(frame.session, first)),
     Saw(Receipt(correction)), Saw(Success(frame.session, second))]
  }

  /** Every admissible correction can be answered: such a run is accepted, and its text is both results joined. */
  lemma CorrectedRunsComplete(frame: CorrectionState.Frame, correction: CorrectionState.Frame, first: string,
                              second: string, size: Event -> nat, requested: Option<string>)
    requires UuidText(frame.session) && correction.session == frame.session && correction.uuid != frame.uuid
    requires !Blank(correction.text) && |correction.text| <= CorrectionState.MAX_CORRECTION_CHARACTERS
    requires !Blank(first) && !Blank(second) && |first| + 2 + |second| <= MAX_VISIBLE_CHARACTERS
    requires size(Project(Success(frame.session, first + "\n\n" + second))) <= MAX_OUTPUT_BYTES
    ensures var start := Begin(frame, Fresh(Some(frame.session), TextOnly, size));
            var s := TakeAll(start, CorrectedRun(frame, correction, first, second));
            && s.Some? && s.value.memory.complete && |s.value.memory.results| == 2
            && var r := s.value.reader;
            var v := Parse(Projection(s.value.kept), r.output, TextOnly, Some(frame.session), requested, 0);
            v.Parsed? && v.text == Strip(first + "\n\n" + second)
  {
    hide See, Parse, Projection, Project, UuidText, Receipt, Success, Strip;
    var run := CorrectedRun(frame, correction, first, second);
    var s0 := Begin(frame, Fresh(Some(frame.session), TextOnly, size));
    SeeReceipt(s0, frame);
    var s1 := See(s0, Receipt(frame)).value;
    var s2 := s1.(memory := s1.memory.(frames := [frame, correction]));
    assert s1.memory.frames + [correction] == [frame, correction];
    assert Take(s1, run[1]) == Some(s2);
    SeeFirst(s2, frame.session, first);
    var s3 := See(s2, Success(frame.session, first)).value;
    SeeReceipt(s3, correction);
    var s4 := See(s3, Receipt(correction)).value;
    SeeSecond(s4, frame.session, first, second);
    TakesInTurn(s0, s1, s2, s3, s4, run);
    RetainedStreamGivesTheJoinedText(frame, run, size, TextOnly, Some(frame.session), requested);
    SuccessText(frame.session, first);
    SuccessText(frame.session, second);
  }

  lemma SuccessText(session: string, text: string)
    ensures Corrections.ResultText(Success(session, text)) == text
  {
  }

  lemma TakesInTurn(s0: State, s1: State, s2: State, s3: State, s4: State, run: seq<Input>)
    requires |run| == 5 && s0.memory.frames != [] && s1.memory.frames != [] && s2.memory.frames != []
    requires s3.memory.frames != [] && s4.memory.frames != []
    requires Take(s0, run[0]) == Some(s1) && Take(s1, run[1]) == Some(s2) && Take(s2, run[2]) == Some(s3)
    requires Take(s3, run[3]) == Some(s4) && Take(s4, run[4]).Some?
    ensures TakeAll(s0, run) == Take(s4, run[4])
  {
    hide Take;
    assert run[1..][1..] == run[2..] && run[2..][1..] == run[3..] && run[3..][1..] == run[4..] && run[4..][1..] == [];
    var last := Take(s4, run[4]).value;
    assert TakeAll(last, []) == Some(last);
    assert TakeAll(s4, run[4..]) == Some(last);
    assert TakeAll(s3, run[3..]) == Some(last);
    assert TakeAll(s2, run[2..]) == Some(last);
  }

  lemma WellMeansJoined(s: State, size: Event -> nat, mode: Mode, expected: Option<string>, requested: Option<string>)
    requires Shadowed(Fresh(expected, mode, size), s) && TerminalOk(s) && s.memory.complete
    ensures GivesTheJoinedText(s, mode, expected, requested)
  {
    hide Lines, Line, Parse;
    ProjectionKeepsTheVerdict(s.kept, size, 0, mode, expected, requested, 0);
    AcceptedJoined(s, expected, mode, size, requested);
  }

  lemma BeginsWell(frame: CorrectionState.Frame, first: Reader)
    requires !first.terminalSeen
    ensures Shadowed(first, Begin(frame, first)) && TerminalOk(Begin(frame, first))
  {
  }

  lemma AcceptedJoined(s: State, expected: Option<string>, mode: Mode, size: Event -> nat, requested: Option<string>)
    requires Lines(Fresh(expected, mode, size), s.kept).Some? && TerminalOk(s) && s.memory.complete
    ensures JoinedVerdict(Parse(s.kept, 0, mode, expected, requested, 0), s.memory.results)
  {
    hide Lines, Terminal, Notes, FailureCode, Strip;
    var r := Fresh(expected, mode, size);
    AcceptedCounts(r, s.kept);
    AcceptedSession(r, s.kept);
    JoinedReads(s.memory.results);
  }

  lemma JoinedReads(results: seq<Event>)
    requires 1 <= |results| <= 2 && ValidateTerminal(Joined(results)).Some?
    ensures Get(Joined(results), "is_error") == Get(results[|results| - 1], "is_error")
    ensures ValidateTerminal(Joined(results)) == Some(false) ==>
        Get(Joined(results), "result") == Text(JoinedText(results))
    ensures Get(Joined(results), "is_error") == Flag(ValidateTerminal(Joined(results)).value)
  {
  }
}
