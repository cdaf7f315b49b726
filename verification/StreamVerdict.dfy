/**
 * What a stream's verdict says of its events: which stream completes, which
 * fails and with what code, and what the event policies let through.
 */
module StreamVerdict {
  import opened Wrappers
  import opened Json
  import opened Texts
  import opened ClaudeStream

  // ----- the result of a stream -----

  /** The one result, with nothing but prompt suggestions after it. */
  ghost predicate EndsAt(events: seq<Event>, k: int) {
    && 0 <= k < |events| && Get(events[k], "type") == Text("result")
    && forall i :: 0 <= i < |events| && i != k ==>
        if i < k then Get(events[i], "type") != Text("result") else Get(events[i], "type") == Text("prompt_suggestion")
  }

  lemma {:induction false} TerminalIffEnds(events: seq<Event>)
    ensures Terminal(events).Some? <==> exists k :: EndsAt(events, k)
    ensures forall k :: EndsAt(events, k) ==> Terminal(events) == Some(events[k])
  {
    if events != [] {
      var rest := events[1..];
      if Is(events[0], "result") {
        assert (forall i :: 1 <= i < |events| ==> Suggestion(events[i])) ==> EndsAt(events, 0);
        assert forall k :: EndsAt(events, k) ==> k == 0;
      } else {
        TerminalIffEnds(rest);
        forall k | EndsAt(events, k)
          ensures k >= 1 && EndsAt(rest, k - 1)
        {
        }
        forall k | EndsAt(rest, k)
          ensures EndsAt(events, k + 1)
        {
        }
      }
    }
  }

  /** A result that claims success: no error, no status, and a visible text within its limit. */
  predicate Completes(t: Event) {
    && Get(t, "subtype") == Text("success") && Get(t, "is_error") == Flag(false) && Get(t, "api_error_status") == Null
    && Get(t, "result").Text? && |Get(t, "result").text| <= 200_000
    && exists i :: 0 <= i < |Get(t, "result").text| && !IsSpace(Get(t, "result").text[i])
  }

  /** A result that admits failure, by its subtype or as an HTTP error in the shape of a success. */
  predicate Fails(t: Event) {
    && Get(t, "is_error") == Flag(true) && Get(t, "subtype").Text?
    && (|| Get(t, "subtype").text in {"error_during_execution", "error_max_turns", "error_max_budget_usd",
                                      "error_max_structured_output_retries"}
        || (Get(t, "subtype").text == "success" && Get(t, "result").Text? && Get(t, "api_error_status").Number?
            && 400 <= Get(t, "api_error_status").number <= 599))
  }

  lemma TerminalIff(t: Event)
    ensures ValidateTerminal(t) == Some(false) <==> SessionId(Get(t, "session_id")).Some? && Completes(t)
    ensures ValidateTerminal(t) == Some(true) <==> SessionId(Get(t, "session_id")).Some? && Fails(t)
  {
    hide SessionId;
  }

  // ----- failure codes -----

  const BY_SUBTYPE: map<string, string> := map[
    "error_max_turns" := "claude_turn_limit", "error_max_budget_usd" := "claude_budget_exhausted",
    "error_max_structured_output_retries" := "claude_structured_output_failed"]

  const BY_STATUS: map<int, string> := map[
    429 := "claude_quota_exhausted", 401 := "claude_authentication_failed", 529 := "claude_provider_overloaded"]

  const BY_ERROR: map<string, string> := map[
    "rate_limit" := "claude_quota_exhausted", "authentication_failed" := "claude_authentication_failed",
    "billing_error" := "claude_billing_error", "overloaded" := "claude_provider_overloaded",
    "model_not_found" := "claude_model_not_found"]

  /** The subtype decides, then the status; only a failure that shows neither is explained by the assistant's error. */
  lemma FailureCodes(t: Event, said: Option<string>)
    requires Get(t, "subtype").Text?
    ensures var subtype, status := Get(t, "subtype").text, Get(t, "api_error_status");
            FailureCode(t, said)
            == if subtype in BY_SUBTYPE then BY_SUBTYPE[subtype]
               else if status.Number? && status.number in BY_STATUS then BY_STATUS[status.number]
               else if subtype != "success" && said.Some? && said.value in BY_ERROR then BY_ERROR[said.value]
               else "claude_provider_failure"
  {
  }

  // ----- the models and the error a stream reports -----

  /** The name a model field gives: its text without outer spaces, at most two hundred characters of it. */
  lemma ModelNames(v: Value)
    ensures ModelName(v).Some? <==> v.Text? && exists i :: 0 <= i < |v.text| && !IsSpace(v.text[i])
    ensures ModelName(v).Some? ==> ModelName(v).value <= Strip(v.text)
                                   && (|ModelName(v).value| == 200 || ModelName(v).value == Strip(v.text))
                                   && |ModelName(v).value| <= 200
  {
    hide Strip;
  }

  /** The last assistant message that names a model. */
  function Answering(events: seq<Event>): Option<string> {
    if events == [] then None
    else
      var last := events[|events| - 1];
      var message := Get(last, "message");
      if Get(last, "type") == Text("assistant") && message.Object? && ModelName(Get(message.fields, "model")).Some?
      then ModelName(Get(message.fields, "model"))
      else Answering(events[..|events| - 1])
  }

  /** The last initialisation that names one. */
  function Initialising(events: seq<Event>): Option<string> {
    if events == [] then None
    else
      var last := events[|events| - 1];
      if Get(last, "type") == Text("system") && Get(last, "subtype") == Text("init")
         && ModelName(Get(last, "model")).Some?
      then ModelName(Get(last, "model"))
      else Initialising(events[..|events| - 1])
  }

  /** The error of the very last assistant message, if it is of this session. */
  function Explaining(events: seq<Event>, session: string): Option<string> {
    if events == [] then None
    else
      var last := events[|events| - 1];
      if Get(last, "type") != Text("assistant") then Explaining(events[..|events| - 1], session)
      else if Get(last, "session_id") == Text(session) && Get(last, "error").Text? then Some(Get(last, "error").text)
      else None
  }

  lemma {:induction false} NotesAppend(k: Evidence, events: seq<Event>, e: Event, session: string)
    ensures Notes(k, events + [e], session) == Note(Notes(k, events, session), e, session)
    decreases |events|
  {
    hide Note;
    if events == [] {
      assert (events + [e])[1..] == [];
    } else {
      assert (events + [e])[1..] == events[1..] + [e];
      NotesAppend(Note(k, events[0], session), events[1..], e, session);
    }
  }

  lemma {:induction false} NotesAreTheLast(events: seq<Event>, session: string)
    ensures Notes(Evidence(None, None, None), events, session)
         == Evidence(Initialising(events), Answering(events), Explaining(events, session))
  {
    hide ModelName;
    if events != [] {
      var earlier, last := events[..|events| - 1], events[|events| - 1];
      assert events == earlier + [last];
      NotesAreTheLast(earlier, session);
      NotesAppend(Evidence(None, None, None), earlier, last, session);
    }
  }

  // ----- the verdict -----

  /** Every event that names a session names this one, which is well formed and the expected one. */
  predicate Owned(events: seq<Event>, t: Event, expected: Option<string>) {
    && SessionId(Get(t, "session_id")).Some?
    && (expected.Some? ==> Get(t, "session_id") == Text(expected.value))
    && forall i :: 0 <= i < |events| && "session_id" in events[i] ==> events[i]["session_id"] == Get(t, "session_id")
  }

  predicate WithinLimits(events: seq<Event>, bytes: nat, mode: Mode) {
    if mode.TextOnly? then bytes <= 2_097_152 && |events| <= 512 else bytes <= 67_108_864 && |events| <= 4096
  }

  /**
   * A stream is refused unless it stays within limits and policy and ends with one result of its own
   * session that admits failure, or claims success of a process that succeeded; then its verdict is
   * that result's text, or the code of its failure.
   */
  lemma VerdictIff(events: seq<Event>, bytes: nat, mode: Mode, expected: Option<string>, requested: Option<string>,
                   returncode: int)
    ensures var v := Parse(events, bytes, mode, expected, requested, returncode);
            && (!v.Refused? <==>
                && WithinLimits(events, bytes, mode) && CheckAll(Policy(mode, {}), events).Some?
                && exists k :: EndsAt(events, k) && Owned(events, events[k], expected)
                               && (Fails(events[k]) || (Completes(events[k]) && returncode == 0)))
            && (forall k :: EndsAt(events, k) && !v.Refused? ==>
                  var t := events[k];
                  && Get(t, "session_id") == Text(v.session)
                  && (v.Failed? <==> Fails(t))
                  && (v.Failed? ==> v.code == FailureCode(t, Explaining(events, v.session)))
                  && (v.Parsed? ==>
                        && Completes(t) && v.text == Strip(Get(t, "result").text)
                        && v.model == if Answering(events).Some? then Answering(events)
                                      else if Initialising(events).Some? then Initialising(events) else requested))
  {
    hide CheckAll, ValidateTerminal, SessionId, FailureCode, Strip, Notes, Completes, Fails;
    TerminalIffEnds(events);
    if Terminal(events).Some? {
      var t := Terminal(events).value;
      var session := SessionId(Get(t, "session_id"));
      TerminalIff(t);
      SessionIsText(Get(t, "session_id"));
      NotBoth(t);
      if session.Some? {
        NotesAreTheLast(events, session.value);
      }
      OwnedIff(events, t, expected);
    }
  }

  lemma NotBoth(t: Event)
    ensures !(Completes(t) && Fails(t))
  {
  }

  lemma SessionIsText(v: Value)
    ensures SessionId(v).Some? ==> v == Text(SessionId(v).value)
  {
  }

  lemma OwnedIff(events: seq<Event>, t: Event, expected: Option<string>)
    ensures Owned(events, t, expected) <==>
            var session := SessionId(Get(t, "session_id"));
            && session.Some? && !(expected.Some? && session != expected)
            && !(exists e :: e in events && !SameSession(e, session.value))
  {
    hide SessionId;
    SessionIsText(Get(t, "session_id"));
    assert forall i :: 0 <= i < |events| ==> events[i] in events;
    assert SessionId(Get(t, "session_id")).Some? ==>
        Text(SessionId(Get(t, "session_id")).value) == Get(t, "session_id");
  }

  // ----- the reader refuses nothing that the parser would take -----

  /** What the retained events take when they are written out. */
  function Total(size: Event -> nat, events: seq<Event>): nat {
    if events == [] then 0
    else
      var last := events[|events| - 1];
      Total(size, events[..|events| - 1]) + if Retained(last) then size(Project(last)) else 0
  }

  lemma {:induction false} TotalGrows(size: Event -> nat, events: seq<Event>, n: nat)
    requires n <= |events|
    ensures Total(size, events[..n]) <= Total(size, events)
  {
    if n == |events| {
      assert events[..n] == events;
    } else {
      TotalGrows(size, events[..|events| - 1], n);
      assert events[..|events| - 1][..n] == events[..n];
    }
  }

  lemma {:induction false} CheckedPrefix(p: Policy, events: seq<Event>, n: nat)
    requires CheckAll(p, events).Some? && n < |events|
    ensures CheckAll(p, events[..n]).Some? && Check(CheckAll(p, events[..n]).value, events[n]).Some?
    ensures CheckAll(p, events[..n + 1]) == Check(CheckAll(p, events[..n]).value, events[n])
    decreases |events|
  {
    hide Check;
    if n == 0 {
      assert events[..1][1..] == [];
    } else {
      CheckedPrefix(Check(p, events[0]).value, events[1..], n - 1);
      assert events[..n][1..] == events[1..][..n - 1] && events[..n + 1][1..] == events[1..][..n];
    }
  }

  /** How far the reader has come after n events of a stream that ends well at k. */
  ghost predicate ReadTo(r: Reader, size: Event -> nat, mode: Mode, events: seq<Event>, n: nat, k: int, session: string)
    requires n <= |events|
  {
    && CheckAll(Policy(mode, {}), events[..n]) == Some(r.policy)
    && r.count == n && r.size == size && r.output == Total(size, events[..n]) && r.terminalSeen == (n > k)
    && (r.session.None? || r.session == Some(session))
  }

  lemma ReadsOneMore(r: Reader, size: Event -> nat, mode: Mode, events: seq<Event>, n: nat, k: int, session: string)
    requires n < |events| && EndsAt(events, k) && ReadTo(r, size, mode, events, n, k, session)
    requires CheckAll(Policy(mode, {}), events).Some? && Total(size, events) <= MAX_OUTPUT_BYTES
    requires |events| <= EventLimit(mode) && ValidateTerminal(events[k]).Some?
    requires SessionId(Text(session)) == Some(session)
    requires forall i :: 0 <= i < |events| && "session_id" in events[i] ==> events[i]["session_id"] == Text(session)
    ensures Line(r, events[n]).Some? && ReadTo(Line(r, events[n]).value, size, mode, events, n + 1, k, session)
  {
    hide Check, ValidateTerminal, SessionId, Project;
    CheckedPrefix(Policy(mode, {}), events, n);
    CheckKeepsMode(Policy(mode, {}), events[..n]);
    TotalGrows(size, events, n + 1);
    assert events[..n + 1][..n] == events[..n] && events[..n + 1][n] == events[n];
  }

  lemma {:induction false} CheckKeepsMode(p: Policy, events: seq<Event>)
    requires CheckAll(p, events).Some?
    ensures CheckAll(p, events).value.mode == p.mode
    decreases |events|
  {
    if events != [] {
      CheckKeepsProfile(p, events[0]);
      CheckKeepsMode(Check(p, events[0]).value, events[1..]);
    }
  }

  lemma {:induction false} ReadsAll(size: Event -> nat, mode: Mode, expected: Option<string>, events: seq<Event>,
                                    n: nat, k: int, session: string)
    requires n <= |events| && EndsAt(events, k)
    requires CheckAll(Policy(mode, {}), events).Some? && Total(size, events) <= MAX_OUTPUT_BYTES
    requires |events| <= EventLimit(mode) && ValidateTerminal(events[k]).Some?
    requires SessionId(Text(session)) == Some(session) && (expected.None? || expected == Some(session))
    requires forall i :: 0 <= i < |events| && "session_id" in events[i] ==> events[i]["session_id"] == Text(session)
    ensures Lines(Fresh(expected, mode, size), events[..n]).Some?
    ensures ReadTo(Lines(Fresh(expected, mode, size), events[..n]).value, size, mode, events, n, k, session)
  {
    hide Check, ValidateTerminal, SessionId, Line;
    if n > 0 {
      ReadsAll(size, mode, expected, events, n - 1, k, session);
      assert events[..n] == events[..n - 1] + [events[n - 1]];
      LinesAppend(Fresh(expected, mode, size), events[..n - 1], events[n - 1]);
      ReadsOneMore(Lines(Fresh(expected, mode, size), events[..n - 1]).value, size, mode, events, n - 1, k, session);
    }
  }

  /** Whatever the parser takes, the reader takes too, as long as what it retains fits. */
  lemma ParsedStreamsAreAccepted(events: seq<Event>, size: Event -> nat, bytes: nat, mode: Mode,
                                 expected: Option<string>, requested: Option<string>, returncode: int)
    requires !Parse(events, bytes, mode, expected, requested, returncode).Refused?
    requires Total(size, events) <= MAX_OUTPUT_BYTES
    ensures Lines(Fresh(expected, mode, size), events).Some?
    ensures Lines(Fresh(expected, mode, size), events).value.output == Total(size, events)
  {
    hide CheckAll, Check, ValidateTerminal, SessionId, Line, Notes, FailureCode, Strip;
    TerminalIffEnds(events);
    var k :| EndsAt(events, k);
    var session := SessionId(Get(events[k], "session_id")).value;
    SessionIsText(Get(events[k], "session_id"));
    OwnedIff(events, events[k], expected);
    assert events[..|events|] == events;
    ReadsAll(size, mode, expected, events, |events|, k, session);
  }

  // ----- what is retained -----

  /** Answers, results, suggestions and initialisations are retained: eleven fields, the model and the texts. */
  lemma RetainedExactly(e: Event)
    ensures Retained(e) <==>
            || Get(e, "type") in {Text("assistant"), Text("result"), Text("prompt_suggestion")}
            || (Get(e, "type") == Text("system") && Get(e, "subtype") == Text("init"))
    ensures forall key :: key in {"type", "subtype", "session_id", "uuid", "parent_tool_use_id", "error", "aborted",
                                  "model", "result", "is_error", "api_error_status"} ==>
              (key in Project(e) <==> key in e) && (key in e ==> Project(e)[key] == e[key])
    ensures "message" in Project(e) <==> Get(e, "message").Object?
    ensures Get(e, "message").Object? ==>
              var message := Get(e, "message").fields;
              Project(e)["message"] == Object(map["model" := Get(message, "model"),
                                                  "content" := Items(TextsIn(Get(message, "content")))])
    ensures Project(e).Keys <= {"type", "subtype", "session_id", "uuid", "parent_tool_use_id", "error", "aborted",
                                "model", "result", "is_error", "api_error_status", "message"}
  {
  }

  function TextsIn(content: Value): seq<Value> {
    if content.Items? then TextBlocks(content.items) else []
  }

  /** The texts of the text blocks, in order and nothing else of them. */
  lemma {:induction false} TextBlocksAreTexts(items: seq<Value>, more: seq<Value>)
    ensures TextBlocks([]) == []
    ensures TextBlocks(items + more) == TextBlocks(items) + TextBlocks(more)
    ensures |items| == 1 ==>
              TextBlocks(items) == if items[0].Object? && Get(items[0].fields, "type") == Text("text")
                                   then [Object(map["type" := Text("text"), "text" := Get(items[0].fields, "text")])]
                                   else []
  {
    if items == [] {
      assert items + more == more;
    } else {
      assert (items + more)[1..] == items[1..] + more;
      TextBlocksAreTexts(items[1..], more);
    }
  }
}
