/**
 * One Claude launch as a list of structured events: the text-only and file-tool
 * policies, the reader's per-event checks and lossy projection, and the parse.
 */
module ClaudeStream {
  import opened Wrappers
  import opened Json
  import opened Texts

  const MAX_VISIBLE_CHARACTERS := 200_000
  const MAX_EVENTS := 512
  const MAX_FILE_EVENTS := 4096
  const MAX_OUTPUT_BYTES := 2 * 1024 * 1024
  const MAX_FILE_OUTPUT_BYTES := 64 * 1024 * 1024

  /** Without an event policy only text may pass; with one, the file tools and perhaps Bash. */
  datatype Mode = TextOnly | Files(bash: bool)

  function EventLimit(mode: Mode): nat {
    if mode.TextOnly? then MAX_EVENTS else MAX_FILE_EVENTS
  }

  function ByteLimit(mode: Mode): nat {
    if mode.TextOnly? then MAX_OUTPUT_BYTES else MAX_FILE_OUTPUT_BYTES
  }

  // ----- event policies -----

  datatype Policy = Policy(mode: Mode, active: set<string>)

  predicate Bash(p: Policy) {
    p.mode == Files(true)
  }

  function ToolsAllowed(p: Policy): set<string> {
    {"Read", "Glob", "Grep", "Write", "Edit"} + if Bash(p) then {"Bash"} else {}
  }

  predicate NamesIn(v: Value, allowed: set<string>) {
    v.Text? && v.text in allowed
  }

  function Content(e: Event): Value {
    if Get(e, "message").Object? then Get(Get(e, "message").fields, "content") else Null
  }

  predicate BlockAllowed(v: Value, allowed: set<string>) {
    (v.Object? && Get(v.fields, "type").Text? && EndsWith(Get(v.fields, "type").text, "tool_use"))
    ==> NamesIn(Get(v.fields, "name"), allowed)
  }

  predicate EmptyOrAbsent(e: Event, key: string) {
    key in e ==> e[key] == Items([])
  }

  predicate InitAllowed(e: Event, allowed: set<string>) {
    && ("tools" in e ==> e["tools"].Items? && forall i :: 0 <= i < |e["tools"].items| ==>
        NamesIn(e["tools"].items[i], allowed))
    && EmptyOrAbsent(e, "mcp_servers") && EmptyOrAbsent(e, "plugins") && EmptyOrAbsent(e, "skills")
    && ("permissionMode" in e ==> NamesIn(e["permissionMode"], {"manual", "default"}))
  }

  const ACTING := {
    "control_request", "control_response", "tool_progress", "tool_use_summary", "hook_started", "hook_progress",
    "hook_response", "task_started", "task_progress", "task_notification"}

  const TASKS := {"task_started", "task_progress", "task_notification"}

  predicate ToolBlock(v: Value) {
    && v.Object? && Get(v.fields, "type").Text?
    && (EndsWith(Get(v.fields, "type").text, "tool_use") || EndsWith(Get(v.fields, "type").text, "tool_result"))
  }

  predicate TextOnlyInit(e: Event) {
    && EmptyOrAbsent(e, "tools") && EmptyOrAbsent(e, "mcp_servers") && EmptyOrAbsent(e, "plugins")
    && EmptyOrAbsent(e, "skills")
    && ("permissionMode" in e ==> e["permissionMode"] == Text("dontAsk"))
  }

  predicate StreamedTool(e: Event) {
    var streamed := Get(e, "event");
    && streamed.Object?
    && var delta := Get(streamed.fields, "delta");
    (ToolBlock(Get(streamed.fields, "content_block")) || (delta.Object? && Is(delta.fields, "input_json_delta")))
  }

  /** No tool, hook, task, control request or child agent may show in a text-only stream. */
  predicate TextOnlyAllowed(e: Event) {
    var kind, subtype := Get(e, "type"), Get(e, "subtype");
    && !NamesIn(kind, ACTING)
    && !(kind == Text("system") && subtype.Text? && (StartsWith(subtype.text, "hook_") || subtype.text in TASKS))
    && (kind == Text("system") && subtype == Text("init") ==> TextOnlyInit(e))
    && Get(e, "parent_tool_use_id") == Null
    && (Content(e).Items? ==> forall i :: 0 <= i < |Content(e).items| ==> !ToolBlock(Content(e).items[i]))
    && !(kind == Text("stream_event") && StreamedTool(e))
  }

  const FORBIDDEN := {
    "control_request", "control_response", "task_started", "task_progress", "task_notification", "stream_event"}

  predicate HookEvent(e: Event) {
    var kind, subtype := Get(e, "type"), Get(e, "subtype");
    (kind.Text? && StartsWith(kind.text, "hook_"))
    || (kind == Text("system") && subtype.Text? && StartsWith(subtype.text, "hook_"))
  }

  predicate EventAllowed(e: Event, allowed: set<string>) {
    var kind, subtype := Get(e, "type"), Get(e, "subtype");
    && Get(e, "parent_tool_use_id") == Null
    && !NamesIn(kind, FORBIDDEN)
    && !(kind == Text("system") && subtype.Text? && StartsWith(subtype.text, "task_"))
    && (kind == Text("system") && subtype == Text("init") ==> InitAllowed(e, allowed))
    && (HookEvent(e) ==> Get(e, "hook_name") == Text("PermissionRequest"))
    && (kind == Text("tool_progress") ==> NamesIn(Get(e, "tool_name"), allowed))
    && (Content(e).Items? ==> forall i :: 0 <= i < |Content(e).items| ==> BlockAllowed(Content(e).items[i], allowed))
  }

  const HEARTBEAT := {
    "type", "tool_use_id", "tool_name", "parent_tool_use_id", "elapsed_time_seconds", "heartbeat", "session_id", "uuid"}

  /** Progress of an executing foreground Bash names it as parent without being a child of an agent. */
  predicate BashHeartbeat(p: Policy, e: Event) {
    && Bash(p)
    && e.Keys == HEARTBEAT
    && Is(e, "tool_progress") && e["tool_name"] == Text("Bash") && e["heartbeat"] == Flag(true)
    && e["parent_tool_use_id"].Text? && e["parent_tool_use_id"].text in p.active
    && e["tool_use_id"].Text? && e["elapsed_time_seconds"].Number? && e["elapsed_time_seconds"].number >= 0
    && e["session_id"].Text? && 0 < |e["session_id"].text| <= 128 && e["uuid"].Text? && 0 < |e["uuid"].text| <= 128
    && var prefix := e["parent_tool_use_id"].text + "-heartbeat-";
    && StartsWith(e["tool_use_id"].text, prefix)
    && var suffix := e["tool_use_id"].text[|prefix|..];
    && 0 < |suffix| <= 16 && forall i :: 0 <= i < |suffix| ==> '0' <= suffix[i] <= '9'
  }

  function TrackBlocks(p: Policy, kind: Value, blocks: seq<Value>): Policy {
    if blocks == [] then p
    else
      var last := blocks[|blocks| - 1];
      var before := TrackBlocks(p, kind, blocks[..|blocks| - 1]);
      if !last.Object? then before
      else
        var id, use := Get(last.fields, "id"), Get(last.fields, "tool_use_id");
        var began := if kind == Text("assistant") && Get(last.fields, "type") == Text("tool_use")
                         && Get(last.fields, "name") == Text("Bash") && id.Text? && 0 < |id.text| <= 128
                      then before.(active := before.active + {id.text}) else before;
        if kind == Text("user") && Get(last.fields, "type") == Text("tool_result") && use.Text?
        then began.(active := began.active - {use.text}) else began
  }

  /** None when the policy raises; otherwise the policy with its executing Bash calls updated. */
  function Check(p: Policy, e: Event): Option<Policy> {
    if p.mode.TextOnly? then if TextOnlyAllowed(e) then Some(p) else None
    else
      var checked := if BashHeartbeat(p, e) then e["parent_tool_use_id" := Null] else e;
      if !EventAllowed(checked, ToolsAllowed(p)) then None
      else Some(if Bash(p) && Content(e).Items? then TrackBlocks(p, Get(e, "type"), Content(e).items) else p)
  }

  // ----- terminal outcome -----

  predicate HexDigit(c: char) {
    '0' <= c <= '9' || 'a' <= c <= 'f' || 'A' <= c <= 'F'
  }

  function WithoutHyphens(s: string): string {
    if s == "" then "" else (if s[0] == '-' then "" else [s[0]]) + WithoutHyphens(s[1..])
  }

  predicate UuidText(s: string) {
    var digits := WithoutHyphens(s);
    |digits| == 32 && forall i :: 0 <= i < |digits| ==> HexDigit(digits[i])
  }

  function SessionId(v: Value): Option<string> {
    if v.Text? && UuidText(v.text) then Some(v.text) else None
  }

  const SUBTYPES := {
    "success", "error_during_execution", "error_max_turns", "error_max_budget_usd",
    "error_max_structured_output_retries"}

  predicate HttpFailure(v: Value) {
    v.Number? && 400 <= v.number <= 599
  }

  /** Some(is_error) when the terminal event does not contradict itself. */
  function ValidateTerminal(t: Event): Option<bool> {
    var subtype, isError := Get(t, "subtype"), Get(t, "is_error");
    var status, text := Get(t, "api_error_status"), Get(t, "result");
    if SessionId(Get(t, "session_id")).None? || !isError.Flag? || !NamesIn(subtype, SUBTYPES) then None
    else
      var native := subtype.text == "success" && isError.flag && HttpFailure(status) && text.Text?;
      if (subtype.text == "success" && isError.flag && !native)
         || (subtype.text == "success" && !isError.flag && status != Null)
         || (subtype.text != "success" && !isError.flag)
      then None
      else if !isError.flag && (!text.Text? || Blank(text.text) || |text.text| > MAX_VISIBLE_CHARACTERS) then None
      else Some(isError.flag)
  }

  function ErrorCode(error: string): string {
    match error
    case "rate_limit" => "claude_quota_exhausted"
    case "authentication_failed" => "claude_authentication_failed"
    case "billing_error" => "claude_billing_error"
    case "overloaded" => "claude_provider_overloaded"
    case "model_not_found" => "claude_model_not_found"
    case _ => "claude_provider_failure"
  }

  function FailureCode(t: Event, assistantError: Option<string>): string {
    var subtype, status := Get(t, "subtype"), Get(t, "api_error_status");
    if subtype == Text("error_max_turns") then "claude_turn_limit"
    else if subtype == Text("error_max_budget_usd") then "claude_budget_exhausted"
    else if subtype == Text("error_max_structured_output_retries") then "claude_structured_output_failed"
    else if status == Number(429) then "claude_quota_exhausted"
    else if status == Number(401) then "claude_authentication_failed"
    else if status == Number(529) then "claude_provider_overloaded"
    else if subtype == Text("success") then "claude_provider_failure"
    else ErrorCode(if assistantError.Some? then assistantError.value else "")
  }

  // ----- the final parse -----

  datatype Verdict =
    | Parsed(text: string, session: string, model: Option<string>)
    | Failed(code: string, session: string)
    | Refused

  datatype Evidence = Evidence(initialized: Option<string>, answered: Option<string>, assistantError: Option<string>)

  function ModelName(v: Value): Option<string> {
    if v.Text? && !Blank(v.text) then
      var name := Strip(v.text); Some(if |name| > 200 then name[..200] else name)
    else None
  }

  predicate Suggestion(e: Event) {
    Is(e, "prompt_suggestion")
  }

  /** The unique result, followed by prompt suggestions only. */
  function Terminal(events: seq<Event>): Option<Event> {
    if events == [] then None
    else if Is(events[0], "result") then
      if forall i :: 1 <= i < |events| ==> Suggestion(events[i]) then Some(events[0]) else None
    else Terminal(events[1..])
  }

  predicate SameSession(e: Event, session: string) {
    "session_id" in e ==> e["session_id"] == Text(session)
  }

  function Note(k: Evidence, e: Event, session: string): Evidence {
    var k1 := if Is(e, "system") && Get(e, "subtype") == Text("init") && ModelName(Get(e, "model")).Some?
              then k.(initialized := ModelName(Get(e, "model"))) else k;
    if !Is(e, "assistant") then k1
    else
      var error := Get(e, "error");
      var message := Get(e, "message");
      var model := if message.Object? then ModelName(Get(message.fields, "model")) else None;
      k1.(assistantError := if Get(e, "session_id") == Text(session) && error.Text? then Some(error.text) else None,
          answered := if model.Some? then model else k1.answered)
  }

  function Notes(k: Evidence, events: seq<Event>, session: string): Evidence
    decreases |events|
  {
    if events == [] then k else Notes(Note(k, events[0], session), events[1..], session)
  }

  function CheckAll(p: Policy, events: seq<Event>): Option<Policy>
    decreases |events|
  {
    if events == [] then Some(p)
    else
      var next := Check(p, events[0]);
      if next.None? then None else CheckAll(next.value, events[1..])
  }

  function First(a: Option<string>, b: Option<string>): Option<string> {
    if a.Some? then a else b
  }

  /** parse_claude_stream over the events of so many bytes of output, under a fresh policy. */
  function Parse(events: seq<Event>, bytes: nat, mode: Mode, expected: Option<string>, requested: Option<string>,
                 returncode: int): Verdict
  {
    if bytes > ByteLimit(mode) || CheckAll(Policy(mode, {}), events).None? || |events| > EventLimit(mode)
       || Terminal(events).None?
    then Refused
    else
      var t := Terminal(events).value;
      var session := SessionId(Get(t, "session_id"));
      if session.None? || (expected.Some? && session != expected)
         || (exists e :: e in events && !SameSession(e, session.value))
      then Refused
      else
        var k := Notes(Evidence(None, None, None), events, session.value);
        var isError := ValidateTerminal(t);
        if isError.None? then Refused
        else if isError.value then Failed(FailureCode(t, k.assistantError), session.value)
        else if returncode != 0 then Refused
        else Parsed(Strip(Get(t, "result").text), session.value, First(First(k.answered, k.initialized), requested))
  }

  // ----- the reader's projection -----

  const KEPT := {
    "type", "subtype", "session_id", "uuid", "parent_tool_use_id", "error", "aborted", "model", "result", "is_error",
    "api_error_status"}

  predicate TextBlock(v: Value) {
    v.Object? && Get(v.fields, "type") == Text("text")
  }

  function TextBlocks(items: seq<Value>): seq<Value> {
    if items == [] then []
    else
      var rest := TextBlocks(items[1..]);
      if !TextBlock(items[0]) then rest
      else [Object(map["type" := Text("text"), "text" := Get(items[0].fields, "text")])] + rest
  }

  predicate Retained(e: Event) {
    Is(e, "assistant") || Is(e, "result") || Suggestion(e) || (Is(e, "system") && Get(e, "subtype") == Text("init"))
  }

  /** Terminal, model and visible text evidence only. */
  function Project(e: Event): Event {
    var kept := map k | k in e && k in KEPT :: e[k];
    var message := Get(e, "message");
    if !message.Object? then kept
    else
      var content := Get(message.fields, "content");
      kept["message" := Object(map["model" := Get(message.fields, "model"),
                                   "content" := Items(if content.Items? then TextBlocks(content.items) else [])])]
  }

  function Projection(events: seq<Event>): seq<Event> {
    if events == [] then []
    else (if Retained(events[0]) then [Project(events[0])] else []) + Projection(events[1..])
  }

  // ----- the reader, one complete event at a time -----

  /** `size` is what one retained event takes when it is written out again, and `output` what was written so far. */
  datatype Reader = Reader(session: Option<string>, policy: Policy, count: nat, terminalSeen: bool, output: nat,
                           size: Event -> nat)

  function Fresh(expected: Option<string>, mode: Mode, size: Event -> nat): Reader {
    Reader(expected, Policy(mode, {}), 0, false, 0, size)
  }

  /** The output after an event; only retained events are written. */
  function Written(r: Reader, e: Event): nat {
    r.output + if Retained(e) then r.size(Project(e)) else 0
  }

  function Line(r: Reader, e: Event): Option<Reader> {
    var policy := Check(r.policy, e);
    if policy.None? || r.count + 1 > EventLimit(r.policy.mode) then None
    else
      var session := if "session_id" in e then SessionId(e["session_id"]) else r.session;
      if "session_id" in e && (session.None? || (r.session.Some? && r.session != session)) then None
      else if Is(e, "result") && ValidateTerminal(e).None? then None
      else if r.terminalSeen && !Suggestion(e) then None
      else if Written(r, e) > MAX_OUTPUT_BYTES then None
      else Some(Reader(session, policy.value, r.count + 1, r.terminalSeen || Is(e, "result"), Written(r, e), r.size))
  }

  function Lines(r: Reader, events: seq<Event>): Option<Reader>
    decreases |events|
  {
    if events == [] then Some(r)
    else
      var next := Line(r, events[0]);
      if next.None? then None else Lines(next.value, events[1..])
  }

  // ----- the projection keeps the verdict -----

  lemma {:induction false} LinesAppend(r: Reader, events: seq<Event>, e: Event)
    requires Lines(r, events).Some?
    ensures Lines(r, events + [e]) == Line(Lines(r, events).value, e)
    decreases |events|
  {
    hide Line;
    if events == [] {
      assert (events + [e])[1..] == [];
    } else {
      assert (events + [e])[1..] == events[1..] + [e];
      LinesAppend(Line(r, events[0]).value, events[1..], e);
    }
  }

  lemma {:induction false} ProjectionAppend(events: seq<Event>, e: Event)
    ensures Projection(events + [e]) == Projection(events) + if Retained(e) then [Project(e)] else []
  {
    if events == [] {
      assert (events + [e])[1..] == [];
    } else {
      assert (events + [e])[1..] == events[1..] + [e];
      ProjectionAppend(events[1..], e);
    }
  }

  lemma {:induction false} TextBlocksAllowed(items: seq<Value>, allowed: set<string>)
    ensures forall i :: 0 <= i < |TextBlocks(items)| ==>
        BlockAllowed(TextBlocks(items)[i], allowed) && TextBlock(TextBlocks(items)[i])
    ensures |TextBlocks(items)| <= |items|
  {
    if items != [] {
      TextBlocksAllowed(items[1..], allowed);
      assert !EndsWith("text", "tool_use");
    }
  }

  lemma ProjectReadsAlike(e: Event)
    ensures forall k :: k in KEPT ==> Get(Project(e), k) == Get(e, k) && (k in Project(e) <==> k in e)
    ensures Get(Project(e), "message").Object? == Get(e, "message").Object?
    ensures Get(e, "message").Object? ==>
              Get(Get(Project(e), "message").fields, "model") == Get(Get(e, "message").fields, "model")
    ensures Project(e).Keys <= KEPT + {"message"}
  {
  }

  lemma NotPrefix(s: string, prefix: string)
    requires s != "" && prefix != "" && s[0] != prefix[0]
    ensures !StartsWith(s, prefix)
  {
    if |prefix| <= |s| {
      assert s[..|prefix|][0] == s[0];
    }
  }

  lemma RetainedIsNoHook(e: Event)
    requires Retained(e)
    ensures !HookEvent(e) && !BashHeartbeat(Policy(Files(true), {}), e)
    ensures !NamesIn(Get(e, "type"), FORBIDDEN) && Get(e, "type") != Text("tool_progress")
    ensures Get(e, "type") == Text("system") ==>
              Get(e, "subtype").Text? && !StartsWith(Get(e, "subtype").text, "task_")
  {
    NotPrefix(Get(e, "type").text, "hook_");
    if Get(e, "type") == Text("system") {
      NotPrefix("init", "hook_");
    }
  }

  lemma StrippedInit(e: Event, allowed: set<string>)
    ensures InitAllowed(Project(e), allowed)
  {
    assert "tools" !in KEPT && "tools" != "message";
    assert "mcp_servers" !in KEPT && "plugins" !in KEPT && "skills" !in KEPT && "permissionMode" !in KEPT;
    assert Project(e).Keys <= KEPT + {"message"};
  }

  lemma StrippedContent(e: Event, allowed: set<string>)
    ensures var content := Content(Project(e));
            content.Items? ==> forall i :: 0 <= i < |content.items| ==> BlockAllowed(content.items[i], allowed)
  {
    TextBlocksAllowed(if Content(e).Items? then Content(e).items else [], allowed);
  }

  lemma StrippedStaysAllowed(e: Event, allowed: set<string>)
    requires Retained(e) && Get(e, "parent_tool_use_id") == Null
    ensures EventAllowed(Project(e), allowed)
  {
    ProjectReadsAlike(e);
    var s := Project(e);
    assert Retained(s);
    RetainedIsNoHook(s);
    StrippedInit(e, allowed);
    StrippedContent(e, allowed);
    assert !HookEvent(s) && !NamesIn(Get(s, "type"), FORBIDDEN);
  }

  lemma StrippedStaysText(e: Event)
    requires Retained(e) && Get(e, "parent_tool_use_id") == Null
    ensures TextOnlyAllowed(Project(e))
  {
    var s := Project(e);
    ProjectReadsAlike(e);
    StrippedText(e);
    hide Project, StartsWith, TextOnlyInit, ToolBlock;
    RetainedDoesNotAct(s);
  }

  lemma StrippedText(e: Event)
    ensures Content(Project(e)).Items? ==>
              forall i :: 0 <= i < |Content(Project(e)).items| ==> !ToolBlock(Content(Project(e)).items[i])
    ensures TextOnlyInit(Project(e))
  {
    TextBlocksAreText(if Content(e).Items? then Content(e).items else []);
    assert Project(e).Keys <= KEPT + {"message"};
    assert "tools" !in KEPT && "mcp_servers" !in KEPT && "plugins" !in KEPT && "skills" !in KEPT
        && "permissionMode" !in KEPT;
  }

  lemma RetainedDoesNotAct(s: Event)
    requires Get(s, "type") in {Text("assistant"), Text("result"), Text("prompt_suggestion"), Text("system")}
    requires Get(s, "type") == Text("system") ==> Get(s, "subtype") == Text("init")
    ensures !NamesIn(Get(s, "type"), ACTING) && Get(s, "type") != Text("stream_event")
    ensures Get(s, "type") == Text("system") ==> !StartsWith("init", "hook_") && "init" !in TASKS
  {
    NotPrefix("init", "hook_");
  }

  lemma {:induction false} TextBlocksAreText(items: seq<Value>)
    ensures forall i :: 0 <= i < |TextBlocks(items)| ==> !ToolBlock(TextBlocks(items)[i])
  {
    if items != [] {
      TextBlocksAreText(items[1..]);
      assert !EndsWith("text", "tool_use") && !EndsWith("text", "tool_result");
    }
  }

  /** A retained event the policy accepted is accepted again once stripped, by any policy state. */
  lemma ProjectionPassesPolicy(p: Policy, q: Policy, e: Event)
    requires Retained(e) && Check(p, e).Some? && p.mode == q.mode
    ensures Check(q, Project(e)).Some? && Check(q, Project(e)).value.mode == q.mode
  {
    ProjectReadsAlike(e);
    var s := Project(e);
    assert !BashHeartbeat(p, e) && !BashHeartbeat(q, s) by {
      RetainedIsNoHook(e);
    }
    if q.mode.TextOnly? {
      StrippedStaysText(e);
    } else {
      StrippedStaysAllowed(e, ToolsAllowed(q));
    }
    if Content(s).Items? {
      TrackKeepsProfile(q, Get(s, "type"), Content(s).items);
    }
  }

  lemma {:induction false} TrackKeepsProfile(p: Policy, kind: Value, blocks: seq<Value>)
    ensures TrackBlocks(p, kind, blocks).mode == p.mode
  {
    if blocks != [] {
      TrackKeepsProfile(p, kind, blocks[..|blocks| - 1]);
    }
  }

  lemma CheckKeepsProfile(p: Policy, e: Event)
    requires Check(p, e).Some?
    ensures Check(p, e).value.mode == p.mode
  {
    if Content(e).Items? {
      TrackKeepsProfile(p, Get(e, "type"), Content(e).items);
    }
  }

  lemma {:induction false} ProjectionPassesPolicies(p: Policy, q: Policy, events: seq<Event>)
    requires CheckAll(p, events).Some? && q.mode == p.mode
    ensures CheckAll(q, Projection(events)).Some? && |Projection(events)| <= |events|
    decreases |events|
  {
    if events != [] {
      var p', rest := Check(p, events[0]).value, events[1..];
      CheckKeepsProfile(p, events[0]);
      if Retained(events[0]) {
        ProjectionPassesPolicy(p, q, events[0]);
        ProjectionPassesPolicies(p', Check(q, Project(events[0])).value, rest);
        ProjectionCons(events);
      } else {
        ProjectionPassesPolicies(p', q, rest);
        ProjectionCons(events);
      }
    }
  }

  lemma ProjectionCons(events: seq<Event>)
    requires events != []
    ensures Retained(events[0]) ==>
              Projection(events) != [] && Projection(events)[0] == Project(events[0])
              && Projection(events)[1..] == Projection(events[1..])
    ensures !Retained(events[0]) ==> Projection(events) == Projection(events[1..])
  {
  }

  /** What an accepted list of events looks like. */
  lemma {:induction false} AcceptedLines(r: Reader, events: seq<Event>)
    requires Lines(r, events).Some?
    ensures var last := Lines(r, events).value;
            && (r.session.Some? ==> last.session == r.session)
            && last.count == r.count + |events| && (events != [] ==> last.count <= EventLimit(r.policy.mode))
            && last.policy.mode == r.policy.mode && last.size == r.size
            && (r.output <= MAX_OUTPUT_BYTES ==> last.output <= MAX_OUTPUT_BYTES)
            && (last.terminalSeen <==> r.terminalSeen || exists e :: e in events && Is(e, "result"))
    ensures CheckAll(r.policy, events).Some?
    ensures forall e: Event :: e in events && "session_id" in e ==>
              && Lines(r, events).value.session.Some? && UuidText(Lines(r, events).value.session.value)
              && e["session_id"] == Text(Lines(r, events).value.session.value)
    ensures forall e :: e in events && Is(e, "result") ==> ValidateTerminal(e).Some?
    ensures r.terminalSeen ==> forall e :: e in events ==> Suggestion(e)
    decreases |events|
  {
    if events != [] {
      CheckKeepsProfile(r.policy, events[0]);
      AcceptedLines(Line(r, events[0]).value, events[1..]);
    }
  }

  lemma {:induction false} AcceptedTerminal(r: Reader, events: seq<Event>)
    requires Lines(r, events).Some? && !r.terminalSeen
    ensures Terminal(events).Some? <==> exists e :: e in events && Is(e, "result")
    ensures Terminal(events).Some? ==> Terminal(events).value in events && Is(Terminal(events).value, "result")
    ensures Terminal(Projection(events)) ==
            if Terminal(events).Some? then Some(Project(Terminal(events).value)) else None
    decreases |events|
  {
    hide Check, ValidateTerminal, SessionId, UuidText, Project, CheckAll;
    if events != [] {
      var rest, next := events[1..], Line(r, events[0]).value;
      ProjectReadsAlike(events[0]);
      ProjectionCons(events);
      if Is(events[0], "result") {
        AcceptedLines(next, rest);
        SuggestionsStay(rest);
        assert forall i :: 1 <= i < |events| ==> events[i] == rest[i - 1];
        var p := Projection(events);
        assert forall i :: 1 <= i < |p| ==> p[i] == p[1..][i - 1];
      } else {
        AcceptedTerminal(next, rest);
      }
    }
  }

  lemma {:induction false} SuggestionsStay(events: seq<Event>)
    requires forall e :: e in events ==> Suggestion(e)
    ensures forall i :: 0 <= i < |Projection(events)| ==> Suggestion(Projection(events)[i])
  {
    if events != [] {
      SuggestionsStay(events[1..]);
      ProjectReadsAlike(events[0]);
    }
  }

  lemma {:induction false} ProjectionNotesAlike(k: Evidence, events: seq<Event>, session: string)
    ensures Notes(k, Projection(events), session) == Notes(k, events, session)
    decreases |events|
  {
    if events != [] {
      var e := events[0];
      ProjectReadsAlike(e);
      ProjectionNotesAlike(Note(k, e, session), events[1..], session);
      ProjectionCons(events);
      assert if Retained(e) then Note(k, Project(e), session) == Note(k, e, session) else Note(k, e, session) == k;
    }
  }

  lemma {:induction false} ProjectionSessions(events: seq<Event>, session: string)
    requires forall e :: e in events ==> SameSession(e, session)
    ensures forall e :: e in Projection(events) ==> SameSession(e, session)
  {
    if events != [] {
      ProjectionSessions(events[1..], session);
      ProjectReadsAlike(events[0]);
      assert SameSession(events[0], session);
    }
  }

  lemma TerminalReadsAlike(t: Event, error: Option<string>)
    ensures ValidateTerminal(Project(t)) == ValidateTerminal(t)
    ensures FailureCode(Project(t), error) == FailureCode(t, error)
    ensures Get(Project(t), "session_id") == Get(t, "session_id") && Get(Project(t), "result") == Get(t, "result")
  {
    ProjectReadsAlike(t);
  }

  /** An accepted stream with a result has one session, which its terminal names. */
  lemma AcceptedSession(r: Reader, events: seq<Event>)
    requires Lines(r, events).Some? && !r.terminalSeen && Terminal(events).Some?
    ensures var t := Terminal(events).value; var session := SessionId(Get(t, "session_id"));
            && ValidateTerminal(t).Some? && session.Some? && t in events
            && (forall e :: e in events ==> SameSession(e, session.value))
            && (r.session.Some? ==> session == r.session)
  {
    AcceptedLines(r, events);
    AcceptedTerminal(r, events);
    assert "session_id" in Terminal(events).value;
  }

  /**
   * Parsing only the retained projection of an accepted stream gives the same
   * text, session and model, the same failure code, or the same refusal.
   */
  lemma ProjectionKeepsTheVerdict(events: seq<Event>, size: Event -> nat, bytes: nat, mode: Mode,
                                  expected: Option<string>, requested: Option<string>, returncode: int)
    requires Lines(Fresh(expected, mode, size), events).Some? && bytes <= ByteLimit(mode)
    ensures Parse(Projection(events), Lines(Fresh(expected, mode, size), events).value.output, mode, expected,
                  requested, returncode)
            == Parse(events, bytes, mode, expected, requested, returncode)
  {
    var r := Fresh(expected, mode, size);
    AcceptedCounts(r, events);
    AcceptedTerminal(r, events);
    ProjectionPassesPolicies(r.policy, r.policy, events);
    if Terminal(events).Some? {
      AcceptedSession(r, events);
      var t := Terminal(events).value;
      var session := SessionId(Get(t, "session_id")).value;
      var none := Evidence(None, None, None);
      ProjectionSessions(events, session);
      ProjectionNotesAlike(none, events, session);
      TerminalReadsAlike(t, Notes(none, events, session).assistantError);
    }
  }

  lemma AcceptedCounts(r: Reader, events: seq<Event>)
    requires Lines(r, events).Some? && r.count == 0
    ensures CheckAll(r.policy, events).Some? && |events| <= EventLimit(r.policy.mode)
    ensures r.output <= MAX_OUTPUT_BYTES ==> Lines(r, events).value.output <= MAX_OUTPUT_BYTES
  {
    AcceptedLines(r, events);
  }

  /**
   * The reader already decided the outcome: an accepted stream is refused only without a result or
   * by its exit code.
   */
  lemma AcceptedStreamsParse(events: seq<Event>, size: Event -> nat, bytes: nat, mode: Mode,
                             expected: Option<string>, requested: Option<string>, returncode: int)
    requires Lines(Fresh(expected, mode, size), events).Some? && bytes <= ByteLimit(mode)
    ensures var v := Parse(events, bytes, mode, expected, requested, returncode);
            v.Refused? <==>
            || (forall e :: e in events ==> !Is(e, "result"))
            || (returncode != 0 && exists e :: e in events && Is(e, "result") && ValidateTerminal(e) == Some(false))
  {
    var r := Fresh(expected, mode, size);
    AcceptedCounts(r, events);
    AcceptedTerminal(r, events);
    if Terminal(events).Some? {
      AcceptedSession(r, events);
      OneResult(r, events);
    }
  }

  lemma {:induction false} OneResult(r: Reader, events: seq<Event>)
    requires Lines(r, events).Some? && !r.terminalSeen && Terminal(events).Some?
    ensures forall e :: e in events && Is(e, "result") ==> e == Terminal(events).value
    decreases |events|
  {
    if events != [] {
      var next := Line(r, events[0]).value;
      if Is(events[0], "result") {
        AcceptedLines(next, events[1..]);
      } else {
        OneResult(next, events[1..]);
      }
    }
  }

  method CheckEvents(events: seq<Event>, mode: Mode) returns (ok: bool)
    ensures ok <==> CheckAll(Policy(mode, {}), events).Some?
  {
    hide Check;
    var policy := Policy(mode, {});
    for i := 0 to |events|
      invariant CheckAll(Policy(mode, {}), events) == CheckAll(policy, events[i..])
    {
      var next := Check(policy, events[i]);
      assert events[i..][1..] == events[i + 1..];
      if next.None? {
        return false;
      }
      policy := next.value;
    }
    ok := true;
  }

  method FindTerminal(events: seq<Event>) returns (terminal: Option<Event>)
    ensures terminal == Terminal(events)
  {
    var at := 0;
    while at < |events| && !Is(events[at], "result")
      invariant 0 <= at <= |events|
      invariant Terminal(events) == Terminal(events[at..])
    {
      assert events[at..][1..] == events[at + 1..];
      at := at + 1;
    }
    if at == |events| {
      return None;
    }
    assert forall i :: 1 <= i < |events[at..]| ==> events[at..][i] == events[at + i];
    for i := at + 1 to |events|
      invariant forall j :: at < j < i ==> Suggestion(events[j])
    {
      if !Suggestion(events[i]) {
        assert !Suggestion(events[at..][i - at]);
        return None;
      }
    }
    terminal := Some(events[at]);
  }

  method ReadEvidence(events: seq<Event>, session: string) returns (k: Option<Evidence>)
    ensures k.Some? <==> forall e :: e in events ==> SameSession(e, session)
    ensures k.Some? ==> k.value == Notes(Evidence(None, None, None), events, session)
  {
    hide Note;
    var seen := Evidence(None, None, None);
    for i := 0 to |events|
      invariant forall j :: 0 <= j < i ==> SameSession(events[j], session)
      invariant Notes(Evidence(None, None, None), events, session) == Notes(seen, events[i..], session)
    {
      if !SameSession(events[i], session) {
        return None;
      }
      assert events[i..][1..] == events[i + 1..];
      seen := Note(seen, events[i], session);
    }
    k := Some(seen);
  }

  /** What parse_claude_stream does with the events of its lines. */
  method ParseEvents(events: seq<Event>, bytes: nat, mode: Mode, expected: Option<string>,
                     requested: Option<string>, returncode: int) returns (v: Verdict)
    ensures v == Parse(events, bytes, mode, expected, requested, returncode)
  {
    hide CheckAll, Terminal, Notes, Check, FailureCode, Strip;
    if bytes > ByteLimit(mode) {
      return Refused;
    }
    var allowed := CheckEvents(events, mode);
    var terminal := FindTerminal(events);
    if !allowed || |events| > EventLimit(mode) || terminal.None? {
      return Refused;
    }
    var t := terminal.value;
    var session := SessionId(Get(t, "session_id"));
    if session.None? || (expected.Some? && session != expected) {
      return Refused;
    }
    var k := ReadEvidence(events, session.value);
    if k.None? {
      return Refused;
    }
    var isError := ValidateTerminal(t);
    if isError.None? {
      return Refused;
    }
    if isError.value {
      return Failed(FailureCode(t, k.value.assistantError), session.value);
    }
    if returncode != 0 {
      return Refused;
    }
    v := Parsed(Strip(Get(t, "result").text), session.value,
                First(First(k.value.answered, k.value.initialized), requested));
  }
}
