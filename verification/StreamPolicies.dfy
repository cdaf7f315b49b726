/**
 * What the two event policies let through, as the signs that make them refuse,
 * and which foreground Bash calls a file-tool stream has running.
 */
module StreamPolicies {
  import opened Wrappers
  import opened Json
  import opened Texts
  import opened ClaudeStream

  // ----- signs -----

  predicate TypeEnds(v: Value, suffix: string) {
    v.Object? && Get(v.fields, "type").Text? && EndsWith(Get(v.fields, "type").text, suffix)
  }

  /** A block that uses a tool or carries what a tool gave. */
  predicate ToolSign(v: Value) {
    TypeEnds(v, "tool_use") || TypeEnds(v, "tool_result")
  }

  function Blocks(e: Event): seq<Value> {
    if Get(e, "message").Object? && Get(Get(e, "message").fields, "content").Items?
    then Get(Get(e, "message").fields, "content").items else []
  }

  predicate Nonempty(e: Event, key: string) {
    key in e && e[key] != Items([])
  }

  predicate SubtypeStarts(e: Event, prefix: string) {
    Get(e, "type") == Text("system") && Get(e, "subtype").Text? && StartsWith(Get(e, "subtype").text, prefix)
  }

  predicate Initialises(e: Event) {
    Get(e, "type") == Text("system") && Get(e, "subtype") == Text("init")
  }

  /** The first of its reasons for which a text-only stream is refused at this event. */
  datatype Sign = NoSign | Acting | Hooked | Equipped | Child | Tooled | Streaming

  function TextOnlySign(e: Event): Sign {
    if Get(e, "type").Text? && Get(e, "type").text in {
         "control_request", "control_response", "tool_progress", "tool_use_summary", "hook_started", "hook_progress",
         "hook_response", "task_started", "task_progress", "task_notification"}
    then Acting
    else if SubtypeStarts(e, "hook_")
            || (Get(e, "type") == Text("system")
                && Get(e, "subtype") in {Text("task_started"), Text("task_progress"), Text("task_notification")})
    then Hooked
    else if Initialises(e) && (Nonempty(e, "tools") || Nonempty(e, "mcp_servers") || Nonempty(e, "plugins")
                               || Nonempty(e, "skills")
                               || ("permissionMode" in e && e["permissionMode"] != Text("dontAsk")))
    then Equipped
    else if Get(e, "parent_tool_use_id") != Null then Child
    else if exists i :: 0 <= i < |Blocks(e)| && ToolSign(Blocks(e)[i]) then Tooled
    else if Get(e, "type") == Text("stream_event") && Get(e, "event").Object?
            && (ToolSign(Get(Get(e, "event").fields, "content_block"))
                || (Get(Get(e, "event").fields, "delta").Object?
                    && Get(Get(Get(e, "event").fields, "delta").fields, "type") == Text("input_json_delta")))
    then Streaming
    else NoSign
  }

  lemma ToolSigns(e: Event)
    ensures forall v :: ToolBlock(v) <==> ToolSign(v)
    ensures (Content(e).Items? ==> forall i :: 0 <= i < |Content(e).items| ==> !ToolBlock(Content(e).items[i]))
            <==> !exists i :: 0 <= i < |Blocks(e)| && ToolSign(Blocks(e)[i])
  {
    hide EndsWith;
    assert Blocks(e) == if Content(e).Items? then Content(e).items else [];
  }

  lemma HookSigns(e: Event)
    ensures (Get(e, "type") == Text("system") && Get(e, "subtype").Text?
             && (StartsWith(Get(e, "subtype").text, "hook_") || Get(e, "subtype").text in TASKS))
            <==> SubtypeStarts(e, "hook_")
                 || (Get(e, "type") == Text("system")
                     && Get(e, "subtype") in {Text("task_started"), Text("task_progress"), Text("task_notification")})
  {
    hide StartsWith;
  }

  lemma InitSigns(e: Event)
    ensures !TextOnlyInit(e) <==>
            || Nonempty(e, "tools") || Nonempty(e, "mcp_servers") || Nonempty(e, "plugins") || Nonempty(e, "skills")
            || ("permissionMode" in e && e["permissionMode"] != Text("dontAsk"))
  {
  }

  lemma StreamSigns(e: Event)
    ensures StreamedTool(e) <==>
            && Get(e, "event").Object?
            && (ToolSign(Get(Get(e, "event").fields, "content_block"))
                || (Get(Get(e, "event").fields, "delta").Object?
                    && Get(Get(Get(e, "event").fields, "delta").fields, "type") == Text("input_json_delta")))
  {
    hide EndsWith;
  }

  /** Without an event policy nothing may act, hook, be equipped, come from a child or use a tool. */
  lemma TextOnlyIff(p: Policy, e: Event)
    requires p.mode.TextOnly?
    ensures Check(p, e) == if TextOnlySign(e) == NoSign then Some(p) else None
  {
    hide StartsWith, EndsWith, ToolSign, ToolBlock, TextOnlyInit, StreamedTool, SubtypeStarts, Blocks, Content,
      Nonempty;
    ToolSigns(e);
    HookSigns(e);
    InitSigns(e);
    StreamSigns(e);
  }

  /** The tools of a file policy. */
  predicate Granted(v: Value, bash: bool) {
    v in {Text("Read"), Text("Glob"), Text("Grep"), Text("Write"), Text("Edit")} || (bash && v == Text("Bash"))
  }

  function FileSign(e: Event, bash: bool): Sign {
    if Get(e, "parent_tool_use_id") != Null then Child
    else if (Get(e, "type").Text? && Get(e, "type").text in {
               "control_request", "control_response", "task_started", "task_progress", "task_notification",
               "stream_event"})
            || SubtypeStarts(e, "task_")
    then Acting
    else if Initialises(e)
            && (("tools" in e && !(e["tools"].Items? && forall i :: 0 <= i < |e["tools"].items| ==>
                                   Granted(e["tools"].items[i], bash)))
                || Nonempty(e, "mcp_servers") || Nonempty(e, "plugins") || Nonempty(e, "skills")
                || ("permissionMode" in e && e["permissionMode"] !in {Text("manual"), Text("default")}))
    then Equipped
    else if (SubtypeStarts(e, "hook_") || (Get(e, "type").Text? && StartsWith(Get(e, "type").text, "hook_")))
            && Get(e, "hook_name") != Text("PermissionRequest")
    then Hooked
    else if (Get(e, "type") == Text("tool_progress") && !Granted(Get(e, "tool_name"), bash))
            || exists i :: 0 <= i < |Blocks(e)| && TypeEnds(Blocks(e)[i], "tool_use")
                           && !Granted(Get(Blocks(e)[i].fields, "name"), bash)
    then Tooled
    else NoSign
  }

  lemma GrantedIffAllowed(p: Policy, v: Value)
    requires p.mode.Files?
    ensures Granted(v, p.mode.bash) <==> NamesIn(v, ToolsAllowed(p))
  {
  }

  lemma FileSignIff(p: Policy, e: Event)
    requires p.mode.Files?
    ensures EventAllowed(e, ToolsAllowed(p)) <==> FileSign(e, p.mode.bash) == NoSign
  {
    hide StartsWith, EndsWith, NamesIn, ToolsAllowed, Granted, InitAllowed, HookEvent, BlockAllowed, Blocks, Content,
      TypeEnds, Nonempty, SubtypeStarts;
    forall v
      ensures Granted(v, p.mode.bash) <==> NamesIn(v, ToolsAllowed(p))
    {
      GrantedIffAllowed(p, v);
    }
    FileInitSigns(p, e);
    FileBlockSigns(p, e);
    FileKindSigns(e);
  }

  lemma FileInitSigns(p: Policy, e: Event)
    requires p.mode.Files?
    ensures !InitAllowed(e, ToolsAllowed(p)) <==>
            || ("tools" in e && !(e["tools"].Items? && forall i :: 0 <= i < |e["tools"].items| ==>
                                  Granted(e["tools"].items[i], p.mode.bash)))
            || Nonempty(e, "mcp_servers") || Nonempty(e, "plugins") || Nonempty(e, "skills")
            || ("permissionMode" in e && e["permissionMode"] !in {Text("manual"), Text("default")})
  {
    hide ToolsAllowed, Granted;
    forall v
      ensures Granted(v, p.mode.bash) <==> NamesIn(v, ToolsAllowed(p))
    {
      GrantedIffAllowed(p, v);
    }
  }

  lemma FileBlockSigns(p: Policy, e: Event)
    requires p.mode.Files?
    ensures (Content(e).Items? ==> forall i :: 0 <= i < |Content(e).items| ==>
                                   BlockAllowed(Content(e).items[i], ToolsAllowed(p)))
            <==> !exists i :: 0 <= i < |Blocks(e)| && TypeEnds(Blocks(e)[i], "tool_use")
                              && !Granted(Get(Blocks(e)[i].fields, "name"), p.mode.bash)
  {
    hide ToolsAllowed, Granted, NamesIn, EndsWith;
    forall v
      ensures Granted(v, p.mode.bash) <==> NamesIn(v, ToolsAllowed(p))
    {
      GrantedIffAllowed(p, v);
    }
    assert Blocks(e) == if Content(e).Items? then Content(e).items else [];
  }

  lemma FileKindSigns(e: Event)
    ensures NamesIn(Get(e, "type"), FORBIDDEN) <==>
            Get(e, "type").Text? && Get(e, "type").text in {
              "control_request", "control_response", "task_started", "task_progress", "task_notification",
              "stream_event"}
    ensures HookEvent(e) <==>
            SubtypeStarts(e, "hook_") || (Get(e, "type").Text? && StartsWith(Get(e, "type").text, "hook_"))
    ensures SubtypeStarts(e, "task_") <==>
            Get(e, "type") == Text("system") && Get(e, "subtype").Text? && StartsWith(Get(e, "subtype").text, "task_")
  {
    hide StartsWith;
  }

  /** The progress a running Bash call reports of itself: exactly these fields, about a call of this stream. */
  ghost predicate Heartbeats(e: Event, running: string) {
    && e.Keys == {"type", "tool_use_id", "tool_name", "parent_tool_use_id", "elapsed_time_seconds", "heartbeat",
                  "session_id", "uuid"}
    && e["type"] == Text("tool_progress") && e["tool_name"] == Text("Bash") && e["heartbeat"] == Flag(true)
    && e["parent_tool_use_id"] == Text(running)
    && e["elapsed_time_seconds"].Number? && 0 <= e["elapsed_time_seconds"].number
    && e["session_id"].Text? && 1 <= |e["session_id"].text| <= 128
    && e["uuid"].Text? && 1 <= |e["uuid"].text| <= 128
    && e["tool_use_id"].Text?
    && exists digits :: e["tool_use_id"].text == running + "-heartbeat-" + digits && Digits(digits)
  }

  predicate Digits(s: string) {
    1 <= |s| <= 16 && forall i :: 0 <= i < |s| ==> '0' <= s[i] <= '9'
  }

  lemma HeartbeatIff(p: Policy, e: Event)
    ensures BashHeartbeat(p, e) <==> p.mode == Files(true) && exists id :: id in p.active && Heartbeats(e, id)
  {
    if BashHeartbeat(p, e) {
      var id := e["parent_tool_use_id"].text;
      var prefix := id + "-heartbeat-";
      var digits := e["tool_use_id"].text[|prefix|..];
      assert e["tool_use_id"].text == prefix + digits;
      assert Digits(digits);
      assert Heartbeats(e, id);
    }
    if p.mode == Files(true) && exists id :: id in p.active && Heartbeats(e, id) {
      var id :| id in p.active && Heartbeats(e, id);
      var digits :| e["tool_use_id"].text == id + "-heartbeat-" + digits && Digits(digits);
      var prefix := id + "-heartbeat-";
      assert e["tool_use_id"].text[..|prefix|] == prefix && e["tool_use_id"].text[|prefix|..] == digits;
    }
  }

  /**
   * A file-tool stream is refused at an event exactly if it shows a sign, except that the heartbeat of
   * a running Bash call may name that call as its parent.
   */
  lemma FileEventIff(p: Policy, e: Event)
    requires p.mode.Files?
    ensures Check(p, e).Some? <==>
            || FileSign(e, p.mode.bash) == NoSign
            || (p.mode.bash && exists id :: id in p.active && Heartbeats(e, id))
  {
    hide EventAllowed, FileSign, Heartbeats, BashHeartbeat;
    HeartbeatIff(p, e);
    FileSignIff(p, e);
    if BashHeartbeat(p, e) {
      FileSignIff(p, e["parent_tool_use_id" := Null]);
      HeartbeatIsQuiet(p, e);
    }
  }

  lemma HeartbeatIsQuiet(p: Policy, e: Event)
    requires BashHeartbeat(p, e)
    ensures FileSign(e["parent_tool_use_id" := Null], true) == NoSign
  {
    var quiet := e["parent_tool_use_id" := Null];
    assert quiet["type"] == Text("tool_progress") && quiet["tool_name"] == Text("Bash");
    assert "message" !in quiet;
    NotPrefix("tool_progress", "hook_");
  }

  // ----- running calls -----

  /** Whether the last of these blocks that mentions a call starts it; None if none does. */
  function Mentions(kind: Value, blocks: seq<Value>, id: string): Option<bool> {
    if blocks == [] then None
    else
      var last := blocks[|blocks| - 1];
      if last.Object? && kind == Text("user") && Get(last.fields, "type") == Text("tool_result")
         && Get(last.fields, "tool_use_id") == Text(id)
      then Some(false)
      else if last.Object? && kind == Text("assistant") && Get(last.fields, "type") == Text("tool_use")
              && Get(last.fields, "name") == Text("Bash") && Get(last.fields, "id") == Text(id) && 1 <= |id| <= 128
      then Some(true)
      else Mentions(kind, blocks[..|blocks| - 1], id)
  }

  /** An assistant started this Bash call, and no user event has brought its result since. */
  function Running(events: seq<Event>, id: string): bool {
    if events == [] then false
    else
      var last := events[|events| - 1];
      var mentioned := Mentions(Get(last, "type"), Blocks(last), id);
      if mentioned.Some? then mentioned.value else Running(events[..|events| - 1], id)
  }

  lemma {:induction false} TrackedIffMentioned(p: Policy, kind: Value, blocks: seq<Value>, id: string)
    ensures id in TrackBlocks(p, kind, blocks).active <==>
            var mentioned := Mentions(kind, blocks, id); if mentioned.Some? then mentioned.value else id in p.active
    ensures TrackBlocks(p, kind, blocks).mode == p.mode
  {
    if blocks != [] {
      TrackedIffMentioned(p, kind, blocks[..|blocks| - 1], id);
    }
  }

  lemma {:induction false} CheckAllAppend(p: Policy, events: seq<Event>, e: Event)
    ensures CheckAll(p, events + [e])
         == if CheckAll(p, events).None? then None else Check(CheckAll(p, events).value, e)
    decreases |events|
  {
    hide Check;
    if events == [] {
      assert (events + [e])[1..] == [];
    } else {
      assert (events + [e])[1..] == events[1..] + [e];
      if Check(p, events[0]).Some? {
        CheckAllAppend(Check(p, events[0]).value, events[1..], e);
      }
    }
  }

  /** Along every stream a Bash policy accepts, the calls it tracks are exactly those running. */
  lemma {:induction false} ActiveIffRunning(events: seq<Event>, id: string)
    requires CheckAll(Policy(Files(true), {}), events).Some?
    ensures var p := CheckAll(Policy(Files(true), {}), events).value;
            p.mode == Files(true) && (id in p.active <==> Running(events, id))
  {
    if events != [] {
      hide EventAllowed, BashHeartbeat;
      var earlier, last := events[..|events| - 1], events[|events| - 1];
      assert events == earlier + [last];
      CheckAllAppend(Policy(Files(true), {}), earlier, last);
      ActiveIffRunning(earlier, id);
      var p := CheckAll(Policy(Files(true), {}), earlier).value;
      TrackedIffMentioned(p, Get(last, "type"), Blocks(last), id);
    }
  }

  /** So the only child event such a stream may hold is a heartbeat of a Bash call that is running there. */
  lemma ChildIsAHeartbeat(events: seq<Event>, k: nat)
    requires CheckAll(Policy(Files(true), {}), events).Some? && k < |events|
    requires Get(events[k], "parent_tool_use_id") != Null
    ensures exists id :: Running(events[..k], id) && Heartbeats(events[k], id)
  {
    hide FileSign, Heartbeats, Check, Running;
    PrefixChecks(events, k);
    var p := CheckAll(Policy(Files(true), {}), events[..k]).value;
    ActiveIffRunning(events[..k], "");
    FileEventIff(p, events[k]);
    ParentIsASign(events[k]);
    var id :| id in p.active && Heartbeats(events[k], id);
    ActiveIffRunning(events[..k], id);
  }

  lemma ParentIsASign(e: Event)
    ensures Get(e, "parent_tool_use_id") != Null ==> FileSign(e, true) != NoSign
  {
  }

  lemma {:induction false} PrefixChecks(events: seq<Event>, k: nat)
    requires CheckAll(Policy(Files(true), {}), events).Some? && k < |events|
    ensures CheckAll(Policy(Files(true), {}), events[..k]).Some?
    ensures Check(CheckAll(Policy(Files(true), {}), events[..k]).value, events[k]).Some?
    decreases |events|
  {
    hide Check;
    var earlier, last := events[..|events| - 1], events[|events| - 1];
    assert events == earlier + [last];
    CheckAllAppend(Policy(Files(true), {}), earlier, last);
    if k < |earlier| {
      PrefixChecks(earlier, k);
      assert earlier[..k] == events[..k];
    } else {
      assert events[..k] == earlier;
    }
  }
}
