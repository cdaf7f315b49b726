/**
 * Collecting one Codex turn: notifications that arrive while turn/start is
 * unanswered are filtered and buffered, and the wait reads the buffer first.
 */
module TurnCollector {
  import opened Wrappers
  import opened Json
  import opened Texts
  import opened TurnMessages

  const MAX_BUFFERED: nat := 1024

  datatype Kind = Usage | Item | TurnEnd | ErrorNote | Unrelated

  function KindOf(m: Message): Kind {
    var name := Get(m, "method");
    if name == Text("thread/tokenUsage/updated") then Usage
    else if name == Text("item/completed") then Item
    else if name == Text("turn/completed") then TurnEnd
    else if name == Text("error") then ErrorNote
    else Unrelated
  }

  predicate Elsewhere(p: Event, thread: string) {
    "threadId" in p && p["threadId"] != Text(thread)
  }

  predicate VisibleItem(p: Event) {
    var item := Get(p, "item");
    item.Object? && Is(item.fields, "agentMessage") && Get(item.fields, "text").Text?
  }

  /** retain_turn_notification: what is worth buffering before the turn's id is known. */
  predicate Retain(m: Message, thread: Option<string>, turn: Option<string>) {
    var params := Get(m, "params");
    if thread.None? || !params.Object? || Elsewhere(params.fields, thread.value) then false
    else if KindOf(m).Unrelated? || (KindOf(m).Item? && !VisibleItem(params.fields)) then false
    else
      var id := if KindOf(m).TurnEnd? then Get(Fields(Get(params.fields, "turn")), "id")
          else Get(params.fields, "turnId");
      id.Text? && id.text != "" && (turn.None? || id.text == turn.value)
  }

  datatype Verdict = Waiting | Completed | Failed(message: string) | Drifted | CallbackFailed | Broken(error: string)

  /**
   * Which settings updates report a changed permission selection, and which
   * calls of the visible-item and completion callbacks raise.
   */
  datatype Env = Env(drifts: Message -> bool, refusesItem: (string, string, string) -> bool,
                     refusesResult: Turn -> bool)

  /** The wait's local variables and the callbacks it has made. */
  datatype Turn = Turn(
    answers: seq<string>,
    items: seq<(string, string)>,
    seen: set<string>,
    window: Value,
    used: Value,
    visible: seq<(string, string, string)>,
    verdict: Verdict)

  const FRESH: Turn := Turn([], [], {}, Null, Null, [], Waiting)

  /** Only a settings notification, never a request or a reply, can report drift. */
  predicate Drifts(env: Env, m: Message) {
    Get(m, "method") == Text("thread/settings/updated") && "id" !in m && env.drifts(m)
  }

  /** Python truth of a value read from JSON. */
  predicate Truthy(v: Value) {
    match v
    case Null => false
    case Flag(f) => f
    case Number(n) => n != 0
    case Text(s) => s != ""
    case Items(s) => s != []
    case Object(f) => |f| > 0
  }

  /** A bool is an int in Python. */
  predicate IsInt(v: Value) {
    v.Number? || v.Flag?
  }

  /** str() of a value that is neither text nor absent never spells a phase, so one such name stands for all. */
  function Shown(v: Value, otherwise: string): string {
    if !Truthy(v) then otherwise else if v.Text? then v.text else "<value>"
  }

  function OnUsage(t: Turn, p: Event): Turn {
    var usage := Get(p, "tokenUsage");
    if !usage.Object? then t
    else
      var window := Get(usage.fields, "modelContextWindow");
      var total := Get(Fields(Get(usage.fields, "last")), "totalTokens");
      t.(window := if IsInt(window) then window else t.window, used := if IsInt(total) then total else t.used)
  }

  function OnItem(t: Turn, p: Event, env: Env): Turn {
    if !VisibleItem(p) then t
    else
      var item := Get(p, "item").fields;
      var id, text, phase := Get(item, "id"), Get(item, "text").text, Shown(Get(item, "phase"), "unknown");
      if id.Text? && id.text in t.seen then t
      else
        var kept := t.(answers := t.answers + [text], items := t.items + [(phase, text)]);
        if !id.Text? then kept
        else if Blank(text) then kept.(seen := t.seen + {id.text})
        else
          kept.(seen := t.seen + {id.text}, visible := t.visible + [(id.text, text, phase)],
                verdict := if env.refusesItem(id.text, text, phase) then CallbackFailed else t.verdict)
  }

  function OnTurnEnd(t: Turn, turn: Event, env: Env): Turn {
    var status := Get(turn, "status");
    if status.Items? || status.Object? then t.(verdict := Failed("unhashable type"))
    else if status == Text("failed") || status == Text("interrupted") then
      t.(verdict := Failed(Shown(Get(Fields(Get(turn, "error")), "message"), "Codex turn " + status.text)))
    else t.(verdict := if env.refusesResult(t) then CallbackFailed else Completed)
  }

  function OnError(t: Turn, p: Event): Turn {
    if Get(p, "willRetry") == Flag(true) then t
    else
      var inner := Shown(Get(Fields(Get(p, "error")), "message"), "");
      t.(verdict := Failed(if inner != "" then inner else Shown(Get(p, "message"), "Codex turn failed")))
  }

  /** One message of the wait; the environment says which messages drift and which callbacks raise. */
  function Step(t: Turn, m: Message, thread: string, turn: string, env: Env): Turn {
    if !t.verdict.Waiting? then t
    else if Drifts(env, m) then t.(verdict := Drifted)
    else if "id" in m && Truthy(Get(m, "method")) then t
    else
      var params := Get(m, "params");
      if !params.Object? || Elsewhere(params.fields, thread) then t
      else
        var p := params.fields;
        match KindOf(m)
        case Usage => if Get(p, "turnId") == Text(turn) then OnUsage(t, p) else t
        case Item => if Get(p, "turnId") == Text(turn) then OnItem(t, p, env) else t
        case TurnEnd =>
          var ended := Get(p, "turn");
          if ended.Object? && Get(ended.fields, "id") == Text(turn) then OnTurnEnd(t, ended.fields, env) else t
        case ErrorNote => if Get(p, "turnId") == Text(turn) then OnError(t, p) else t
        case Unrelated => t
  }

  function OnInput(t: Turn, i: Input, thread: string, turn: string, env: Env): Turn {
    match i
    case Received(m) => Step(t, m, thread, turn, env)
    case Lost(error) => if t.verdict.Waiting? then t.(verdict := Broken(error)) else t
  }

  /** The one fold over a receive order. */
  function Fold(t: Turn, inputs: seq<Input>, thread: string, turn: string, env: Env): Turn
    decreases |inputs|
  {
    if inputs == [] then t else Fold(OnInput(t, inputs[0], thread, turn, env), inputs[1..], thread, turn, env)
  }

  function Kept(inputs: seq<Input>, thread: string): seq<Input>
    decreases |inputs|
  {
    if inputs == [] then []
    else
      var rest := Kept(inputs[1..], thread);
      if inputs[0].Received? && IsNote(inputs[0].message) && Retain(inputs[0].message, Some(thread), None)
      then [inputs[0]] + rest else rest
  }

  /** The id by which a notification says whose turn it is about. */
  function TurnId(m: Message): Value {
    var p := Fields(Get(m, "params"));
    if Get(m, "method") == Text("turn/completed") then Get(Fields(Get(p, "turn")), "id") else Get(p, "turnId")
  }

  /**
   * Worth buffering are the four kinds of notification of this thread or of none, an item only if it is
   * an agent message, and only with a turn id, which must be the turn's once that is known.
   */
  lemma RetainIff(m: Message, thread: string, turn: Option<string>)
    ensures Retain(m, Some(thread), turn) <==>
            && Get(m, "params").Object?
            && var p := Get(m, "params").fields;
            && ("threadId" in p ==> p["threadId"] == Text(thread))
            && (|| Get(m, "method") in {Text("thread/tokenUsage/updated"), Text("turn/completed"), Text("error")}
                || (Get(m, "method") == Text("item/completed") && Get(p, "item").Object?
                    && Get(Get(p, "item").fields, "type") == Text("agentMessage")
                    && Get(Get(p, "item").fields, "text").Text?))
            && TurnId(m).Text? && TurnId(m) != Text("") && (turn.Some? ==> TurnId(m) == Text(turn.value))
    ensures !Retain(m, None, turn)
  {
  }

  predicate IsNote(m: Message) {
    "method" in m && "id" !in m
  }

  /** Whatever the filter drops the wait would have ignored, knowing the turn id or not. */
  lemma DroppedIsIgnored(t: Turn, m: Message, thread: string, turn: string, known: Option<string>, env: Env)
    requires turn != "" && !Drifts(env, m) && (known.Some? ==> known.value == turn)
    requires !IsNote(m) || !Retain(m, Some(thread), known)
    ensures Step(t, m, thread, turn, env) == t
  {
    if !IsNote(m) && "method" !in m {
      assert KindOf(m).Unrelated?;
    } else if !IsNote(m) {
      assert !Truthy(Get(m, "method")) ==> KindOf(m).Unrelated?;
    }
  }

  predicate Quiet(inputs: seq<Input>, env: Env) {
    forall i :: 0 <= i < |inputs| ==> inputs[i].Received? && !Drifts(env, inputs[i].message)
  }

  lemma {:induction false} FoldKept(t: Turn, inputs: seq<Input>, thread: string, turn: string, env: Env)
    requires turn != "" && Quiet(inputs, env)
    ensures Fold(t, Kept(inputs, thread), thread, turn, env) == Fold(t, inputs, thread, turn, env)
    decreases |inputs|
  {
    if inputs != [] {
      var m, rest := inputs[0].message, Kept(inputs[1..], thread);
      if IsNote(m) && Retain(m, Some(thread), None) {
        assert ([inputs[0]] + rest)[1..] == rest;
      } else {
        DroppedIsIgnored(t, m, thread, turn, None, env);
      }
      FoldKept(OnInput(t, inputs[0], thread, turn, env), inputs[1..], thread, turn, env);
    }
  }

  lemma {:induction false} FoldAppend(t: Turn, a: seq<Input>, b: seq<Input>, thread: string, turn: string, env: Env)
    ensures Fold(t, a + b, thread, turn, env) == Fold(Fold(t, a, thread, turn, env), b, thread, turn, env)
    decreases |a|
  {
    if a == [] {
      assert a + b == b;
    } else {
      assert (a + b)[1..] == a[1..] + b;
      FoldAppend(OnInput(t, a[0], thread, turn, env), a[1..], b, thread, turn, env);
    }
  }

  lemma {:induction false} SettledStays(t: Turn, inputs: seq<Input>, thread: string, turn: string, env: Env)
    requires !t.verdict.Waiting?
    ensures Fold(t, inputs, thread, turn, env) == t
    decreases |inputs|
  {
    if inputs != [] {
      SettledStays(t, inputs[1..], thread, turn, env);
    }
  }

  /** A reply to the request with this number; a bool equals an int in Python. */
  predicate Replies(m: Message, request: int) {
    && !("method" in m && "id" in m)
    && (Get(m, "id") == Number(request) || (Get(m, "id").Flag? && request == if Get(m, "id").flag then 1 else 0))
  }

  /**
   * Where the reply falls in the receive order makes no difference: buffering
   * what passes the filter and reading it back first is one fold over all.
   */
  lemma SplitIsInvisible(before: seq<Input>, reply: Message, after: seq<Input>, request: int,
                         thread: string, turn: string, env: Env)
    requires turn != "" && Quiet(before, env) && Replies(reply, request)
    ensures Fold(FRESH, Kept(before, thread) + after, thread, turn, env)
         == Fold(FRESH, before + [Received(reply)] + after, thread, turn, env)
         == Fold(FRESH, before + after, thread, turn, env)
  {
    var mid := Fold(FRESH, before, thread, turn, env);
    FoldKept(FRESH, before, thread, turn, env);
    FoldAppend(FRESH, Kept(before, thread), after, thread, turn, env);
    FoldAppend(FRESH, before, after, thread, turn, env);
    FoldAppend(FRESH, before, [Received(reply)] + after, thread, turn, env);
    assert before + [Received(reply)] + after == before + ([Received(reply)] + after);
    assert !IsNote(reply);
    DroppedIsIgnored(mid, reply, thread, turn, None, env);
    assert ([Received(reply)] + after)[1..] == after;
  }

  /** The token count an input reports for this turn, if it reports one the wait will take. */
  function Reported(i: Input, thread: string, turn: string, member: string, inner: bool): Option<Value> {
    var usage := Fields(Get(Params(i), "tokenUsage"));
    var v := Get(if inner then Fields(Get(usage, "last")) else usage, member);
    if Notifies(i, "thread/tokenUsage/updated", thread) && OfTurn(i, turn) && (v.Number? || v.Flag?)
    then Some(v) else None
  }

  function LastReported(inputs: seq<Input>, thread: string, turn: string, member: string, inner: bool): Value {
    if inputs == [] then Null
    else
      var last := Reported(inputs[|inputs| - 1], thread, turn, member, inner);
      if last.Some? then last.value else LastReported(inputs[..|inputs| - 1], thread, turn, member, inner)
  }

  lemma {:induction false} FoldLast(t: Turn, inputs: seq<Input>, i: Input, thread: string, turn: string, env: Env)
    ensures Fold(t, inputs + [i], thread, turn, env) == OnInput(Fold(t, inputs, thread, turn, env), i, thread, turn,
                                                                env)
  {
    FoldAppend(t, inputs, [i], thread, turn, env);
    assert [i][1..] == [];
  }

  lemma UsageStep(t: Turn, i: Input, thread: string, turn: string, env: Env)
    requires t.verdict.Waiting? && OnInput(t, i, thread, turn, env).verdict.Waiting? && turn != ""
    ensures var total := Reported(i, thread, turn, "totalTokens", true);
            OnInput(t, i, thread, turn, env).used == if total.Some? then total.value else t.used
    ensures var window := Reported(i, thread, turn, "modelContextWindow", false);
            OnInput(t, i, thread, turn, env).window == if window.Some? then window.value else t.window
  {
  }

  /** While a turn runs, its counts are the last integers reported for exactly this thread and turn. */
  lemma {:induction false} UsageIsTheLatest(inputs: seq<Input>, thread: string, turn: string, env: Env)
    requires turn != "" && Fold(FRESH, inputs, thread, turn, env).verdict.Waiting?
    ensures var t := Fold(FRESH, inputs, thread, turn, env);
            && t.used == LastReported(inputs, thread, turn, "totalTokens", true)
            && t.window == LastReported(inputs, thread, turn, "modelContextWindow", false)
  {
    if inputs != [] {
      var init, last := inputs[..|inputs| - 1], inputs[|inputs| - 1];
      assert inputs == init + [last];
      FoldLast(FRESH, init, last, thread, turn, env);
      UsageIsTheLatest(init, thread, turn, env);
      UsageStep(Fold(FRESH, init, thread, turn, env), last, thread, turn, env);
    }
  }

  /** Each native item is collected and shown at most once, under its own id, and everything shown was collected. */
  predicate ShownOnce(t: Turn) {
    && |t.answers| == |t.items|
    && (forall k :: 0 <= k < |t.items| ==> t.answers[k] == t.items[k].1)
    && (forall j, k :: 0 <= j < k < |t.visible| ==> t.visible[j].0 != t.visible[k].0)
    && (forall k :: 0 <= k < |t.visible| ==>
          t.visible[k].0 in t.seen && (t.visible[k].2, t.visible[k].1) in t.items && !Blank(t.visible[k].1))
  }

  lemma ShownOnceStep(t: Turn, i: Input, thread: string, turn: string, env: Env)
    requires ShownOnce(t)
    ensures ShownOnce(OnInput(t, i, thread, turn, env))
  {
    hide KindOf, Truthy, Elsewhere, Shown, IsInt;
    var after := OnInput(t, i, thread, turn, env);
    if after.items != t.items {
      assert after.items[|t.items|] in after.items;
    }
  }

  lemma {:induction false} ItemsAreShownOnce(inputs: seq<Input>, thread: string, turn: string, env: Env)
    ensures ShownOnce(Fold(FRESH, inputs, thread, turn, env))
  {
    if inputs != [] {
      var init, last := inputs[..|inputs| - 1], inputs[|inputs| - 1];
      assert inputs == init + [last];
      FoldLast(FRESH, init, last, thread, turn, env);
      ItemsAreShownOnce(init, thread, turn, env);
      ShownOnceStep(Fold(FRESH, init, thread, turn, env), last, thread, turn, env);
    }
  }

  predicate TextOrAbsent(v: Value) {
    v.Text? || v.Null?
  }

  /** What may settle a turn with this verdict, and what a failure then says. */
  predicate Settles(i: Input, thread: string, turn: string, env: Env, verdict: Verdict) {
    if i.Lost? then verdict == Broken(i.error)
    else if Get(i.message, "method") == Text("thread/settings/updated") then
      verdict == Drifted && "id" !in i.message && env.drifts(i.message)
    else if EndOf(i, thread, turn) then
      var status, said := StatusIn(i), Get(Fields(Get(Fields(Get(Params(i), "turn")), "error")), "message");
      if status == Text("failed") || status == Text("interrupted") then
        && verdict.Failed?
        && (TextOrAbsent(said) ==> verdict.message == Prefer(said, "Codex turn " + status.text))
      else if status.Items? || status.Object? then verdict.Failed?
      else verdict.Completed? || verdict.CallbackFailed?
    else if ErrorOf(i, thread, turn) then
      var inner, outer := Get(Fields(Get(Params(i), "error")), "message"), Get(Params(i), "message");
      && verdict.Failed?
      && (TextOrAbsent(inner) && TextOrAbsent(outer) ==>
            verdict.message == Prefer(inner, Prefer(outer, "Codex turn failed")))
    else MessageIn(i, thread, turn).Some? && verdict.CallbackFailed?
  }

  lemma ShownPrefers(v: Value, otherwise: string)
    requires TextOrAbsent(v)
    ensures Shown(v, otherwise) == Prefer(v, otherwise)
  {
  }

  /** Which handler a message reaches. */
  lemma MessageReaches(t: Turn, i: Input, thread: string, turn: string, env: Env)
    requires t.verdict.Waiting? && i.Received? && !Drifts(env, i.message)
    ensures EndOf(i, thread, turn) ==>
        OnInput(t, i, thread, turn, env) == OnTurnEnd(t, Get(Params(i), "turn").fields, env)
    ensures ErrorOf(i, thread, turn) ==> OnInput(t, i, thread, turn, env) == OnError(t, Params(i))
    ensures !EndOf(i, thread, turn) && !ErrorOf(i, thread, turn) && MessageIn(i, thread, turn).None? ==>
        OnInput(t, i, thread, turn, env).verdict.Waiting?
  {
    hide OnTurnEnd, Shown, PhaseOf, IsInt, Blank, Truthy;
    TextIsTruthy();
  }

  lemma EndSettles(t: Turn, turn: Event, env: Env)
    requires t.verdict.Waiting?
    ensures var status, said := Get(turn, "status"), Get(Fields(Get(turn, "error")), "message");
            var verdict := OnTurnEnd(t, turn, env).verdict;
            if status == Text("failed") || status == Text("interrupted") then
              && verdict.Failed?
              && (TextOrAbsent(said) ==> verdict.message == Prefer(said, "Codex turn " + status.text))
            else if status.Items? || status.Object? then verdict.Failed?
            else verdict == if env.refusesResult(t) then CallbackFailed else Completed
  {
    hide Shown, Prefer;
    var status, said := Get(turn, "status"), Get(Fields(Get(turn, "error")), "message");
    if status.Text? && TextOrAbsent(said) {
      ShownPrefers(said, "Codex turn " + status.text);
    }
  }

  lemma ErrorSettles(t: Turn, p: Event)
    requires t.verdict.Waiting? && Get(p, "willRetry") != Flag(true)
    ensures var inner, outer := Get(Fields(Get(p, "error")), "message"), Get(p, "message");
            var verdict := OnError(t, p).verdict;
            && verdict.Failed?
            && (TextOrAbsent(inner) && TextOrAbsent(outer) ==>
                  verdict.message == Prefer(inner, Prefer(outer, "Codex turn failed")))
  {
    hide Shown, Prefer;
    var inner, outer := Get(Fields(Get(p, "error")), "message"), Get(p, "message");
    if TextOrAbsent(inner) && TextOrAbsent(outer) {
      ShownPrefers(inner, "");
      ShownPrefers(outer, "Codex turn failed");
      PrefersTwice(inner, Prefer(outer, "Codex turn failed"));
    }
  }

  lemma SettlesStep(t: Turn, i: Input, thread: string, turn: string, env: Env)
    requires t.verdict.Waiting? && !OnInput(t, i, thread, turn, env).verdict.Waiting?
    ensures Settles(i, thread, turn, env, OnInput(t, i, thread, turn, env).verdict)
  {
    if i.Received? && !Drifts(env, i.message) {
      SettlesQuietly(t, i, thread, turn, env);
    }
  }

  lemma SettlesQuietly(t: Turn, i: Input, thread: string, turn: string, env: Env)
    requires t.verdict.Waiting? && i.Received? && !Drifts(env, i.message)
    requires !OnInput(t, i, thread, turn, env).verdict.Waiting?
    ensures Settles(i, thread, turn, env, OnInput(t, i, thread, turn, env).verdict)
  {
    hide OnInput, OnTurnEnd, OnError, Prefer;
    MessageReaches(t, i, thread, turn, env);
    if EndOf(i, thread, turn) {
      EndSettles(t, Get(Params(i), "turn").fields, env);
    } else if ErrorOf(i, thread, turn) {
      ErrorSettles(t, Params(i));
    } else {
      MessageFails(t, i, thread, turn, env);
    }
  }

  lemma MessageFails(t: Turn, i: Input, thread: string, turn: string, env: Env)
    requires t.verdict.Waiting? && i.Received? && MessageIn(i, thread, turn).Some?
    ensures var verdict := OnInput(t, i, thread, turn, env).verdict; verdict.Waiting? || verdict.CallbackFailed?
    ensures Get(i.message, "method") == Text("item/completed")
  {
    hide Shown, PhaseOf, IsInt, Blank, Truthy;
    TextIsTruthy();
  }

  lemma PrefersTwice(v: Value, otherwise: string)
    ensures Prefer(v, otherwise) == if Prefer(v, "") != "" then Prefer(v, "") else otherwise
  {
  }

  lemma TextIsTruthy()
    ensures forall s :: s != "" ==> Truthy(Text(s))
  {
  }

  /** A verdict comes from the first input that settles this very turn, and nothing before it did. */
  lemma {:induction false} VerdictHasItsCause(inputs: seq<Input>, thread: string, turn: string, env: Env)
      returns (k: nat)
    requires !Fold(FRESH, inputs, thread, turn, env).verdict.Waiting?
    ensures k < |inputs| && Settles(inputs[k], thread, turn, env, Fold(FRESH, inputs, thread, turn, env).verdict)
    ensures Fold(FRESH, inputs[..k], thread, turn, env).verdict.Waiting?
    ensures !OnInput(Fold(FRESH, inputs[..k], thread, turn, env), inputs[k], thread, turn, env).verdict.Waiting?
  {
    var init, last := inputs[..|inputs| - 1], inputs[|inputs| - 1];
    assert inputs == init + [last];
    FoldLast(FRESH, init, last, thread, turn, env);
    if Fold(FRESH, init, thread, turn, env).verdict.Waiting? {
      k := |inputs| - 1;
      SettlesStep(Fold(FRESH, init, thread, turn, env), last, thread, turn, env);
    } else {
      k := VerdictHasItsCause(init, thread, turn, env);
      assert inputs[..k] == init[..k];
    }
  }

  /** What leaves a waiting turn waiting: no end, no final error, no drift and no lost transport. */
  lemma {:induction false} NoEndIsMissed(inputs: seq<Input>, k: nat, thread: string, turn: string, env: Env)
    requires Fold(FRESH, inputs, thread, turn, env).verdict.Waiting? && k < |inputs|
    ensures inputs[k].Received? && !EndOf(inputs[k], thread, turn) && !ErrorOf(inputs[k], thread, turn)
    ensures !(Get(inputs[k].message, "method") == Text("thread/settings/updated") && "id" !in inputs[k].message
              && env.drifts(inputs[k].message))
  {
    hide OnTurnEnd, OnError, EndOf, ErrorOf;
    var init, last := inputs[..|inputs| - 1], inputs[|inputs| - 1];
    assert inputs == init + [last];
    FoldLast(FRESH, init, last, thread, turn, env);
    var before := Fold(FRESH, init, thread, turn, env);
    WaitingBefore(before, last, thread, turn, env);
    if k < |inputs| - 1 {
      NoEndIsMissed(init, k, thread, turn, env);
    } else {
      EndSettlesNow(before, last, thread, turn, env);
    }
  }

  lemma EndSettlesNow(t: Turn, i: Input, thread: string, turn: string, env: Env)
    requires t.verdict.Waiting? && OnInput(t, i, thread, turn, env).verdict.Waiting?
    ensures i.Received? && !EndOf(i, thread, turn) && !ErrorOf(i, thread, turn) && !Drifts(env, i.message)
  {
    hide OnTurnEnd, OnError, Prefer;
    if i.Received? && !Drifts(env, i.message) {
      MessageReaches(t, i, thread, turn, env);
      if EndOf(i, thread, turn) {
        EndSettles(t, Get(Params(i), "turn").fields, env);
      } else if ErrorOf(i, thread, turn) {
        ErrorSettles(t, Params(i));
      }
    }
  }

  // ----- exactly the first-seen messages are collected and shown -----

  /** The messages a callback is told of: those with a native id and something to show. */
  function Showable(messages: seq<AgentMessage>): seq<(string, string, string)> {
    if messages == [] then []
    else
      var last := messages[|messages| - 1];
      Showable(messages[..|messages| - 1])
      + if last.id.Some? && !Blank(last.text) then [(last.id.value, last.text, last.phase)] else []
  }

  predicate Holds(t: Turn, messages: seq<AgentMessage>) {
    && |t.answers| == |t.items| == |messages|
    && (forall k :: 0 <= k < |messages| ==> t.answers[k] == messages[k].text)
    && (forall k :: 0 <= k < |messages| ==> t.items[k] == (messages[k].phase, messages[k].text))
    && t.visible == Showable(messages)
    && (forall k :: 0 <= k < |messages| && messages[k].id.Some? ==> messages[k].id.value in t.seen)
    && (forall id :: id in t.seen ==> exists k :: 0 <= k < |messages| && messages[k].id == Some(id))
  }

  lemma PhaseIsShown(v: Value)
    ensures Shown(v, "unknown") == PhaseOf(v)
  {
  }

  lemma OtherLeaves(t: Turn, i: Input, thread: string, turn: string, env: Env)
    requires MessageIn(i, thread, turn).None?
    ensures var after := OnInput(t, i, thread, turn, env);
            && after.answers == t.answers && after.items == t.items
            && after.visible == t.visible && after.seen == t.seen
  {
    hide Shown;
  }

  lemma MessageCollects(t: Turn, i: Input, thread: string, turn: string, env: Env)
    requires t.verdict.Waiting? && MessageIn(i, thread, turn).Some?
    ensures var after, m := OnInput(t, i, thread, turn, env), MessageIn(i, thread, turn).value;
            if m.id.Some? && m.id.value in t.seen then after == t
            else
              && after.answers == t.answers + [m.text] && after.items == t.items + [(m.phase, m.text)]
              && after.seen == t.seen + (if m.id.Some? then {m.id.value} else {})
              && after.visible == t.visible + (if m.id.Some? && !Blank(m.text) then [(m.id.value, m.text, m.phase)]
                                              else [])
              && after.verdict == if m.id.Some? && !Blank(m.text) && env.refusesItem(m.id.value, m.text, m.phase)
                                  then CallbackFailed else Waiting
  {
    hide Shown, PhaseOf, Truthy, Blank;
    PhaseIsShown(Get(Fields(Get(Params(i), "item")), "phase"));
    TextIsTruthy();
  }

  lemma ShowsOneMore(messages: seq<AgentMessage>, m: AgentMessage)
    ensures Showable(messages + [m]) == Showable(messages)
            + if m.id.Some? && !Blank(m.text) then [(m.id.value, m.text, m.phase)] else []
  {
    assert (messages + [m])[..|messages|] == messages;
  }

  lemma HoldsMore(t: Turn, after: Turn, earlier: seq<AgentMessage>, m: AgentMessage)
    requires Holds(t, earlier) && after.visible == Showable(earlier + [m])
    requires after.answers == t.answers + [m.text] && after.items == t.items + [(m.phase, m.text)]
    requires after.seen == t.seen + if m.id.Some? then {m.id.value} else {}
    ensures Holds(after, earlier + [m])
  {
    hide Showable;
    var messages := earlier + [m];
    assert forall k :: 0 <= k < |earlier| ==> messages[k] == earlier[k];
    assert messages[|earlier|] == m;
    forall id | id in after.seen
      ensures exists k :: 0 <= k < |messages| && messages[k].id == Some(id)
    {
      if id in t.seen {
        var k :| 0 <= k < |earlier| && earlier[k].id == Some(id);
        assert messages[k].id == Some(id);
      }
    }
  }

  lemma HoldsStep(t: Turn, inputs: seq<Input>, i: Input, thread: string, turn: string, env: Env)
    requires t.verdict.Waiting? && Holds(t, FirstSeen(inputs, thread, turn))
    ensures Holds(OnInput(t, i, thread, turn, env), FirstSeen(inputs + [i], thread, turn))
  {
    hide MessageIn, OnInput, Showable, Blank;
    assert (inputs + [i])[..|inputs|] == inputs;
    var earlier, m := FirstSeen(inputs, thread, turn), MessageIn(i, thread, turn);
    if m.None? {
      OtherLeaves(t, i, thread, turn, env);
    } else {
      MessageCollects(t, i, thread, turn, env);
      ShowsOneMore(earlier, m.value);
      if !Repeats(earlier, m.value) {
        HoldsMore(t, OnInput(t, i, thread, turn, env), earlier, m.value);
      }
    }
  }

  /**
   * While a turn runs, it has collected exactly its first-seen agent messages in receive order, each
   * with its own phase, and shown exactly those that have an id and say something.
   */
  lemma {:induction false} CollectsFirstSeen(inputs: seq<Input>, thread: string, turn: string, env: Env)
    requires Fold(FRESH, inputs, thread, turn, env).verdict.Waiting?
    ensures Holds(Fold(FRESH, inputs, thread, turn, env), FirstSeen(inputs, thread, turn))
  {
    hide Holds;
    if inputs == [] {
      NothingYet(thread, turn);
    } else {
      var init, last := inputs[..|inputs| - 1], inputs[|inputs| - 1];
      assert inputs == init + [last];
      FoldLast(FRESH, init, last, thread, turn, env);
      WaitingBefore(Fold(FRESH, init, thread, turn, env), last, thread, turn, env);
      CollectsFirstSeen(init, thread, turn, env);
      HoldsStep(Fold(FRESH, init, thread, turn, env), init, last, thread, turn, env);
    }
  }

  lemma NothingYet(thread: string, turn: string)
    ensures Holds(FRESH, FirstSeen([], thread, turn))
  {
  }

  lemma WaitingBefore(t: Turn, i: Input, thread: string, turn: string, env: Env)
    requires OnInput(t, i, thread, turn, env).verdict.Waiting?
    ensures t.verdict.Waiting?
  {
  }

  // The visible answer.

  function Chosen(items: seq<(string, string)>, phase: string): seq<string> {
    if items == [] then []
    else (if items[0].0 == phase && items[0].1 != "" then [items[0].1] else []) + Chosen(items[1..], phase)
  }

  function VisibleParts(items: seq<(string, string)>): seq<string> {
    if Chosen(items, "final_answer") != [] then Chosen(items, "final_answer") else Chosen(items, "unknown")
  }

  /** _final_visible_text. */
  function FinalVisibleText(items: seq<(string, string)>): string {
    Strip(JoinedBy(VisibleParts(items), "\n\n"))
  }

  lemma {:induction false} ChosenAppend(a: seq<(string, string)>, b: seq<(string, string)>, phase: string)
    ensures Chosen(a + b, phase) == Chosen(a, phase) + Chosen(b, phase)
  {
    if a == [] {
      assert a + b == b;
    } else {
      assert (a + b)[1..] == a[1..] + b;
      ChosenAppend(a[1..], b, phase);
    }
  }

  /** The parts of the answer are the messages' own texts of that phase, in receive order. */
  lemma {:induction false} ChosenIsSpoken(items: seq<(string, string)>, messages: seq<AgentMessage>, phase: string)
    requires |items| == |messages|
    requires forall k :: 0 <= k < |items| ==> items[k] == (messages[k].phase, messages[k].text)
    ensures Chosen(items, phase) == Spoken(messages, phase)
  {
    if items != [] {
      var n := |items| - 1;
      assert items == items[..n] + [items[n]];
      ChosenAppend(items[..n], [items[n]], phase);
      ChosenIsSpoken(items[..n], messages[..n], phase);
      assert [items[n]][1..] == [];
    }
  }

  /**
   * The answer of a turn that completed: at the end of that very turn, the first-seen final answers in
   * receive order, or else what had no phase.
   */
  lemma CompletedAnswer(inputs: seq<Input>, thread: string, turn: string, env: Env) returns (k: nat)
    requires Fold(FRESH, inputs, thread, turn, env).verdict.Completed?
    ensures k < |inputs| && EndOf(inputs[k], thread, turn)
    ensures StatusIn(inputs[k]) != Text("failed") && StatusIn(inputs[k]) != Text("interrupted")
    ensures Fold(FRESH, inputs[..k], thread, turn, env).verdict.Waiting?
    ensures FinalVisibleText(Fold(FRESH, inputs, thread, turn, env).items) == Answer(inputs[..k], thread, turn)
  {
    hide Strip, JoinedBy, OnInput, Chosen, Spoken, MessageIn, KindOf;
    k := VerdictHasItsCause(inputs, thread, turn, env);
    var before := Fold(FRESH, inputs[..k], thread, turn, env);
    FoldsTo(inputs, k, thread, turn, env);
    CollectsFirstSeen(inputs[..k], thread, turn, env);
    var messages := FirstSeen(inputs[..k], thread, turn);
    EndLeavesItems(before, inputs[k], thread, turn, env);
    ChosenIsSpoken(before.items, messages, "final_answer");
    ChosenIsSpoken(before.items, messages, "unknown");
  }

  lemma EndLeavesItems(t: Turn, i: Input, thread: string, turn: string, env: Env)
    requires t.verdict.Waiting? && EndOf(i, thread, turn)
    ensures OnInput(t, i, thread, turn, env).items == t.items
  {
    hide Shown, IsInt, Blank, Truthy;
    TextIsTruthy();
  }

  lemma FoldsTo(inputs: seq<Input>, k: nat, thread: string, turn: string, env: Env)
    requires k < |inputs| && Fold(FRESH, inputs[..k], thread, turn, env).verdict.Waiting?
    requires !OnInput(Fold(FRESH, inputs[..k], thread, turn, env), inputs[k], thread, turn, env).verdict.Waiting?
    ensures Fold(FRESH, inputs, thread, turn, env)
         == OnInput(Fold(FRESH, inputs[..k], thread, turn, env), inputs[k], thread, turn, env)
  {
    hide OnInput;
    var before := Fold(FRESH, inputs[..k], thread, turn, env);
    assert inputs == inputs[..k] + ([inputs[k]] + inputs[k + 1..]);
    FoldAppend(FRESH, inputs[..k], [inputs[k]] + inputs[k + 1..], thread, turn, env);
    FoldAppend(before, [inputs[k]], inputs[k + 1..], thread, turn, env);
    assert [inputs[k]][1..] == [];
    SettledStays(OnInput(before, inputs[k], thread, turn, env), inputs[k + 1..], thread, turn, env);
  }

  lemma {:induction false} KeptAppend(inputs: seq<Input>, i: Input, thread: string)
    ensures Kept(inputs + [i], thread) == Kept(inputs, thread) + Kept([i], thread)
    decreases |inputs|
  {
    if inputs == [] {
      assert inputs + [i] == [i];
    } else {
      assert (inputs + [i])[1..] == inputs[1..] + [i];
      KeptAppend(inputs[1..], i, thread);
    }
  }

  datatype Refusal = DriftedBefore | TransportError(error: string) | BufferFull | Rejected | NoResult | NoTurnId
  datatype Start = Accepted(turn: string) | Refused(why: Refusal)

  /** What the reply to turn/start says. */
  function Reading(reply: Message): (r: Start)
    ensures r.Accepted? ==> r.turn != ""
  {
    var id := Get(Fields(Get(Fields(Get(reply, "result")), "turn")), "id");
    if "error" in reply then Refused(Rejected)
    else if "result" !in reply then Refused(NoResult)
    else if !id.Text? || id.text == "" then Refused(NoTurnId)
    else Accepted(id.text)
  }

  /** A reply accepts the turn exactly if it reports no error and names it; otherwise it says what is missing. */
  lemma ReadingIff(reply: Message)
    ensures var id := Get(Fields(Get(Fields(Get(reply, "result")), "turn")), "id");
            && (Reading(reply).Accepted? <==>
                "error" !in reply && "result" in reply && id.Text? && id.text != "")
            && (Reading(reply).Accepted? ==> id == Text(Reading(reply).turn))
            && ("error" in reply ==> Reading(reply) == Refused(Rejected))
            && ("error" !in reply && "result" !in reply ==> Reading(reply) == Refused(NoResult))
            && ("error" !in reply && "result" in reply && !Reading(reply).Accepted? ==>
                Reading(reply) == Refused(NoTurnId))
  {
  }

  const TIMED_OUT := Lost("timed out waiting for Codex")

  class CodexAppServerClient {
    var incoming: seq<Input>
    var notifications: seq<Message>
    var thread: Option<string>
    var turn: Option<string>
    var drifted: bool
    const env: Env

    constructor (incoming: seq<Input>, env: Env)
      ensures this.incoming == incoming && this.env == env && !drifted
    {
      this.incoming, this.env := incoming, env;
      notifications, thread, turn, drifted := [], None, None, false;
    }

    function Buffered(): seq<Input>
      reads this
    {
      var notes := notifications;
      seq(|notes|, i requires 0 <= i < |notes| => Received(notes[i]))
    }

    method Receive() returns (i: Input)
      modifies this`incoming
      ensures old(incoming) == [] ==> i == TIMED_OUT && incoming == []
      ensures old(incoming) != [] ==> old(incoming) == [i] + incoming
    {
      if incoming == [] {
        return TIMED_OUT;
      }
      i := incoming[0];
      incoming := incoming[1..];
    }

    /** Whether a notification among these reported a changed permission selection. */
    function DriftSeen(inputs: seq<Input>): bool {
      if inputs == [] then false else DriftSeen(inputs[..|inputs| - 1]) || DriftNote(inputs[|inputs| - 1])
    }

    predicate DriftNote(i: Input) {
      i.Received? && Drifts(env, i.message)
    }

    lemma NoDriftIsQuiet(inputs: seq<Input>)
      requires !DriftSeen(inputs) && forall i :: 0 <= i < |inputs| ==> inputs[i].Received?
      ensures Quiet(inputs, env)
    {
      if inputs != [] {
        NoDriftIsQuiet(inputs[..|inputs| - 1]);
        assert !DriftNote(inputs[|inputs| - 1]);
      }
    }

    /** One notification while the request is outstanding; refused only when the buffer is full. */
    method Keep(note: Message, thread: string) returns (ok: bool)
      requires this.thread == Some(thread) && turn.None? && |notifications| <= MAX_BUFFERED
      modifies this`notifications, this`drifted
      ensures drifted == (old(drifted) || DriftNote(Received(note)))
      ensures ok ==> Buffered() == old(Buffered()) + Kept([Received(note)], thread) && |notifications| <= MAX_BUFFERED
      ensures !ok ==> |old(Buffered()) + Kept([Received(note)], thread)| == MAX_BUFFERED + 1
    {
      ok := true;
      if !IsNote(note) {
        return;
      }
      drifted := drifted || Drifts(env, note);
      if !Retain(note, this.thread, turn) {
        return;
      }
      if |notifications| >= MAX_BUFFERED {
        return false;
      }
      notifications := notifications + [note];
    }

    /** Send turn/start and read until its reply, buffering what the turn will need. */
    method StartTurn(thread: string, request: int)
        returns (start: Start, ghost before: seq<Input>, ghost reply: Message)
      modifies this
      ensures old(drifted) ==> start == Refused(DriftedBefore) && incoming == old(incoming)
      ensures !old(drifted) && (start.Accepted? || start.why in {Rejected, NoResult, NoTurnId}) ==>
                && old(incoming) == before + [Received(reply)] + incoming
                && (forall i :: 0 <= i < |before| ==> before[i].Received? && !Replies(before[i].message, request))
                && Replies(reply, request) && start == Reading(reply)
                && Buffered() == Kept(before, thread) && |notifications| <= MAX_BUFFERED
                && drifted == DriftSeen(before)
      ensures start == Refused(BufferFull) ==>
          before + incoming == old(incoming) && |Kept(before, thread)| == 1025
      ensures start.Accepted? ==> this.thread == Some(thread) && turn == Some(start.turn)
      ensures start.Refused? && !old(drifted) ==> this.thread.None? && turn.None?
    {
      hide Retain, Drifts, Replies, IsNote;
      before, reply := [], map[];
      if drifted {
        return Refused(DriftedBefore), before, reply;
      }
      notifications, this.thread, turn := [], Some(thread), None;
      var i := Receive();
      while i.Received? && !Replies(i.message, request)
        invariant i == TIMED_OUT || old(incoming) == before + [i] + incoming
        invariant forall j :: 0 <= j < |before| ==> before[j].Received? && !Replies(before[j].message, request)
        invariant Buffered() == Kept(before, thread) && |notifications| <= MAX_BUFFERED
        invariant drifted == DriftSeen(before)
        invariant this.thread == Some(thread) && turn.None?
        decreases |incoming|, i.Received?
      {
        KeptAppend(before, i, thread);
        ghost var seen := before;
        before := before + [i];
        assert before[..|seen|] == seen;
        var ok := Keep(i.message, thread);
        if !ok {
          this.thread := None;
          return Refused(BufferFull), before, reply;
        }
        i := Receive();
      }
      if i.Lost? {
        this.thread := None;
        return Refused(TransportError(i.error)), before, reply;
      }
      reply := i.message;
      start := Reading(i.message);
      if start.Accepted? {
        turn := Some(start.turn);
      } else {
        this.thread := None;
      }
    }

    /** Read the buffer, then the transport, until something settles the turn. */
    method WaitForTurn(thread: string, turn: string) returns (t: Turn)
      modifies this
      ensures old(drifted) ==> t == FRESH.(verdict := Drifted)
      ensures !old(drifted) ==> t == Fold(FRESH, old(Buffered()) + old(incoming) + [TIMED_OUT], thread, turn, env)
    {
      t := FRESH;
      if drifted {
        t := t.(verdict := Drifted);
      }
      ghost var all := Buffered() + incoming + [TIMED_OUT];
      while t.verdict.Waiting?
        invariant !old(drifted) ==>
            Fold(FRESH, all, thread, turn, env) == Fold(t, Buffered() + incoming + [TIMED_OUT], thread, turn, env)
        invariant old(drifted) ==> t == FRESH.(verdict := Drifted)
        decreases |notifications| + |incoming|, t.verdict.Waiting?
      {
        ghost var left := Buffered() + incoming + [TIMED_OUT];
        var i;
        if notifications != [] {
          i := Received(notifications[0]);
          notifications := notifications[1..];
        } else {
          i := Receive();
        }
        assert left[0] == i;
        assert |left| > 1 ==> left[1..] == Buffered() + incoming + [TIMED_OUT];
        t := OnInput(t, i, thread, turn, env);
        if |left| == 1 {
          SettledStays(t, left, thread, turn, env);
        }
      }
      SettledStays(t, Buffered() + incoming + [TIMED_OUT], thread, turn, env);
    }

    /**
     * A whole turn reads exactly as one pass over everything received, unless the permission
     * drifted before the reply; a completed one gives the answer of what was received before its end.
     */
    method RunTurn(thread: string, request: int)
        returns (start: Start, t: Turn, answer: string, ghost before: seq<Input>, ghost reply: Message,
                 ghost end: nat)
      requires !drifted
      modifies this
      ensures start.Accepted? ==> before + [Received(reply)] <= old(incoming)
      ensures start.Accepted? ==>
                t == if DriftSeen(before) then FRESH.(verdict := Drifted)
                     else Fold(FRESH, old(incoming) + [TIMED_OUT], thread, start.turn, env)
      ensures start.Accepted? && t.verdict.Completed? ==>
                && end < |old(incoming)| && EndOf(old(incoming)[end], thread, start.turn)
                && answer == Answer(old(incoming)[..end], thread, start.turn)
    {
      t, answer, end := FRESH, "", 0;
      start, before, reply := StartTurn(thread, request);
      if start.Accepted? {
        ghost var all, after := old(incoming) + [TIMED_OUT], incoming;
        if !DriftSeen(before) {
          NoDriftIsQuiet(before);
          SplitIsInvisible(before, reply, after + [TIMED_OUT], request, thread, start.turn, env);
          assert before + [Received(reply)] + (after + [TIMED_OUT]) == all;
          assert Kept(before, thread) + after + [TIMED_OUT] == Kept(before, thread) + (after + [TIMED_OUT]);
        }
        t := WaitForTurn(thread, start.turn);
        if t.verdict.Completed? {
          answer := FinalVisibleText(t.items);
          end := CompletedAnswer(all, thread, start.turn, env);
          assert end < |old(incoming)| by {
            assert EndOf(all[end], thread, start.turn);
          }
          assert all[..end] == old(incoming)[..end];
        }
      }
    }
  }
}
