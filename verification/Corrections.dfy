/**
 * The in-memory receipt and result machine of one streamed launch, and its
 * simulation by the durable journal.
 */
module Corrections {
  import opened Wrappers
  import opened Identifiers
  import opened Json
  import opened Texts
  import opened CorrectionState
  import ClaudeStream

  const LIFECYCLE := ["queued", "started", "completed"]

  datatype Memory = Memory(
    session: string, frames: seq<Frame>, receipts: seq<nat>, results: seq<Event>,
    lifecycle: map<Uuid, seq<string>>, closed: bool, complete: bool)

  /** The durable transaction one observation needs. */
  datatype Call = NoCall | ReceiptCall(uuid: Uuid, boundary: nat) | ResultCall(boundary: nat)

  datatype Kept = Kept(retain: bool, event: Event)

  /**
   * Refused raises before any durable write. Otherwise the call is made;
   * `unsaved` is the memory if it fails, `memory` and `verdict` what follows it.
   */
  datatype Observed =
    | Refused(memory: Memory)
    | Went(call: Call, unsaved: Memory, memory: Memory, verdict: Result<Kept>)

  function Start(initial: Frame): Memory {
    Memory(initial.session, [initial], [], [], map[], false, false)
  }

  function Largest(s: seq<nat>): nat {
    if s == [] then 0
    else
      var rest := Largest(s[1..]);
      if s[0] > rest then s[0] else rest
  }

  predicate KnownUuid(m: Memory, uuid: string) {
    exists i :: 0 <= i < |m.frames| && m.frames[i].uuid == uuid
  }

  function History(m: Memory, uuid: string): seq<string> {
    if uuid in m.lifecycle then m.lifecycle[uuid] else []
  }

  function ObserveLifecycle(m: Memory, e: Event): Observed {
    var id := Get(e, "command_uuid");
    if !id.Text? || !KnownUuid(m, id.text) then Refused(m)
    else
      var history := History(m, id.text);
      if e.Keys != {"type", "state", "session_id", "command_uuid", "uuid"}
         || Get(e, "session_id") != Text(m.session) || |history| >= 3
         || Get(e, "state") != Text(LIFECYCLE[|history|])
         || (m.complete && Get(e, "state") != Text("completed"))
      then Refused(m)
      else
        var next := m.(lifecycle := m.lifecycle[id.text := history + [LIFECYCLE[|history|]]]);
        Went(NoCall, next, next, Ok(Kept(false, e)))
  }

  function UserMessage(text: string): Value {
    Object(map["role" := Text("user"), "content" := Text(text)])
  }

  function ObserveReceipt(m: Memory, e: Event): Observed {
    if |m.receipts| >= |m.frames| || m.complete then Refused(m)
    else
      var frame := m.frames[|m.receipts|];
      if Get(e, "uuid") != Text(frame.uuid) || Get(e, "session_id") != Text(frame.session)
         || "parent_tool_use_id" !in e || e["parent_tool_use_id"] != Null
         || Get(e, "message") != UserMessage(frame.text)
      then Refused(m)
      else
        var boundary := |m.results| + 1;
        Went(ReceiptCall(frame.uuid, boundary), m, m.(receipts := m.receipts + [boundary]), Ok(Kept(false, e)))
  }

  predicate ToolResultBlock(v: Value) {
    v.Object? && Get(v.fields, "type") == Text("tool_result")
  }

  /** A native tool result is a user event too, and is never an input receipt. */
  predicate ToolResultMessage(e: Event) {
    && Get(e, "isReplay") == Null
    && Get(e, "message").Object?
    && var content := Get(Get(e, "message").fields, "content");
    && content.Items? && content.items != []
    && forall i :: 0 <= i < |content.items| ==> ToolResultBlock(content.items[i])
  }

  function ResultText(e: Event): string {
    if Get(e, "result").Text? then Get(e, "result").text else ""
  }

  function ObserveResult(m: Memory, e: Event): Observed {
    var m1 := m.(closed := true);
    if m.complete || m.receipts == [] || m.receipts[0] != 1 || |m.results| >= 2 then Refused(m1)
    else if |m.results| > 0 && 2 !in m.receipts then Refused(m1)
    else
      var m2 := m1.(results := m.results + [e]);
      var m3 := m2.(complete := |m2.receipts| == |m2.frames| && Largest(m2.receipts) <= |m2.results|);
      Went(ResultCall(|m2.results|), m2, m3, ResultVerdict(m3, e))
  }

  function ResultVerdict(m: Memory, e: Event): Result<Kept>
    requires |m.results| <= 2
  {
    if !m.complete then Ok(Kept(false, e))
    else if |m.frames| == 2 && Get(e, "is_error") != Flag(false) then Err("incomplete terminal outcome")
    else if |m.results| == 2 then
      if Get(m.results[0], "is_error") != Flag(false) || Get(m.results[1], "is_error") != Flag(false)
      then Err("incomplete terminal outcome")
      else
        var aggregate := ResultText(m.results[0]) + "\n\n" + ResultText(m.results[1]);
        if |aggregate| > ClaudeStream.MAX_VISIBLE_CHARACTERS then Err("aggregate result exceeded its limit")
        else Ok(Kept(true, e["result" := Text(aggregate)]))
    else Ok(Kept(true, e))
  }

  function ObserveEvent(m: Memory, e: Event): Observed {
    if Is(e, "command_lifecycle") then ObserveLifecycle(m, e)
    else if Is(e, "user") && Get(e, "isReplay") == Flag(true) then ObserveReceipt(m, e)
    else if Is(e, "user") then
      if ToolResultMessage(e) then Went(NoCall, m, m, Ok(Kept(true, e))) else Refused(m)
    else if !Is(e, "result") then Went(NoCall, m, m, Ok(Kept(true, e)))
    else ObserveResult(m, e)
  }

  /** What the admission callback answered: closed for good, nothing yet, or a reserved frame. */
  datatype Admission = Closed | Nothing | Reserved(frame: Frame)

  predicate WillAsk(m: Memory) {
    !m.closed && |m.frames| != 2
  }

  function PollWith(m: Memory, answer: Admission): Result<Memory>
    requires WillAsk(m) && |m.frames| >= 1
  {
    match answer
    case Closed => Ok(m.(closed := true))
    case Nothing => Ok(m)
    case Reserved(frame) =>
      if frame.session != m.frames[0].session then Err("correction binding changed")
      else if Blank(frame.text) then Err("claude text input is invalid")
      else if |frame.text| > MAX_CORRECTION_CHARACTERS || frame.uuid == m.frames[0].uuid
      then Err("correction exceeded its input contract")
      else Ok(m.(frames := m.frames + [frame]))
  }

  // ----- simulation -----

  function Serve(s: Store, owner: Option<Owner>, parent: JobId, call: Call): Result<Store> {
    match call
    case NoCall => Ok(s)
    case ReceiptCall(uuid, boundary) => SealReceipt(s, owner, parent, uuid, boundary)
    case ResultCall(boundary) => SealResult(s, owner, parent, boundary)
  }

  /** Memory and journal describe the same inputs, receipts and result boundaries. */
  predicate Agrees(m: Memory, s: Store, parent: JobId) {
    && parent in s.runs
    && var run := s.runs[parent];
    && 1 <= |m.frames| <= 2 && m.frames[0].uuid == run.initial && m.frames[0].session == run.session == m.session
    && (|m.frames| == 2 <==> parent in s.children)
    && (|m.frames| == 2 ==> s.children[parent].uuid == m.frames[1].uuid && m.frames[1].uuid != run.initial
                            && s.children[parent].digest == m.frames[1].text)
    && |m.receipts| <= |m.frames|
    && run.initialReceipt == (m.receipts != [])
    && (m.receipts != [] ==> m.receipts[0] == 1)
    && (|m.receipts| == 2 ==> 1 <= m.receipts[1] <= 2 && m.receipts[1] <= |m.results| + 1)
    && (|m.frames| == 2 ==> s.children[parent].receipt == if |m.receipts| == 2 then Some(m.receipts[1]) else None)
    && run.terminals == |m.results| <= 2
    && (m.results != [] ==> m.closed && m.receipts != [])
    && (|m.results| == 2 ==> |m.receipts| == 2 && m.receipts[1] == 2)
    && (m.complete <==> (m.results != [] && |m.receipts| == |m.frames| && LastReceipt(m) <= |m.results|))
  }

  function LastReceipt(m: Memory): nat {
    if m.receipts == [] then 0 else m.receipts[|m.receipts| - 1]
  }

  lemma LargestOfTwo(s: seq<nat>)
    requires |s| <= 2
    ensures |s| == 0 ==> Largest(s) == 0
    ensures |s| == 1 ==> Largest(s) == s[0]
    ensures |s| == 2 ==> Largest(s) == if s[0] > s[1] then s[0] else s[1]
  {
    if |s| == 2 {
      assert Largest(s[1..]) == s[1] by {
        assert s[1..][1..] == [];
      }
    } else if |s| == 1 {
      assert s[1..] == [];
    }
  }

  /** Preparation puts both sides in agreement. */
  lemma PrepareAgrees(s: Store, owner: Option<Owner>, parent: JobId, frame: Frame, root: string)
    requires Sound(s) && PrepareRun(s, owner, parent, frame, root).Ok?
    ensures Agrees(Start(frame), PrepareRun(s, owner, parent, frame, root).value, parent)
  {
    assert parent in s.children ==> parent in s.runs;
  }

  lemma ReceiptSimulated(m: Memory, s: Store, owner: Option<Owner>, parent: JobId, e: Event)
    requires Agrees(m, s, parent) && Bound(owner)
    requires ObserveReceipt(m, e).Went?
    ensures var o := ObserveReceipt(m, e); var served := Serve(s, owner, parent, o.call);
            served.Ok? && Agrees(o.memory, served.value, parent)
  {
  }

  lemma ResultSimulated(m: Memory, s: Store, owner: Option<Owner>, parent: JobId, e: Event)
    requires Agrees(m, s, parent) && Bound(owner)
    requires ObserveResult(m, e).Went?
    ensures var o := ObserveResult(m, e); var served := Serve(s, owner, parent, o.call);
            served.Ok? && Agrees(o.memory, served.value, parent)
  {
    LargestOfTwo(m.receipts);
  }

  /** Whatever memory accepts, a bound journal accepts with the same boundary, and they still agree. */
  lemma ObserveSimulated(m: Memory, s: Store, owner: Option<Owner>, parent: JobId, e: Event)
    requires Agrees(m, s, parent) && Bound(owner)
    requires ObserveEvent(m, e).Went?
    ensures var o := ObserveEvent(m, e); var served := Serve(s, owner, parent, o.call);
            served.Ok? && Agrees(o.memory, served.value, parent)
  {
    if ObserveEvent(m, e) == ObserveReceipt(m, e) {
      ReceiptSimulated(m, s, owner, parent, e);
    } else if ObserveEvent(m, e) == ObserveResult(m, e) {
      ResultSimulated(m, s, owner, parent, e);
    }
  }

  lemma PollSimulated(m: Memory, s: Store, owner: Option<Owner>, parent: JobId, stopped: bool, owned: bool,
                      candidate: Option<Candidate>, uuid: Uuid, lease: Token, now: Wall)
    requires Sound(s) && Agrees(m, s, parent) && Bound(owner) && owner.value.native == m.session
    requires ClaimChild(s, owner, parent, stopped, owned, candidate, uuid, lease, now).Ok?
    ensures var c := ClaimChild(s, owner, parent, stopped, owned, candidate, uuid, lease, now).value;
            && Agrees(m.(closed := true), s, parent)
            && (c.frame.Some? && WillAsk(m) ==>
                  var polled := PollWith(m, Reserved(c.frame.value));
                  polled.Ok? && Agrees(polled.value, c.store, parent))
            && (c.frame.None? ==> c.store == s)
            && (c.frame.Some? ==> |m.frames| == 1 && m.results == [])
  {
  }

  /** In every agreeing state, memory is complete exactly when the journal would validate completion. */
  lemma CompleteIffConfirmed(m: Memory, s: Store, parent: JobId)
    requires Agrees(m, s, parent)
    ensures m.complete <==> ConfirmCompletion(s, parent).Ok?
  {
  }

  // ----- whole launches -----

  datatype Input =
    | See(event: Event)
    | Ask(stopped: bool, owned: bool, candidate: Option<Candidate>, uuid: Uuid, lease: Token, now: Wall)

  /** Lost marks a launch that raised; `unsaved` tells a persistence failure from a protocol refusal. */
  datatype Launch = Live(memory: Memory, store: Store) | Lost(unsaved: bool)

  function Feed(l: Launch, owner: Option<Owner>, parent: JobId, input: Input): Launch
    requires l.Live? ==> |l.memory.frames| >= 1
  {
    if l.Lost? then l
    else match input
      case See(e) =>
        var o := ObserveEvent(l.memory, e);
        if o.Refused? then Lost(false)
        else
          var served := Serve(l.store, owner, parent, o.call);
          if served.Err? then Lost(true) else if o.verdict.Err? then Lost(false) else Live(o.memory, served.value)
      case Ask(stopped, owned, candidate, uuid, lease, now) =>
        if !WillAsk(l.memory) then l
        else
          var c := ClaimChild(l.store, owner, parent, stopped, owned, candidate, uuid, lease, now);
          var answer := if c.Err? || c.value.frame.None? then Closed else Reserved(c.value.frame.value);
          var polled := PollWith(l.memory, answer);
          if polled.Err? then Lost(false) else Live(polled.value, if c.Ok? then c.value.store else l.store)
  }

  ghost predicate Joined(l: Launch, parent: JobId) {
    l.Live? ==> Sound(l.store) && Agrees(l.memory, l.store, parent)
  }

  lemma SeeKeepsJoined(m: Memory, s: Store, owner: Option<Owner>, parent: JobId, e: Event)
    requires Sound(s) && Agrees(m, s, parent) && Bound(owner)
    requires ObserveEvent(m, e).Went?
    ensures var o := ObserveEvent(m, e); var served := Serve(s, owner, parent, o.call);
            served.Ok? && Sound(served.value) && Agrees(o.memory, served.value, parent) && o.memory.session == m.session
  {
    ObserveSimulated(m, s, owner, parent, e);
    match ObserveEvent(m, e).call
    case NoCall =>
    case ReceiptCall(uuid, boundary) => ReceiptPasses(s, owner, parent, uuid, boundary);
    case ResultCall(boundary) => ResultPasses(s, owner, parent, boundary);
  }

  lemma AskKeepsJoined(l: Launch, owner: Option<Owner>, parent: JobId, input: Input)
    requires input.Ask? && l.Live? && Joined(l, parent) && Bound(owner) && owner.value.native == l.memory.session
    ensures var after := Feed(l, owner, parent, input);
            after.Live? && Joined(after, parent) && after.memory.session == l.memory.session
  {
    var Ask(stopped, owned, candidate, uuid, lease, now) := input;
    if WillAsk(l.memory) && ClaimChild(l.store, owner, parent, stopped, owned, candidate, uuid, lease, now).Ok? {
      PollSimulated(l.memory, l.store, owner, parent, stopped, owned, candidate, uuid, lease, now);
      ClaimPassesTheSchema(l.store, owner, parent, stopped, owned, candidate, uuid, lease, now);
    }
  }

  lemma FeedKeepsJoined(l: Launch, owner: Option<Owner>, parent: JobId, input: Input)
    requires Joined(l, parent) && Bound(owner)
    requires l.Live? ==> owner.value.native == l.memory.session
    ensures var after := Feed(l, owner, parent, input);
            && Joined(after, parent)
            && (after.Lost? && after.unsaved ==> l.Lost? && l.unsaved)
            && (after.Live? ==> l.Live? && after.memory.session == l.memory.session)
  {
    if l.Live? && input.Ask? {
      AskKeepsJoined(l, owner, parent, input);
    } else if l.Live? && ObserveEvent(l.memory, input.event).Went? {
      SeeKeepsJoined(l.memory, l.store, owner, parent, input.event);
    }
  }

  /** One input with the parent row its transaction joined; model, effort and lease expiry may differ each time. */
  datatype Turn = Turn(owner: Option<Owner>, input: Input)

  function FeedAll(l: Launch, parent: JobId, turns: seq<Turn>): (after: Launch)
    requires l.Live? ==> |l.memory.frames| >= 1
    ensures after.Live? ==> |after.memory.frames| >= 1
  {
    if turns == [] then l
    else
      var last := turns[|turns| - 1];
      Feed(FeedAll(l, parent, turns[..|turns| - 1]), last.owner, parent, last.input)
  }

  /**
   * While the owner binding holds, no launch is ever lost to the journal, and
   * every live launch is complete exactly when the journal would validate it.
   */
  lemma {:induction false} JournalFollowsMemory(l: Launch, parent: JobId, turns: seq<Turn>)
    requires l.Live? && Joined(l, parent)
    requires forall t :: t in turns ==> Bound(t.owner) && t.owner.value.native == l.memory.session
    ensures var after := FeedAll(l, parent, turns);
            && Joined(after, parent) && !(after.Lost? && after.unsaved)
            && (after.Live? ==> after.memory.session == l.memory.session
                                && (after.memory.complete <==> ConfirmCompletion(after.store, parent).Ok?))
  {
    if turns != [] {
      var earlier, last := turns[..|turns| - 1], turns[|turns| - 1];
      assert last in turns && forall t :: t in earlier ==> t in turns;
      JournalFollowsMemory(l, parent, earlier);
      FeedKeepsJoined(FeedAll(l, parent, earlier), last.owner, parent, last.input);
    }
    var after := FeedAll(l, parent, turns);
    if after.Live? {
      CompleteIffConfirmed(after.memory, after.store, parent);
    }
  }

  /** A second result is joined to the first without losing a character of either. */
  lemma JoinIsLossless(m: Memory, e: Event)
    requires ObserveEvent(m, e).Went? && ObserveEvent(m, e).verdict.Ok? && Is(e, "result")
    requires ObserveEvent(m, e).verdict.value.retain && |m.results| == 1
    ensures var text := ResultText(ObserveEvent(m, e).verdict.value.event);
            var first := ResultText(m.results[0]);
            && |text| == |first| + 2 + |ResultText(e)| <= ClaudeStream.MAX_VISIBLE_CHARACTERS
            && text[..|first|] == first && text[|first| + 2..] == ResultText(e)
    ensures var kept := ObserveEvent(m, e).verdict.value.event;
            kept.Keys == e.Keys + {"result"} && forall k :: k in e && k != "result" ==> kept[k] == e[k]
  {
    var first, second := ResultText(m.results[0]), ResultText(e);
    var text := first + "\n\n" + second;
    assert text[..|first|] == first;
    assert text[|first| + 2..] == second;
  }

  /** The machine as the stream reader drives it, writing through to its own journal. */
  class ClaudeCorrectionInput {
    const parent: JobId
    const journal: ClaudeCorrectionState
    var memory: Memory

    constructor (initial: Frame, parent: JobId, journal: ClaudeCorrectionState)
      ensures this.parent == parent && this.journal == journal && memory == Start(initial)
    {
      this.parent := parent;
      this.journal := journal;
      memory := Start(initial);
    }

    method Observe(owner: Option<Owner>, e: Event) returns (r: Result<Kept>)
      modifies this, journal
      ensures var o := ObserveEvent(old(memory), e);
              if o.Refused? then r.Err? && memory == o.memory && journal.store == old(journal.store)
              else
                var served := Serve(old(journal.store), owner, parent, o.call);
                if served.Err? then r.Err? && memory == o.unsaved && journal.store == old(journal.store)
                else memory == o.memory && journal.store == served.value && r == o.verdict
    {
      var o := ObserveEvent(memory, e);
      if o.Refused? {
        memory := o.memory;
        return Err("claude text input is unverified");
      }
      var saved := true;
      match o.call {
        case NoCall =>
        case ReceiptCall(uuid, boundary) => saved := journal.Receipt(owner, parent, uuid, boundary);
        case ResultCall(boundary) =>
          memory := o.unsaved;
          saved := journal.RecordResult(owner, parent, boundary);
      }
      if !saved {
        memory := o.unsaved;
        return Err("claude text input persistence failed");
      }
      memory := o.memory;
      r := o.verdict;
    }

    method Poll(owner: Option<Owner>, stopped: bool, owned: bool, candidate: Option<Candidate>,
                uuid: Uuid, lease: Token, now: Wall) returns (r: Result<Option<Frame>>)
      requires |memory.frames| >= 1
      modifies this, journal
      ensures r.Ok? ==>
                Feed(Live(old(memory), old(journal.store)), owner, parent,
                     Ask(stopped, owned, candidate, uuid, lease, now)) == Live(memory, journal.store)
      ensures r.Err? ==>
                Feed(Live(old(memory), old(journal.store)), owner, parent,
                     Ask(stopped, owned, candidate, uuid, lease, now)).Lost?
      ensures r.Ok? && r.value.Some? ==> memory.frames == old(memory.frames) + [r.value.value]
      ensures r.Ok? && r.value.None? ==> memory.frames == old(memory.frames)
    {
      if memory.closed || |memory.frames| == 2 {
        return Ok(None);
      }
      var claimed := journal.Claim(owner, parent, stopped, owned, candidate, uuid, lease, now);
      if claimed.Err? || claimed.value.None? {
        memory := memory.(closed := true);
        return Ok(None);
      }
      var frame := claimed.value.value;
      if frame.session != memory.frames[0].session || Blank(frame.text)
         || |frame.text| > MAX_CORRECTION_CHARACTERS || frame.uuid == memory.frames[0].uuid {
        return Err("claude correction exceeded its input contract");
      }
      memory := memory.(frames := memory.frames + [frame]);
      r := Ok(Some(frame));
    }

    method Finish() returns (ok: bool)
      ensures ok == memory.complete
    {
      ok := memory.complete;
    }
  }
}
