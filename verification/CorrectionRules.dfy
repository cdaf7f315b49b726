/**
 * Which events a corrected launch takes, over the fields of the event and the
 * inputs sent, and what the journal takes in return.
 */
module CorrectionRules {
  import opened Wrappers
  import opened Identifiers
  import opened Json
  import opened Texts
  import opened CorrectionState
  import opened Corrections

  predicate OfType(e: Event, kind: string) {
    Get(e, "type") == Text(kind)
  }

  /** The replay of exactly this input, by no agent's child. */
  predicate Replays(e: Event, frame: Frame) {
    && Get(e, "uuid") == Text(frame.uuid) && Get(e, "session_id") == Text(frame.session)
    && "parent_tool_use_id" in e && e["parent_tool_use_id"] == Null
    && Get(e, "message") == Object(map["role" := Text("user"), "content" := Text(frame.text)])
  }

  /** A replay is a receipt exactly if it is that of the first input not received yet; inputs are received in order. */
  lemma ReceivedInOrder(m: Memory, e: Event)
    requires OfType(e, "user") && Get(e, "isReplay") == Flag(true)
    ensures var o, n, boundary := ObserveEvent(m, e), |m.receipts|, |m.results| + 1;
            && (o.Went? <==> n < |m.frames| && !m.complete && Replays(e, m.frames[n]))
            && (o.Went? ==>
                  && o.call == ReceiptCall(m.frames[n].uuid, boundary) && o.unsaved == m
                  && o.memory == m.(receipts := m.receipts + [boundary])
                  && o.verdict == Ok(Kept(false, e)))
            && (o.Refused? ==> o.memory == m)
  {
  }

  const STATES: seq<string> := ["queued", "started", "completed"]

  /** A lifecycle event is taken exactly if it is the next one of an input sent; after completion only its last. */
  lemma LifecycleTakenIff(m: Memory, e: Event)
    requires OfType(e, "command_lifecycle")
    ensures var o := ObserveEvent(m, e);
            && (o.Went? <==>
                exists i :: 0 <= i < |m.frames| && Get(e, "command_uuid") == Text(m.frames[i].uuid)
                            && e.Keys == {"type", "state", "session_id", "command_uuid", "uuid"}
                            && Get(e, "session_id") == Text(m.session)
                            && var seen := |History(m, m.frames[i].uuid)|;
                            && seen < 3 && Get(e, "state") == Text(STATES[seen])
                            && (m.complete ==> STATES[seen] == "completed"))
            && (o.Went? ==>
                  var id := Get(e, "command_uuid").text;
                  && o.call == NoCall && o.verdict == Ok(Kept(false, e)) && o.unsaved == o.memory
                  && o.memory == m.(lifecycle := m.lifecycle[id := History(m, id) + [STATES[|History(m, id)|]]]))
            && (o.Refused? ==> o.memory == m)
  {
  }

  /** Any other user event is a native tool result, or refused. */
  lemma OtherUserTakenIff(m: Memory, e: Event)
    requires OfType(e, "user") && Get(e, "isReplay") != Flag(true)
    ensures var o := ObserveEvent(m, e); var message := Get(e, "message");
            && (o.Went? <==>
                && Get(e, "isReplay") == Null && message.Object?
                && Get(message.fields, "content").Items?
                && var blocks := Get(message.fields, "content").items;
                && |blocks| > 0
                && forall i :: 0 <= i < |blocks| ==>
                    blocks[i].Object? && Get(blocks[i].fields, "type") == Text("tool_result"))
            && (o.Went? ==> o == Went(NoCall, m, m, Ok(Kept(true, e))))
            && (o.Refused? ==> o.memory == m)
  {
  }

  lemma OthersPass(m: Memory, e: Event)
    requires Get(e, "type") !in {Text("command_lifecycle"), Text("user"), Text("result")}
    ensures ObserveEvent(m, e) == Went(NoCall, m, m, Ok(Kept(true, e)))
  {
  }

  /** Every input sent is received, at a boundary of a result already there. */
  predicate AllAnswered(m: Memory) {
    |m.receipts| == |m.frames| && forall i :: 0 <= i < |m.receipts| ==> m.receipts[i] <= |m.results|
  }

  lemma {:induction false} LargestIsBound(s: seq<nat>, n: nat)
    ensures Largest(s) <= n <==> forall i :: 0 <= i < |s| ==> s[i] <= n
  {
    if s != [] {
      LargestIsBound(s[1..], n);
      assert forall i :: 1 <= i < |s| ==> s[i] == s[1..][i - 1];
    }
  }

  /**
   * A result is taken exactly if the first input was received before any, and a second one only after
   * a receipt between them. It completes the launch exactly if every input is received and answered;
   * any result closes the launch to corrections.
   */
  lemma ResultTakenIff(m: Memory, e: Event)
    requires OfType(e, "result")
    ensures var o := ObserveEvent(m, e);
            && (o.Went? <==>
                && !m.complete && m.receipts != [] && m.receipts[0] == 1
                && (m.results == [] || (|m.results| == 1 && 2 in m.receipts)))
            && o.memory.closed
            && (o.Went? ==>
                  && o.call == ResultCall(|m.results| + 1)
                  && o.memory == m.(closed := true, results := m.results + [e], complete := o.memory.complete)
                  && o.unsaved == o.memory.(complete := m.complete)
                  && (o.memory.complete <==> AllAnswered(o.memory)))
            && (o.Refused? ==> o.memory == m.(closed := true))
  {
    LargestIsBound(m.receipts, |m.results| + 1);
  }

  /**
   * A completing result is retained: alone as it is, and with an earlier one as both texts; with a
   * correction sent, none may have failed. Any other result is dropped.
   */
  lemma ResultKeptIff(m: Memory, e: Event)
    requires OfType(e, "result") && ObserveEvent(m, e).Went?
    ensures var o := ObserveEvent(m, e); var after := o.memory;
            if !after.complete then o.verdict == Ok(Kept(false, e))
            else if |after.results| == 1 then
              if |m.frames| == 2 && Get(e, "is_error") != Flag(false) then o.verdict.Err?
              else o.verdict == Ok(Kept(true, e))
            else
              var first := m.results[0];
              var text := ResultText(first) + "\n\n" + ResultText(e);
              if Get(e, "is_error") != Flag(false) || Get(first, "is_error") != Flag(false) || |text| > 200_000
              then o.verdict.Err?
              else o.verdict == Ok(Kept(true, e["result" := Text(text)]))
  {
  }

  /** A correction is taken exactly if it is the one reserved for this session: some text, not too much, and new. */
  lemma CorrectionTakenIff(m: Memory, frame: Frame)
    requires WillAsk(m) && |m.frames| >= 1
    ensures var r := PollWith(m, Reserved(frame));
            && (r.Ok? <==>
                && frame.session == m.frames[0].session && frame.uuid != m.frames[0].uuid
                && |frame.text| <= 20_000 && exists i :: 0 <= i < |frame.text| && !IsSpace(frame.text[i]))
            && (r.Ok? ==> r.value == m.(frames := m.frames + [frame]))
    ensures PollWith(m, Closed) == Ok(m.(closed := true)) && PollWith(m, Nothing) == Ok(m)
  {
  }

  lemma AsksWhileOpen(m: Memory)
    ensures WillAsk(m) <==> !m.closed && |m.frames| != 2
  {
  }

  /**
   * A question is put to the journal exactly while the launch may ask; without a reserved frame the
   * launch closes to corrections, and with one it takes the frame and the journal's reservation.
   */
  lemma AskedIff(m: Memory, s: Store, owner: Option<Owner>, parent: JobId, stopped: bool, owned: bool,
                 candidate: Option<Candidate>, uuid: Uuid, lease: Token, now: Wall)
    requires |m.frames| >= 1
    ensures var after := Feed(Live(m, s), owner, parent, Ask(stopped, owned, candidate, uuid, lease, now));
            var c := ClaimChild(s, owner, parent, stopped, owned, candidate, uuid, lease, now);
            if m.closed || |m.frames| == 2 then after == Live(m, s)
            else if c.Err? then after == Live(m.(closed := true), s)
            else if c.value.frame.None? then after == Live(m.(closed := true), c.value.store)
            else
              var taken := PollWith(m, Reserved(c.value.frame.value));
              after == if taken.Ok? then Live(taken.value, c.value.store) else Lost(false)
  {
    hide ClaimChild;
  }

  // ----- the journal's side -----

  /**
   * In every agreeing state the journal seals exactly the receipt of the first input not received yet,
   * at the next boundary.
   */
  lemma JournalSealsInOrder(m: Memory, s: Store, owner: Option<Owner>, parent: JobId, uuid: Uuid, boundary: nat)
    requires Agrees(m, s, parent)
    ensures SealReceipt(s, owner, parent, uuid, boundary).Ok? <==>
            && owner.Some? && StillOwns(owner.value)
            && |m.receipts| < |m.frames| && m.frames[|m.receipts|].uuid == uuid
            && boundary == |m.results| + 1 && |m.results| < 2
  {
    BoundIffOwns(owner);
    hide Bound, StillOwns;
  }

  lemma JournalCountsResults(m: Memory, s: Store, owner: Option<Owner>, parent: JobId, boundary: nat)
    requires Agrees(m, s, parent)
    ensures SealResult(s, owner, parent, boundary).Ok? <==>
            && owner.Some? && StillOwns(owner.value)
            && m.receipts != [] && boundary == |m.results| + 1 <= 2
  {
    BoundIffOwns(owner);
    hide Bound, StillOwns;
  }

  // ----- lifecycles over whole launches -----

  ghost predicate Ordered(m: Memory) {
    && |m.frames| >= 1
    && forall id :: id in m.lifecycle ==>
        m.lifecycle[id] <= STATES && exists i :: 0 <= i < |m.frames| && m.frames[i].uuid == id
  }

  lemma FeedKeepsOrder(l: Launch, owner: Option<Owner>, parent: JobId, input: Input)
    requires l.Live? && Ordered(l.memory)
    ensures var after := Feed(l, owner, parent, input); after.Live? ==> Ordered(after.memory)
  {
    hide ClaimChild, Serve;
    if input.See? && OfType(input.event, "command_lifecycle") {
      LifecycleTakenIff(l.memory, input.event);
    } else if input.See? {
      SeeingKeepsFrames(l.memory, input.event);
    } else {
      AskingKeepsHistory(l, owner, parent, input);
    }
  }

  lemma SeeingKeepsFrames(m: Memory, e: Event)
    requires !OfType(e, "command_lifecycle")
    ensures ObserveEvent(m, e).memory.frames == m.frames && ObserveEvent(m, e).memory.lifecycle == m.lifecycle
  {
  }

  lemma AskingKeepsHistory(l: Launch, owner: Option<Owner>, parent: JobId, input: Input)
    requires l.Live? && |l.memory.frames| >= 1 && input.Ask?
    ensures var after := Feed(l, owner, parent, input);
            after.Live? ==> l.memory.frames <= after.memory.frames && after.memory.lifecycle == l.memory.lifecycle
  {
    hide ClaimChild;
  }

  /** Along every launch each input is queued, started and completed at most once each, in that order. */
  lemma {:induction false} LifecyclesAreOrdered(l: Launch, parent: JobId, turns: seq<Turn>)
    requires l.Live? && Ordered(l.memory)
    ensures var after := FeedAll(l, parent, turns); after.Live? ==> Ordered(after.memory)
  {
    if turns != [] {
      hide Ordered, Feed;
      var earlier, last := turns[..|turns| - 1], turns[|turns| - 1];
      LifecyclesAreOrdered(l, parent, earlier);
      if FeedAll(l, parent, earlier).Live? {
        FeedKeepsOrder(FeedAll(l, parent, earlier), last.owner, parent, last.input);
      } else {
        LostStaysLost(FeedAll(l, parent, earlier), parent, last);
      }
    }
  }

  lemma LostStaysLost(l: Launch, parent: JobId, turn: Turn)
    requires l.Lost?
    ensures Feed(l, turn.owner, parent, turn.input) == l
  {
  }
}
