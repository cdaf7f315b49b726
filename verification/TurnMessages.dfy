/**
 * What the messages of one receive order say about one turn, read directly
 * from their fields.
 */
module TurnMessages {
  import opened Wrappers
  import opened Json
  import opened Texts

  type Message = Event

  /** One receive from the transport: a message, or the error it raised. */
  datatype Input = Received(message: Message) | Lost(error: string)

  function Fields(v: Value): Event {
    if v.Object? then v.fields else map[]
  }

  /** A notification of that method, for this thread or for none, about this turn by the id given. */
  predicate Notifies(i: Input, name: string, thread: string) {
    && i.Received? && Get(i.message, "method") == Text(name) && "id" !in i.message
    && Get(i.message, "params").Object?
    && var p := Get(i.message, "params").fields; "threadId" in p ==> p["threadId"] == Text(thread)
  }

  function Params(i: Input): Event {
    if i.Received? then Fields(Get(i.message, "params")) else map[]
  }

  predicate OfTurn(i: Input, turn: string) {
    Get(Params(i), "turnId") == Text(turn)
  }

  // ----- agent messages -----

  datatype AgentMessage = AgentMessage(id: Option<string>, text: string, phase: string)

  /** A phase that is neither text nor absent is shown as some text that spells none. */
  function PhaseOf(v: Value): string {
    match v
    case Text(phase) => if phase == "" then "unknown" else phase
    case Null => "unknown"
    case Flag(flag) => if flag then "<value>" else "unknown"
    case Number(n) => if n == 0 then "unknown" else "<value>"
    case Items(items) => if items == [] then "unknown" else "<value>"
    case Object(fields) => if |fields| == 0 then "unknown" else "<value>"
  }

  /** The agent message of this turn that an input completes, if it completes one. */
  function MessageIn(i: Input, thread: string, turn: string): Option<AgentMessage> {
    var item := Fields(Get(Params(i), "item"));
    if Notifies(i, "item/completed", thread) && OfTurn(i, turn)
       && Get(item, "type") == Text("agentMessage") && Get(item, "text").Text?
    then
      var id := Get(item, "id");
      Some(AgentMessage(if id.Text? then Some(id.text) else None, Get(item, "text").text, PhaseOf(Get(item, "phase"))))
    else None
  }

  predicate Repeats(earlier: seq<AgentMessage>, m: AgentMessage) {
    m.id.Some? && exists k :: 0 <= k < |earlier| && earlier[k].id == m.id
  }

  /** The turn's agent messages in receive order, each native id once. */
  function FirstSeen(inputs: seq<Input>, thread: string, turn: string): seq<AgentMessage> {
    if inputs == [] then []
    else
      var earlier := FirstSeen(inputs[..|inputs| - 1], thread, turn);
      var m := MessageIn(inputs[|inputs| - 1], thread, turn);
      if m.None? || Repeats(earlier, m.value) then earlier else earlier + [m.value]
  }

  /** The nonempty texts of one phase, in order. */
  function Spoken(messages: seq<AgentMessage>, phase: string): seq<string> {
    if messages == [] then []
    else
      var last := messages[|messages| - 1];
      Spoken(messages[..|messages| - 1], phase) + if last.phase == phase && last.text != "" then [last.text] else []
  }

  function JoinedBy(parts: seq<string>, between: string): string {
    if parts == [] then ""
    else if |parts| == 1 then parts[0]
    else JoinedBy(parts[..|parts| - 1], between) + between + parts[|parts| - 1]
  }

  /** Final answers, or else what has no phase. */
  function AnswerOf(messages: seq<AgentMessage>): string {
    var explicit := Spoken(messages, "final_answer");
    Strip(JoinedBy(if explicit != [] then explicit else Spoken(messages, "unknown"), "\n\n"))
  }

  /** The answer of a turn from everything received before its end. */
  function Answer(inputs: seq<Input>, thread: string, turn: string): string {
    AnswerOf(FirstSeen(inputs, thread, turn))
  }

  function OfPhases(messages: seq<AgentMessage>, phases: set<string>): seq<AgentMessage> {
    if messages == [] then []
    else
      var last := messages[|messages| - 1];
      OfPhases(messages[..|messages| - 1], phases) + if last.phase in phases then [last] else []
  }

  lemma {:induction false} SpokenOnly(messages: seq<AgentMessage>, phases: set<string>, phase: string)
    ensures Spoken(OfPhases(messages, phases), phase) == if phase in phases then Spoken(messages, phase) else []
  {
    if messages != [] {
      var earlier, last := messages[..|messages| - 1], messages[|messages| - 1];
      SpokenOnly(earlier, phases, phase);
      var kept := OfPhases(earlier, phases);
      assert (kept + [last])[..|kept|] == kept && kept + [] == kept;
    }
  }

  /**
   * Commentary never reaches an answer: leaving it out changes nothing. A final answer that says
   * something displaces everything else.
   */
  lemma CommentaryIsInvisible(messages: seq<AgentMessage>)
    ensures AnswerOf(OfPhases(messages, {"final_answer", "unknown"})) == AnswerOf(messages)
    ensures (exists k :: 0 <= k < |messages| && messages[k].phase == "final_answer" && messages[k].text != "") ==>
              AnswerOf(OfPhases(messages, {"final_answer"})) == AnswerOf(messages)
  {
    hide JoinedBy, Strip;
    SpokenOnly(messages, {"final_answer", "unknown"}, "final_answer");
    SpokenOnly(messages, {"final_answer", "unknown"}, "unknown");
    SpokenOnly(messages, {"final_answer"}, "final_answer");
    SpokenIffSaid(messages, "final_answer");
  }

  lemma {:induction false} SpokenIffSaid(messages: seq<AgentMessage>, phase: string)
    ensures Spoken(messages, phase) != [] <==>
            exists k :: 0 <= k < |messages| && messages[k].phase == phase && messages[k].text != ""
  {
    if messages != [] {
      SpokenIffSaid(messages[..|messages| - 1], phase);
    }
  }

  // ----- what ends a turn -----

  /** A notification that this very turn is over. */
  predicate EndOf(i: Input, thread: string, turn: string) {
    && Notifies(i, "turn/completed", thread)
    && Get(Params(i), "turn").Object? && Get(Get(Params(i), "turn").fields, "id") == Text(turn)
  }

  function StatusIn(i: Input): Value {
    Get(Fields(Get(Params(i), "turn")), "status")
  }

  predicate ErrorOf(i: Input, thread: string, turn: string) {
    Notifies(i, "error", thread) && OfTurn(i, turn) && Get(Params(i), "willRetry") != Flag(true)
  }

  /** The text, if it says something, or else the other one. */
  function Prefer(v: Value, otherwise: string): string {
    if v.Text? && v.text != "" then v.text else otherwise
  }
}
