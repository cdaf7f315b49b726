/**
 * The client side of the fence, as one observer runs it: read, fence, call at
 * most once, settle, leave. Before each of its effects any number of steps of
 * other observers may happen. Every effect it has is an enabled step of
 * ControlProtocol, so what that protocol guarantees holds at its end.
 */
module ControlRecovery {
  import opened Wrappers
  import opened Identifiers
  import opened ControlRows
  import opened TurnControls
  import opened IngressReservation
  import opened ControlProtocol
  import IngressControl
  import SendPath

  // ----- steps of others -----

  function Actor(step: Step): Option<nat> {
    match step
    case Spawn(i, _) => Some(i)
    case ReadActive(i, _) => Some(i)
    case ReadEnds(i) => Some(i)
    case EnterScope(i) => Some(i)
    case Begin(i, _, _, _, _, _) => Some(i)
    case BeginFails(i) => Some(i)
    case Decide(i, _) => Some(i)
    case Abandon(i) => Some(i)
    case Returns(i, _, _) => Some(i)
    case Settle(i, _, _) => Some(i)
    case SettleFails(i, _) => Some(i)
    case LeaveScope(i) => Some(i)
    case RequestClose(i) => Some(i)
    case Crash(i) => Some(i)
    case _ => None
  }

  /** Anyone may ask this observer's path to close; otherwise others act for themselves, with tokens of their own. */
  predicate Foreign(step: Step, i: nat, tokens: set<Token>) {
    && (Actor(step) == Some(i) ==> step.RequestClose?)
    && (step.Begin? ==> step.a.minted !in tokens)
  }

  /** No other observer holds one of this run's tokens. */
  predicate Alone(s: System, i: nat, tokens: set<Token>) {
    forall j :: j in s.observers && j != i && Holding(s.observers[j]) ==> s.observers[j].owner !in tokens
  }

  predicate NoCallBy(calls: seq<Call>, tokens: set<Token>) {
    forall k :: 0 <= k < |calls| ==> calls[k].owner !in tokens
  }

  predicate OneCallBy(calls: seq<Call>, tokens: set<Token>) {
    forall k, l :: 0 <= k < l < |calls| ==> calls[k].owner !in tokens || calls[l].owner !in tokens
  }

  /** What steps of others leave to this observer: its own variables, its unused tokens and its calls. */
  predicate Undisturbed(a: System, b: System, i: nat, tokens: set<Token>) {
    && i in a.observers && i in b.observers && b.observers[i] == a.observers[i].(path := b.observers[i].path)
    && (forall t :: t in tokens && t !in a.minted ==> t !in b.minted)
    && (forall k :: 0 <= k < |a.calls| && a.calls[k].owner in tokens ==> k < |b.calls| && b.calls[k] == a.calls[k])
    && (forall k :: 0 <= k < |b.calls| && b.calls[k].owner in tokens ==> k < |a.calls| && a.calls[k] == b.calls[k])
  }

  lemma CallsUndisturbed(a: System, b: System, i: nat, tokens: set<Token>)
    requires Undisturbed(a, b, i, tokens)
    ensures NoCallBy(b.calls, tokens) == NoCallBy(a.calls, tokens)
    ensures OneCallBy(b.calls, tokens) == OneCallBy(a.calls, tokens)
  {
  }

  lemma NoCallIsAtMostOne(calls: seq<Call>, tokens: set<Token>)
    ensures NoCallBy(calls, tokens) ==> OneCallBy(calls, tokens)
  {
  }

  lemma ForeignObservers(s: System, step: Step, i: nat, tokens: set<Token>)
    requires Enabled(s, step) && Foreign(step, i, tokens) && i in s.observers
    ensures var n := Do(s, step);
            && i in n.observers && n.observers[i] == s.observers[i].(path := n.observers[i].path)
            && (step != RequestClose(i) ==> n.observers[i] == s.observers[i])
  {
  }

  lemma ForeignStepsStayAlone(s: System, step: Step, i: nat, tokens: set<Token>)
    requires Enabled(s, step) && Foreign(step, i, tokens) && Alone(s, i, tokens)
    ensures Alone(Do(s, step), i, tokens)
  {
  }

  lemma ForeignCalls(s: System, step: Step, i: nat, tokens: set<Token>)
    requires Enabled(s, step) && Foreign(step, i, tokens) && i in s.observers && Alone(s, i, tokens)
    ensures var n := Do(s, step);
            && (forall t :: t in tokens && t !in s.minted ==> t !in n.minted)
            && (forall k :: 0 <= k < |s.calls| && s.calls[k].owner in tokens ==>
                k < |n.calls| && n.calls[k] == s.calls[k])
            && (forall k :: 0 <= k < |n.calls| && n.calls[k].owner in tokens ==>
                k < |s.calls| && s.calls[k] == n.calls[k])
  {
    if step.Decide? || step.Returns? {
      assert Holding(s.observers[step.i]);
    }
  }

  /** This observer's own steps never hand its tokens to another. */
  lemma OwnStepsStayAlone(s: System, step: Step, i: nat, tokens: set<Token>)
    requires Enabled(s, step) && Actor(step) == Some(i) && Alone(s, i, tokens)
    ensures Alone(Do(s, step), i, tokens)
  {
  }

  // ----- one run -----

  /** A Lost transaction is committed although its caller is told otherwise, by contention or by another error. */
  datatype Transaction = Works | Lost(contention: bool) | Contention | Fault
  datatype Reply = Acknowledged | RejectedByServer | Failed
  datatype Status = Unclear | Active | Ended

  /** One attempt to settle: how its transaction ends, when, and whether retry time is left. */
  datatype Try = Try(how: Transaction, now: Wall, timeLeft: bool)

  /** An ingress precaution: its evidence and clocks, and the stops seen before and after it. */
  datatype Precaution = Precaution(
    evidence: IngressControl.Evidence, attempt: Attempt, laterWall: Wall, laterMono: real,
    begin: Transaction, stopBefore: bool, stopAfter: bool)

  /** What the outside does during one run. A read that raises is None. */
  datatype Outside = Outside(
    first: Option<Status>, observed: real, hub: Hub, precaution: Option<Precaution>,
    begin: Transaction, attempt: Attempt, sendAt: real, reply: Reply, tries: seq<Try>,
    late: bool, second: Option<Status>)

  function OutcomeOf(reply: Reply): Outcome {
    match reply
    case Acknowledged => MatchedAck
    case RejectedByServer => MatchedRejection
    case Failed => Unknown
  }

  /** Some reservation of this run met contention, before or after its commit. */
  predicate Contended(o: Outside) {
    || o.begin == Contention || o.begin == Lost(true)
    || (o.precaution.Some? && (o.precaution.value.begin == Contention || o.precaution.value.begin == Lost(true)))
  }

  function Read(r: Option<Status>): Status {
    if r.None? then Unclear else r.value
  }

  /** The rows after one settlement that nothing disturbs; a refused one leaves them alone. */
  function RowsSettled(rows: Controls, job: JobId, owner: Token, outcome: Outcome, now: Wall): Controls {
    var r := SettleInterrupt(rows, job, owner, outcome, outcome != Unknown, now);
    if r.Ok? then r.value else rows
  }

  /** An attempt made for this observer, with a token of its own. */
  predicate Own(a: Attempt, o: Observer, tokens: set<Token>) {
    && a.job == o.job && a.sendDeadline == Some(o.deadline) && a.minted in tokens
    && a.proof.nativeThread == o.nativeThread && a.proof.nativeTurn == o.nativeTurn && a.proof.root == o.root
  }

  /** What the assessment decided, in the protocol's terms. */
  function RouteOf(rows: Controls, assessments: map<JobId, IngressControl.A.Row>, hub: Hub, p: Precaution): Ingress {
    var a, bound := p.attempt, Bind(rows, hub);
    if PendingStop(hub, a.job) || !IngressControl.HasTarget(bound, p.evidence, a.job) || !ValidTarget(bound, hub, a)
    then Ingress(false, None, p.laterWall, p.laterMono)
    else
      var o := IngressControl.A.Assess(IngressControl.PriorRow(assessments, a.job),
                                       IngressControl.InputsFor(bound, p.evidence, a.job), a.wall);
      Ingress(true, if o.Ok? then IngressControl.DueRevision(o.value, a.wall) else None, p.laterWall, p.laterMono)
  }

  /** The ingress transaction, as it is given the tables, takes the fence. */
  predicate Grants(rows: Controls, assessments: map<JobId, IngressControl.A.Row>, hub: Hub, p: Precaution) {
    var f := IngressControl.FenceForIngress(rows, assessments, hub, p.evidence, p.attempt, p.laterWall, p.laterMono);
    f.Ok? && f.value.reservation.owner.Some?
  }

  /** The owner-stop transaction takes the fence. */
  predicate GrantsStop(rows: Controls, o: Outside) {
    ReserveInterrupt(rows, o.hub, o.attempt).Ok? && ReserveInterrupt(rows, o.hub, o.attempt).value.owner.Some?
  }

  /** Neither a precaution nor trouble with the two transactions comes between. */
  predicate Unhindered(o: Outside) {
    && (o.precaution.None? || o.precaution.value.stopBefore)
    && o.begin == Works && o.tries != [] && o.tries[0].how == Works
  }

  /** There is budget left to call, and the proof is at most five seconds old. */
  predicate InTime(o: Outside, deadline: real) {
    o.sendAt < deadline && o.observed <= o.sendAt <= o.observed + 5.0
  }

  lemma InTimeMeans(o: Outside, deadline: real)
    ensures InTime(o, deadline) ==> 0.0 <= o.sendAt - o.observed <= 5.0
  {
  }

  /** The row says what this run did: its fence, the answer to its call or that there was none, and that it is over. */
  predicate Recorded(rows: Controls, o: Outside, called: bool)
    requires o.tries != []
  {
    && o.attempt.job in rows
    && var row := rows[o.attempt.job];
    && row.send.Some? && row.send.value.owner == o.attempt.minted && row.send.value.source == o.attempt.source
    && (!called ==> row.outcome == Some(NotSent))
    && (called && o.reply == Acknowledged ==> row.outcome == Some(MatchedAck))
    && (called && o.reply == RejectedByServer ==> row.outcome == Some(MatchedRejection))
    && (called && o.reply == Failed ==> row.outcome == Some(Unknown) && row.quiescedAt.None?)
    && (!called || o.reply != Failed ==> row.quiescedAt == Some(o.tries[0].now))
  }

  lemma FencedAndSettled(rows: Controls, o: Outside, called: bool)
    requires Coherent(rows) && GrantsStop(rows, o) && o.tries != []
    ensures Recorded(RowsSettled(ReserveInterrupt(rows, o.hub, o.attempt).value.rows, o.attempt.job, o.attempt.minted,
                                 if called then OutcomeOf(o.reply) else NotSent, o.tries[0].now), o, called)
  {
    hide ValidTarget;
    BeginKeeps(rows, o.hub, o.attempt);
    assert RowChecks(rows[o.attempt.job]);
    GrantedSource(rows, o);
  }

  lemma RowsAreCoherent(s: System)
    requires Inv(s)
    ensures Coherent(s.rows)
  {
  }

  lemma GrantedSource(rows: Controls, o: Outside)
    requires GrantsStop(rows, o)
    ensures o.attempt.job in rows
    ensures var after := ReserveInterrupt(rows, o.hub, o.attempt).value.rows;
            o.attempt.job in after
            && (rows[o.attempt.job].send.None? ==>
                after[o.attempt.job].send == Some(Send(o.attempt.minted, o.attempt.wall, o.attempt.source, None)))
  {
  }

  /** Whatever the assessment decided, the ingress transaction reserves as the protocol's ingress route does. */
  lemma IngressIsARoute(rows: Controls, assessments: map<JobId, IngressControl.A.Row>, hub: Hub, p: Precaution)
    ensures var a := p.attempt;
            var f := IngressControl.FenceForIngress(rows, assessments, hub, p.evidence, a, p.laterWall, p.laterMono);
            f.Ok? ==> ReserveForIngress(rows, hub, a, RouteOf(rows, assessments, hub, p)) == Ok(f.value.reservation)
  {
  }

  class ControlObserver {
    const controls: CodexTurnControls
    const precautions: IngressControl.CodexIngressControl
    const path: SendPath.ControlSendPath?
    const i: nat
    const tokens: set<Token>

    /** The steps of others that happen before each effect of this run. */
    var others: seq<seq<Step>>

    /** The shared world as the protocol sees it: the real rows, all observers and all calls. */
    var world: System

    ghost const start: System
    ghost var steps: seq<Step>

    ghost function PathState(): Option<SendPath.Path>
      reads path
    {
      if path == null then None else Some(path.State())
    }

    /** The real rows and send path are those of the protocol state all steps so far have led to. */
    ghost predicate Valid()
      reads this, controls, path
    {
      && Path(start, steps) && world == End(start, steps)
      && precautions.controls == controls && world.rows == controls.rows
      && i in world.observers && (path != null ==> path.Valid()) && world.observers[i].path == PathState()
      && Alone(world, i, tokens)
    }

    ghost predicate AtPc(pc: Pc)
      reads this, controls, path
    {
      Valid() && world.observers[i].pc == pc
    }

    /** Inside the scope the path of a guarded observer is taken. */
    ghost predicate Guarding()
      reads path
    {
      path != null ==> path.sending
    }

    constructor (precautions: IngressControl.CodexIngressControl, path: SendPath.ControlSendPath?, i: nat,
                 tokens: set<Token>, others: seq<seq<Step>>, world: System)
      requires world.rows == precautions.controls.rows && At(world, i, Reading) && Alone(world, i, tokens)
      requires path != null ==> path.Valid()
      requires world.observers[i].path == if path == null then None else Some(path.State())
      ensures this.controls == precautions.controls && this.precautions == precautions && this.path == path
      ensures this.i == i && this.tokens == tokens && start == world && this.world == world && AtPc(Reading)
    {
      this.controls, this.precautions, this.path := precautions.controls, precautions, path;
      this.i, this.tokens := i, tokens;
      this.others, this.world := others, world;
      start, steps := world, [];
    }

    /** One protocol step; the caller brings the real rows and path to the same state. */
    method Advance(step: Step)
      requires Path(start, steps) && world == End(start, steps) && Enabled(world, step)
      modifies this`world, this`steps
      ensures Path(start, steps) && world == End(start, steps) && world == Do(old(world), step)
    {
      assert (steps + [step])[..|steps|] == steps;
      steps := steps + [step];
      world := Do(world, step);
    }

    /** One own step. */
    method Mark(step: Step)
      requires Valid() && Enabled(world, step) && Actor(step) == Some(i) && Do(world, step).rows == controls.rows
      requires i in Do(world, step).observers && Do(world, step).observers[i].path == PathState()
      modifies this`world, this`steps
      ensures Valid() && world == Do(old(world), step)
    {
      OwnStepsStayAlone(world, step, i, tokens);
      Advance(step);
    }

    /** One step of somebody else, on the real rows, or a close request on the real path. */
    method Suffer(step: Step)
      requires Valid() && Enabled(world, step) && Foreign(step, i, tokens)
      modifies controls, path, this`world, this`steps
      ensures Valid() && Undisturbed(old(world), world, i, tokens)
      ensures path != null ==> path.sending == old(path.sending)
    {
      ForeignObservers(world, step, i, tokens);
      ForeignStepsStayAlone(world, step, i, tokens);
      ForeignCalls(world, step, i, tokens);
      if step == RequestClose(i) && path != null {
        path.RequestClose();
      }
      Advance(step);
      controls.rows := world.rows;
    }

    /** Whatever others do before the next effect. */
    method Interfere()
      requires Valid()
      modifies controls, path, this`world, this`steps, this`others
      ensures Valid() && Undisturbed(old(world), world, i, tokens)
      ensures path != null ==> path.sending == old(path.sending)
      ensures old(others) == [] ==> others == [] && world == old(world)
      ensures NoCallBy(world.calls, tokens) == NoCallBy(old(world).calls, tokens)
      ensures OneCallBy(world.calls, tokens) == OneCallBy(old(world).calls, tokens)
    {
      if others == [] {
        return;
      }
      var now := others[0];
      others := others[1..];
      for n := 0 to |now|
        invariant Valid() && Undisturbed(old(world), world, i, tokens)
        invariant path != null ==> path.sending == old(path.sending)
      {
        if Enabled(world, now[n]) && Foreign(now[n], i, tokens) {
          Suffer(now[n]);
        }
      }
      CallsUndisturbed(old(world), world, i, tokens);
    }

    /** The first read: only an active turn goes on. */
    method FirstRead(o: Outside)
      requires AtPc(Reading)
      modifies this`world, this`steps
      ensures AtPc(if o.first == Some(Active) then Proven else Finished)
      ensures o.first == Some(Active) ==>
          world.observers[i] == old(world).observers[i].(pc := Proven, observed := o.observed)
      ensures world.calls == old(world).calls && world.minted == old(world).minted
    {
      if o.first == Some(Active) {
        Mark(ReadActive(i, o.observed));
      } else {
        Mark(ReadEnds(i));
      }
    }

    /** Enter the send scope; a closing or busy path refuses, and an unguarded observer is always permitted. */
    method Enter() returns (permitted: bool)
      requires AtPc(Proven)
      modifies path, this`world, this`steps
      ensures AtPc(if permitted then InScope else Finished) && (permitted ==> Guarding())
      ensures world.calls == old(world).calls && world.minted == old(world).minted
          && controls.rows == old(controls.rows)
      ensures world.observers[i] == old(world).observers[i].(pc := world.observers[i].pc, path := PathState())
      ensures permitted <==> path == null || (!old(path.closeRequested) && !old(path.sending))
    {
      permitted := true;
      if path != null {
        permitted := path.EnterScope();
      }
      OwnStepsStayAlone(world, EnterScope(i), i, tokens);
      Advance(EnterScope(i));
    }

    method Leave()
      requires AtPc(Leaving) && Guarding()
      modifies path, this`world, this`steps
      ensures AtPc(Finished) && world.calls == old(world).calls && (path != null ==> !path.sending)
      ensures controls.rows == old(controls.rows)
    {
      if path != null {
        path.LeaveScope(true);
      }
      OwnStepsStayAlone(world, LeaveScope(i), i, tokens);
      Advance(LeaveScope(i));
    }

    /** The owner-stop transaction: the fence taken and delivered, or nothing this run may act on. */
    method Fence(how: Transaction, hub: Hub, a: Attempt) returns (owned: bool, raised: bool)
      requires AtPc(InScope) && Own(a, world.observers[i], tokens) && a.minted !in world.minted
      requires a.proof.observed == world.observers[i].observed
      modifies controls, this`world, this`steps
      ensures AtPc(if owned then Reserved else Leaving) && world.calls == old(world).calls
      ensures raised ==> how == Contention || how == Lost(true)
      ensures how == Contention ==> raised
      ensures !(owned && raised)
      ensures owned ==>
          how == Works && world.observers[i] == old(world).observers[i].(pc := Reserved, owner := a.minted)
      ensures var r := ReserveInterrupt(old(controls.rows), hub, a);
              && (owned <==> how == Works && r.Ok? && r.value.owner.Some?)
              && controls.rows == if r.Ok? && (how == Works || how.Lost?) then r.value.rows else old(controls.rows)
    {
      owned, raised := false, how == Contention;
      if how == Contention || how == Fault {
        Mark(BeginFails(i));
        return;
      }
      var r := controls.BeginInterrupt(hub, a);
      if r.Err? {
        Mark(BeginFails(i));
        return;
      }
      owned, raised := r.value.Some? && how == Works, how == Lost(true);
      var step := Begin(i, hub, a, None, how == Works, false);
      OwnStepsStayAlone(world, step, i, tokens);
      Advance(step);
    }

    /** The ingress transaction; when it reserves nothing, a stop seen afterwards lets the owner-stop route try. */
    method FenceIngress(hub: Hub, p: Precaution) returns (owned: bool, failed: bool, raised: bool)
      requires AtPc(InScope) && Own(p.attempt, world.observers[i], tokens) && p.attempt.minted !in world.minted
      requires p.attempt.proof.observed == world.observers[i].observed
      modifies controls, precautions, this`world, this`steps
      ensures AtPc(if owned then Reserved else if failed || !p.stopAfter then Leaving else InScope)
      ensures raised ==> failed && (p.begin == Contention || p.begin == Lost(true))
      ensures p.begin == Contention ==> raised
      ensures !(owned && failed) && world.calls == old(world).calls
          && world.minted <= old(world).minted + {p.attempt.minted}
      ensures owned ==>
          p.begin == Works && world.observers[i] == old(world).observers[i].(pc := Reserved, owner := p.attempt.minted)
      ensures !owned ==> world.observers[i] == old(world).observers[i].(pc := world.observers[i].pc)
      ensures owned <==> p.begin == Works && Grants(old(controls.rows), old(precautions.assessments), hub, p)
    {
      hide IngressControl.FenceForIngress, ReserveForIngress, RouteOf, Path, End;
      owned, failed, raised := false, true, p.begin == Contention;
      if p.begin == Contention || p.begin == Fault {
        Mark(BeginFails(i));
        return;
      }
      var route := RouteOf(controls.rows, precautions.assessments, hub, p);
      IngressIsARoute(controls.rows, precautions.assessments, hub, p);
      var r := precautions.BeginInterrupt(hub, p.evidence, p.attempt, p.laterWall, p.laterMono);
      if r.Err? {
        Mark(BeginFails(i));
        return;
      }
      failed, raised := p.begin.Lost?, p.begin == Lost(true);
      owned := r.value.Some? && !failed;
      var step := Begin(i, hub, p.attempt, Some(route), !failed, p.stopAfter && !failed);
      OwnStepsStayAlone(world, step, i, tokens);
      Advance(step);
    }

    /** The one place that calls the native interrupt, and the classification of what came back. */
    method Send(o: Outside, proof: ActiveTurnProof, deadline: real) returns (called: bool, outcome: Outcome)
      requires AtPc(Reserved) && world.observers[i].deadline == deadline
          && world.observers[i].observed == proof.observed
      requires world.observers[i].owner in tokens && NoCallBy(world.calls, tokens)
      modifies controls, path, this`world, this`steps, this`others
      ensures AtPc(Settling) && world.observers[i].outcome == outcome
      ensures called <==> MaySend(old(world).observers[i], o.sendAt)
      ensures called <==> !NoCallBy(world.calls, tokens)
      ensures OneCallBy(world.calls, tokens)
      ensures outcome == if called then OutcomeOf(o.reply) else NotSent
      ensures world.observers[i].owner == old(world).observers[i].owner
          && world.observers[i].job == old(world).observers[i].job
      ensures path != null ==> path.sending == old(path.sending)
      ensures old(others) == [] ==> others == [] && controls.rows == old(controls.rows)
    {
      hide Path, End;
      called := o.sendAt < deadline && 0.0 <= o.sendAt - proof.observed <= 5.0;
      outcome := NotSent;
      var k := |world.calls|;
      Mark(Decide(i, o.sendAt));
      if called {
        assert world.calls[k].owner in tokens;
        outcome := Await(k, o.reply);
      }
    }

    /** The call is out; others act until its answer is there. */
    method Await(k: nat, reply: Reply) returns (outcome: Outcome)
      requires AtPc(Calling) && k < |world.calls| && world.calls[k].owner == world.observers[i].owner
      requires world.calls[k].owner in tokens && world.calls[k].reply.None? && OneCallBy(world.calls, tokens)
      modifies controls, path, this`world, this`steps, this`others
      ensures AtPc(Settling) && outcome == OutcomeOf(reply)
      ensures !NoCallBy(world.calls, tokens) && OneCallBy(world.calls, tokens)
      ensures world.observers[i] == old(world).observers[i].(pc := Settling, outcome := outcome, path := PathState())
      ensures path != null ==> path.sending == old(path.sending)
      ensures old(others) == [] ==> others == [] && controls.rows == old(controls.rows)
    {
      hide Path, End, Alone;
      Interfere();
      outcome := OutcomeOf(reply);
      Mark(Returns(i, k, outcome));
      assert world.calls[k].owner in tokens;
    }

    /** State-only retries of one settlement while its contention and its time last. */
    method SettleInterrupt(tries: seq<Try>, job: JobId, owner: Token, outcome: Outcome)
      requires AtPc(Settling) && Guarding()
      requires var me := world.observers[i]; me.job == job && me.owner == owner && me.outcome == outcome
      modifies controls, path, this`world, this`steps, this`others
      ensures AtPc(Leaving) && Guarding()
      ensures NoCallBy(world.calls, tokens) == old(NoCallBy(world.calls, tokens))
      ensures old(OneCallBy(world.calls, tokens)) ==> OneCallBy(world.calls, tokens)
      ensures old(others) == [] ==> others == []
      ensures old(others) == [] && tries != [] && tries[0].how == Works ==>
                controls.rows == RowsSettled(old(controls.rows), job, owner, outcome, tries[0].now)
    {
      hide Path, End, TurnControls.SettleInterrupt;
      var n := 0;
      while n < |tries|
        invariant old(others) == [] ==> others == []
        invariant old(others) == [] && n == 0 ==> controls.rows == old(controls.rows)
        invariant 0 <= n <= |tries| && (0 < n <= |tries| ==> tries[0].how != Works)
        invariant AtPc(Settling) && Guarding()
        invariant NoCallBy(world.calls, tokens) == old(NoCallBy(world.calls, tokens))
        invariant old(OneCallBy(world.calls, tokens)) ==> OneCallBy(world.calls, tokens)
        invariant var me := world.observers[i]; me.job == job && me.owner == owner && me.outcome == outcome
      {
        Interfere();
        var again := SettleOnce(tries[n], job, owner, outcome);
        if !again {
          return;
        }
        n := n + 1;
      }
      Mark(SettleFails(i, false));
    }

    method SettleOnce(t: Try, job: JobId, owner: Token, outcome: Outcome) returns (again: bool)
      requires AtPc(Settling)
      requires var me := world.observers[i]; me.job == job && me.owner == owner && me.outcome == outcome
      modifies controls, this`world, this`steps
      ensures AtPc(if again then Settling else Leaving) && world.calls == old(world).calls
      ensures world.observers[i] == old(world).observers[i].(pc := world.observers[i].pc)
      ensures t.how == Works ==> !again && controls.rows == RowsSettled(old(controls.rows), job, owner, outcome, t.now)
    {
      hide TurnControls.SettleInterrupt, Path, End;
      again := t.timeLeft && (t.how == Contention || t.how == Lost(true));
      if t.how == Contention || t.how == Fault {
        Mark(SettleFails(i, again));
        return;
      }
      var r := controls.FinishInterrupt(job, owner, outcome, outcome != Unknown, t.now);
      again := again && r.Ok?;
      OwnStepsStayAlone(world, Settle(i, t.now, again), i, tokens);
      Advance(Settle(i, t.now, again));
    }

    /** An owner stop alone, or a precaution that a racing owner stop may take over with the same proof. */
    method Reserve(o: Outside) returns (owned: bool, raised: bool, a: Attempt)
      requires AtPc(InScope) && Guarding() && Prepared(o, world) && NoCallBy(world.calls, tokens)
      requires o.observed == world.observers[i].observed
      modifies controls, precautions, path, this`world, this`steps, this`others
      ensures AtPc(if owned then Reserved else Leaving) && Guarding() && NoCallBy(world.calls, tokens)
      ensures raised ==> !owned && Contended(o)
      ensures owned ==>
          a.minted in tokens && a.job == old(world).observers[i].job
          && a.sendDeadline == Some(old(world).observers[i].deadline)
      ensures owned ==>
          world.observers[i] == old(world).observers[i].(pc := Reserved, owner := a.minted, path := PathState())
      ensures old(others) == [] ==> others == []
      ensures old(others) == [] && (o.precaution.None? || o.precaution.value.stopBefore) ==>
                && a == o.attempt && (owned <==> o.begin == Works && GrantsStop(old(controls.rows), o))
                && (owned ==> controls.rows == ReserveInterrupt(old(controls.rows), o.hub, o.attempt).value.rows)
      ensures old(others) == [] && o.precaution.Some? && !o.precaution.value.stopBefore
              && Grants(old(controls.rows), old(precautions.assessments), o.hub, o.precaution.value)
              && o.precaution.value.begin == Works ==>
                owned && a == o.precaution.value.attempt
    {
      hide Do, Enabled, Path, End, IngressControl.FenceForIngress, ReserveInterrupt;
      a, raised := o.attempt, false;
      Interfere();
      if o.precaution.Some? && !o.precaution.value.stopBefore {
        a := o.precaution.value.attempt;
        var failed;
        owned, failed, raised := FenceIngress(o.hub, o.precaution.value);
        if owned || failed || !o.precaution.value.stopAfter {
          return;
        }
        a := o.attempt;
        Interfere();
      }
      owned, raised := Fence(o.begin, o.hub, a);
    }

    /** Every attempt of this run is made for this observer with an unused token and the proof it just read. */
    ghost predicate Prepared(o: Outside, w: System) {
      && i in w.observers && Own(o.attempt, w.observers[i], tokens) && o.attempt.minted !in w.minted
      && o.attempt.proof.observed == o.observed
      && (o.precaution.Some? ==>
            var a := o.precaution.value.attempt;
            && Own(a, w.observers[i], tokens) && a.minted !in w.minted && a.minted != o.attempt.minted
            && a.proof.observed == o.observed)
    }

    /** With the fence in hand: one call at most, and its settlement. */
    method CallAndSettle(o: Outside, a: Attempt) returns (called: bool)
      requires AtPc(Reserved) && Guarding() && NoCallBy(world.calls, tokens) && a.minted in tokens
      requires var me := world.observers[i];
               && me.job == a.job && me.owner == a.minted
               && Some(me.deadline) == a.sendDeadline && me.observed == o.observed
      modifies controls, path, this`world, this`steps, this`others
      ensures AtPc(Leaving) && Guarding()
      ensures (called <==> !NoCallBy(world.calls, tokens)) && OneCallBy(world.calls, tokens)
      ensures called <==> InTime(o, a.sendDeadline.value)
      ensures old(others) == [] ==> others == []
      ensures old(others) == [] && o.tries != [] && o.tries[0].how == Works ==>
                controls.rows == RowsSettled(old(controls.rows), a.job, a.minted,
                                             if called then OutcomeOf(o.reply) else NotSent, o.tries[0].now)
    {
      hide Do, Enabled, Path, End, RowsSettled, NoCallBy, OneCallBy, Alone;
      var outcome;
      Interfere();
      called, outcome := Send(o, ActiveTurnProof("", "", "", o.observed), a.sendDeadline.value);
      SettleInterrupt(o.tries, a.job, a.minted, outcome);
    }

    /** Inside the send scope: reserve, call, settle, and always leave. */
    method Interrupt(o: Outside) returns (owned: bool, raised: bool, called: bool)
      requires AtPc(InScope) && Guarding() && Prepared(o, world) && NoCallBy(world.calls, tokens)
      requires o.observed == world.observers[i].observed
      modifies controls, precautions, path, this`world, this`steps, this`others
      ensures AtPc(Finished) && (path != null ==> !path.sending)
      ensures (called <==> !NoCallBy(world.calls, tokens)) && OneCallBy(world.calls, tokens)
      ensures raised ==> !owned && Contended(o)
      ensures called ==> owned && 0.0 <= o.sendAt - o.observed <= 5.0
      ensures old(others) == [] && Unhindered(o) && GrantsStop(old(controls.rows), o) ==>
                && owned && !raised
                && (called <==> InTime(o, old(world).observers[i].deadline))
                && (Coherent(old(controls.rows)) ==> Recorded(controls.rows, o, called))
    {
      hide Do, Enabled, Path, End, ReserveInterrupt, RowsSettled, Recorded, Coherent, NoCallBy, OneCallBy, Contended,
        Alone, GrantsStop, InTime;
      called := false;
      ghost var before := controls.rows;
      var a;
      owned, raised, a := Reserve(o);
      if owned {
        called := CallAndSettle(o, a);
        if Unhindered(o) && GrantsStop(before, o) && Coherent(before) {
          FencedAndSettled(before, o, called);
        }
        InTimeMeans(o, a.sendDeadline.value);
      } else {
        NoCallIsAtMostOne(world.calls, tokens);
      }
      Interfere();
      Leave();
    }

    /**
     * The whole run, with any steps of others before each of its effects: every
     * effect is an enabled protocol step, so the protocol's invariant holds at
     * its end; its tokens made a call exactly if it says so, never more than
     * one, and only with a proof at most five seconds old; the path is left.
     */
    method ObserveAfterControlLoss(o: Outside) returns (seen: Result<Status>, called: bool)
      requires AtPc(Reading) && Inv(start) && Prepared(o, world) && NoCallBy(world.calls, tokens)
      modifies controls, precautions, path, this`world, this`steps, this`others
      ensures AtPc(Finished) && Inv(world)
      ensures (called <==> !NoCallBy(world.calls, tokens)) && OneCallBy(world.calls, tokens)
      ensures called ==> o.first == Some(Active) && 0.0 <= o.sendAt - o.observed <= 5.0
      ensures seen.Err? ==> o.first == Some(Active) && Contended(o) && !called
      ensures seen.Ok? ==>
          seen.value == Read(o.first)
          || (o.first == Some(Active) && (seen.value == Unclear || seen.value == Read(o.second)))
      ensures old(others) == [] && Unhindered(o) && GrantsStop(old(controls.rows), o) && o.first == Some(Active)
              && (path == null || (!old(path.closeRequested) && !old(path.sending))) ==>
                && (called <==> InTime(o, old(world).observers[i].deadline))
                && seen == Ok(if o.late then Unclear else Read(o.second))
                && Recorded(controls.rows, o, called)
    {
      hide Do, Enabled, Inv, Path, End, Recorded, GrantsStop, Coherent, OneCallBy, NoCallBy, InTime, Contended;
      seen, called := Ok(Read(o.first)), false;
      Interfere();
      FirstRead(o);
      if o.first == Some(Active) {
        Interfere();
        var permitted := Enter();
        if permitted {
          var owned, raised;
          PathKeepsInv(start, steps);
          RowsAreCoherent(world);
          owned, raised, called := Interrupt(o);
          if raised {
            seen := Err("database is locked");
          } else if owned {
            seen := Ok(if o.late then Unclear else Read(o.second));
          }
        }
      }
      NoCallIsAtMostOne(world.calls, tokens);
      PathKeepsInv(start, steps);
    }
  }
}
