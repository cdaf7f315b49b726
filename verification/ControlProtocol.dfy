/**
 * Any number of observers race over the control rows: live, protective,
 * permission-drift, late and ingress. Each runs the same client-side steps,
 * may crash anywhere, and meets contention at every transaction.
 */
module ControlProtocol {
  import opened Wrappers
  import opened Identifiers
  import opened ControlRows
  import opened TurnControls
  import opened IngressReservation
  import SendPath

  datatype Pc = Reading | Proven | InScope | Reserved | Calling | Settling | Leaving | Finished | Crashed

  /** One run of the observer. `path` is absent for an observer without a shutdown guard. */
  datatype Observer = Observer(
    pc: Pc, job: JobId, nativeThread: string, nativeTurn: string, root: string,
    deadline: real, observed: real, owner: Token, outcome: Outcome, path: Option<SendPath.Path>)

  /** One invocation of the native interrupt, with the reply once there is one. */
  datatype Call = Call(job: JobId, owner: Token, nativeThread: string, nativeTurn: string, reply: Option<Outcome>)

  datatype System = System(rows: Controls, minted: set<Token>, observers: map<nat, Observer>, calls: seq<Call>)

  datatype Step =
    | Spawn(i: nat, o: Observer)
    | ReadActive(i: nat, mono: real)
    | ReadEnds(i: nat)
    | EnterScope(i: nat)
    | Begin(i: nat, hub: Hub, a: Attempt, ingress: Option<Ingress>, delivered: bool, again: bool)
    | BeginFails(i: nat)
    | Decide(i: nat, mono: real)
    | Abandon(i: nat)
    | Returns(i: nat, k: nat, reply: Outcome)
    | Settle(i: nat, now: Wall, again: bool)
    | SettleFails(i: nat, again: bool)
    | LeaveScope(i: nat)
    | RequestClose(i: nat)
    | Crash(i: nat)
    | NewTurn(hub: Hub, job: JobId, nativeTurn: string, now: Wall)
    | BindStops(hub: Hub)
    | ClaimRead(job: JobId, worker: string, token: Token, now: Wall)
    | EndRead(job: JobId, token: Token)

  function Reserving(rows: Controls, step: Step): Result<Reservation>
    requires step.Begin?
  {
    if step.ingress.Some? then ReserveForIngress(rows, step.hub, step.a, step.ingress.value)
    else ReserveInterrupt(rows, step.hub, step.a)
  }

  predicate Guarded(o: Observer) {
    o.path.Some?
  }

  function WithPath(o: Observer, path: SendPath.Path): Observer {
    if o.path.Some? then o.(path := Some(path)) else o
  }

  /** The client call is made only while the RPC budget and the proof are both still fresh. */
  predicate MaySend(o: Observer, mono: real) {
    mono < o.deadline && 0.0 <= mono - o.observed <= 5.0
  }

  function Put(s: System, i: nat, o: Observer): System {
    s.(observers := s.observers[i := o])
  }

  predicate At(s: System, i: nat, pc: Pc) {
    i in s.observers && s.observers[i].pc == pc
  }

  predicate Enabled(s: System, step: Step) {
    match step
    case Spawn(i, o) => i !in s.observers && o.pc == Reading && (o.path.Some? ==> o.path.value == SendPath.OPEN)
    case ReadActive(i, mono) => At(s, i, Reading)
    case ReadEnds(i) => At(s, i, Reading)
    case EnterScope(i) => At(s, i, Proven)
    case Begin(i, hub, a, ingress, delivered, again) =>
      && At(s, i, InScope)
      && var o := s.observers[i];
      && a.job == o.job && a.proof == ActiveTurnProof(o.nativeThread, o.nativeTurn, o.root, o.observed)
      && a.sendDeadline == Some(o.deadline) && a.minted !in s.minted
      && Reserving(s.rows, step).Ok?
    case BeginFails(i) => At(s, i, InScope)
    case Decide(i, mono) => At(s, i, Reserved)
    case Abandon(i) => At(s, i, Reserved)
    case Returns(i, k, reply) =>
      At(s, i, Calling) && k < |s.calls| && s.calls[k].owner == s.observers[i].owner
      && reply != NotSent && s.calls[k].reply.None?
    case Settle(i, now, again) => At(s, i, Settling)
    case SettleFails(i, again) => At(s, i, Settling)
    case LeaveScope(i) => At(s, i, Leaving)
    case RequestClose(i) => i in s.observers && Guarded(s.observers[i])
    case Crash(i) => i in s.observers
    case NewTurn(hub, job, nativeTurn, now) =>
      job in hub.jobs && job in hub.checkpoints && AcceptTurn(s.rows, hub, job, nativeTurn, now).Ok?
    case BindStops(hub) => true
    case ClaimRead(job, worker, token, now) => job in s.rows && Allocate(s.rows[job], worker, token, now).Some?
    case EndRead(job, token) => job in s.rows
  }

  function Do(s: System, step: Step): System
    requires Enabled(s, step)
  {
    match step
    case Spawn(i, o) => Put(s, i, o)
    case ReadActive(i, mono) => Put(s, i, s.observers[i].(pc := Proven, observed := mono))
    case ReadEnds(i) => Put(s, i, s.observers[i].(pc := Finished))
    case EnterScope(i) =>
      var o := s.observers[i];
      if o.path.None? then Put(s, i, o.(pc := InScope))
      else if o.path.value.closeRequested || o.path.value.sending then Put(s, i, o.(pc := Finished))
      else Put(s, i, o.(pc := InScope, path := Some(SendPath.AfterEnter(o.path.value))))
    case Begin(i, hub, a, ingress, delivered, again) =>
      var r := Reserving(s.rows, step).value;
      var o := s.observers[i];
      var next := if r.owner.Some? && delivered then o.(pc := Reserved, owner := a.minted)
                  else if r.owner.None? && again then o
                  else o.(pc := Leaving);
      System(r.rows, s.minted + {a.minted}, s.observers[i := next], s.calls)
    case BeginFails(i) => Put(s, i, s.observers[i].(pc := Leaving))
    case Decide(i, mono) =>
      var o := s.observers[i];
      if !MaySend(o, mono) then Put(s, i, o.(pc := Settling, outcome := NotSent))
      else Put(s, i, o.(pc := Calling)).(calls := s.calls + [Call(o.job, o.owner, o.nativeThread, o.nativeTurn, None)])
    case Abandon(i) => Put(s, i, s.observers[i].(pc := Settling, outcome := Unknown))
    case Returns(i, k, reply) =>
      var calls := s.calls[k := s.calls[k].(reply := Some(reply))];
      Put(s, i, s.observers[i].(pc := Settling, outcome := reply)).(calls := calls)
    case Settle(i, now, again) =>
      var o := s.observers[i];
      var r := SettleInterrupt(s.rows, o.job, o.owner, o.outcome, o.outcome != Unknown, now);
      if r.Ok? then Put(s, i, if again then o else o.(pc := Leaving)).(rows := r.value)
      else Put(s, i, o.(pc := Leaving))
    case SettleFails(i, again) => Put(s, i, if again then s.observers[i] else s.observers[i].(pc := Leaving))
    case LeaveScope(i) =>
      var o := s.observers[i];
      Put(s, i, if o.path.Some? then o.(pc := Finished, path := Some(SendPath.AfterLeave(o.path.value)))
                else o.(pc := Finished))
    case RequestClose(i) =>
      Put(s, i, WithPath(s.observers[i], SendPath.AfterRequest(s.observers[i].path.value)))
    case Crash(i) => Put(s, i, s.observers[i].(pc := Crashed))
    case NewTurn(hub, job, nativeTurn, now) => s.(rows := AcceptTurn(s.rows, hub, job, nativeTurn, now).value.rows)
    case BindStops(hub) => s.(rows := Bind(s.rows, hub))
    case ClaimRead(job, worker, token, now) =>
      s.(rows := s.rows[job := Allocate(s.rows[job], worker, token, now).value])
    case EndRead(job, token) => s.(rows := s.rows[job := Release(s.rows[job], token)])
  }

  // ----- invariant -----

  predicate Holding(o: Observer) {
    o.pc == Reserved || o.pc == Calling || o.pc == Settling
  }

  predicate NoCall(calls: seq<Call>, owner: Token) {
    forall k :: 0 <= k < |calls| ==> calls[k].owner != owner
  }

  /** What an outcome claims about the calls made under an owner token. */
  predicate Evidence(calls: seq<Call>, owner: Token, outcome: Outcome) {
    && (outcome == NotSent ==> NoCall(calls, owner))
    && (outcome == MatchedAck || outcome == MatchedRejection ==>
          exists k :: 0 <= k < |calls| && calls[k].owner == owner && calls[k].reply == Some(outcome))
  }

  /** The row a holder or a call refers to: fenced by that token, for that exact turn. */
  predicate FencedFor(rows: Controls, job: JobId, owner: Token, nativeThread: string, nativeTurn: string) {
    && job in rows && rows[job].accepted
    && rows[job].send.Some? && rows[job].send.value.owner == owner
    && rows[job].target.nativeThread == nativeThread && rows[job].target.nativeTurn == nativeTurn
  }

  ghost predicate HolderOk(s: System, o: Observer) {
    && FencedFor(s.rows, o.job, o.owner, o.nativeThread, o.nativeTurn)
    && (o.pc == Reserved || o.pc == Calling ==> s.rows[o.job].outcome.None? && s.rows[o.job].quiescedAt.None?)
    && (o.pc == Reserved ==> NoCall(s.calls, o.owner))
    && (o.pc == Settling ==> Evidence(s.calls, o.owner, o.outcome))
  }

  /** From entering the scope until leaving it, the guarded client stays open. */
  predicate PathOk(o: Observer) {
    o.path.Some? ==>
      && SendPath.Sound(o.path.value)
      && (o.pc == InScope || o.pc == Leaving || Holding(o) ==> o.path.value.sending)
  }

  /** Tokens are minted once, and every settled row has evidence for its outcome. */
  ghost predicate RowsOk(rows: Controls, minted: set<Token>, calls: seq<Call>) {
    && Coherent(rows)
    && (forall j :: j in rows && rows[j].send.Some? ==> rows[j].send.value.owner in minted)
    && (forall i, j ::
          (i in rows && j in rows && rows[i].send.Some? && rows[j].send.Some?
           && rows[i].send.value.owner == rows[j].send.value.owner) ==> i == j)
    && (forall j :: j in rows && rows[j].outcome.Some? ==>
                      Evidence(calls, rows[j].send.value.owner, rows[j].outcome.value))
  }

  /** Every call was made under the fence of its own row, and no token made two calls. */
  ghost predicate CallsOk(rows: Controls, calls: seq<Call>) {
    && (forall k :: 0 <= k < |calls| ==>
                      FencedFor(rows, calls[k].job, calls[k].owner, calls[k].nativeThread, calls[k].nativeTurn))
    && (forall k, l :: 0 <= k < l < |calls| ==> calls[k].owner != calls[l].owner)
  }

  ghost predicate ObserversOk(s: System) {
    && (forall i :: i in s.observers ==> PathOk(s.observers[i]))
    && (forall i :: i in s.observers && Holding(s.observers[i]) ==> HolderOk(s, s.observers[i]))
    && (forall i, j ::
          (i in s.observers && j in s.observers && Holding(s.observers[i]) && Holding(s.observers[j])
           && s.observers[i].owner == s.observers[j].owner) ==> i == j)
  }

  ghost predicate Inv(s: System) {
    && RowsOk(s.rows, s.minted, s.calls)
    && CallsOk(s.rows, s.calls)
    && ObserversOk(s)
  }

  /** No fence, outcome or quiescence changes for rows already there; new rows carry none. */
  predicate SameAuthority(before: Controls, after: Controls) {
    && (forall j :: j in before ==>
          && j in after
          && after[j] == before[j].(stop := after[j].stop, nextRead := after[j].nextRead,
                                    attempts := after[j].attempts, claim := after[j].claim))
    && (forall j :: j in after && j !in before ==> (after[j].send.None? && after[j].outcome.None?))
  }

  lemma ReadsKeepInv(s: System, rows: Controls)
    requires Inv(s) && Coherent(rows) && SameAuthority(s.rows, rows)
    ensures Inv(s.(rows := rows))
  {
    var t := s.(rows := rows);
    forall i | i in t.observers && Holding(t.observers[i])
      ensures HolderOk(t, t.observers[i])
    {
      assert HolderOk(s, s.observers[i]);
    }
  }

  /** Moving one observer without touching rows or calls. */
  lemma MoveKeepsInv(s: System, i: nat, o: Observer)
    requires Inv(s) && PathOk(o)
    requires Holding(o) ==>
        (HolderOk(s, o) && i in s.observers && Holding(s.observers[i]) && s.observers[i].owner == o.owner)
    ensures Inv(Put(s, i, o))
  {
    var t := Put(s, i, o);
    forall j | j in t.observers && Holding(t.observers[j])
      ensures HolderOk(t, t.observers[j])
    {
      assert j != i ==> HolderOk(s, s.observers[j]);
    }
  }

  lemma FenceKeepsInv(s: System, i: nat, job: JobId, rows: Controls, minted: Token, next: Observer)
    requires Inv(s) && i in s.observers && PathOk(next) && minted !in s.minted
    requires !Holding(s.observers[i])
    requires Coherent(rows) && rows.Keys == s.rows.Keys && job in rows
    requires s.rows[job].send.None?
    requires forall j :: j in rows && j != job ==> rows[j] == s.rows[j]
    requires rows[job] == s.rows[job].(send := rows[job].send)
    requires rows[job].send.Some? && rows[job].send.value.owner == minted
    requires Holding(next) ==> next.pc == Reserved && next.owner == minted && next.job == job && s.rows[job].accepted
                               && rows[job].target.nativeThread == next.nativeThread
                               && rows[job].target.nativeTurn == next.nativeTurn
    ensures Inv(System(rows, s.minted + {minted}, s.observers[i := next], s.calls))
  {
    var t := System(rows, s.minted + {minted}, s.observers[i := next], s.calls);
    assert RowChecks(s.rows[job]);
    forall k | 0 <= k < |t.calls|
      ensures FencedFor(t.rows, t.calls[k].job, t.calls[k].owner, t.calls[k].nativeThread, t.calls[k].nativeTurn)
      ensures t.calls[k].owner != minted
    {
      assert FencedFor(s.rows, s.calls[k].job, s.calls[k].owner, s.calls[k].nativeThread, s.calls[k].nativeTurn);
    }
    forall j | j in t.observers && Holding(t.observers[j])
      ensures HolderOk(t, t.observers[j])
      ensures j != i ==> t.observers[j].owner != minted
    {
      if j != i {
        assert HolderOk(s, s.observers[j]);
      }
    }
  }

  /** The rows a reservation starts from: the ingress route binds stops first. */
  function Base(rows: Controls, step: Step): Controls
    requires step.Begin?
  {
    if step.ingress.Some? then Bind(rows, step.hub) else rows
  }

  /** What a reservation leaves behind, whichever route made it. */
  ghost predicate FencesOnly(base: Controls, a: Attempt, r: Reservation) {
    && (r.owner.None? ==> r.rows == base)
    && (r.owner.Some? ==>
          && a.job in base && base[a.job].accepted && base[a.job].send.None?
          && a.job in r.rows && r.rows == base[a.job := r.rows[a.job]]
          && r.rows[a.job] == base[a.job].(send := r.rows[a.job].send)
          && r.rows[a.job].send.Some? && r.rows[a.job].send.value.owner == a.minted
          && base[a.job].target.nativeThread == a.proof.nativeThread
          && base[a.job].target.nativeTurn == a.proof.nativeTurn)
  }

  lemma ReservingShape(rows: Controls, step: Step)
    requires Coherent(rows) && step.Begin? && Reserving(rows, step).Ok?
    ensures var base := Base(rows, step);
            && Coherent(base) && SameAuthority(rows, base) && Retained(rows, base)
            && FencesOnly(base, step.a, Reserving(rows, step).value)
  {
    if step.ingress.Some? {
      BindKeeps(rows, step.hub);
    } else {
      BeginKeeps(rows, step.hub, step.a);
    }
  }

  lemma RetainedTransitive(a: Controls, b: Controls, c: Controls)
    requires Retained(a, b) && Retained(b, c)
    ensures Retained(a, c)
  {
    forall j | j in a
      ensures j in c && UpdateAllowed(a[j], c[j])
    {
      assert UpdateAllowed(a[j], b[j]) && UpdateAllowed(b[j], c[j]);
    }
  }

  lemma RefusedKeepsInv(s: System, i: nat, rows: Controls, minted: Token, next: Observer)
    requires Inv(s) && Coherent(rows) && SameAuthority(s.rows, rows)
    requires i in s.observers && PathOk(next) && !Holding(next)
    ensures Inv(System(rows, s.minted + {minted}, s.observers[i := next], s.calls))
  {
    var u := s.(rows := rows);
    ReadsKeepInv(s, rows);
    var v := Put(u, i, next);
    MoveKeepsInv(u, i, next);
    var t := System(rows, s.minted + {minted}, s.observers[i := next], s.calls);
    forall j | j in t.observers && Holding(t.observers[j])
      ensures HolderOk(t, t.observers[j])
    {
      assert HolderOk(v, v.observers[j]);
    }
  }

  lemma GrantedKeepsInv(s: System, i: nat, base: Controls, a: Attempt, r: Reservation, next: Observer)
    requires Inv(s) && Coherent(base) && SameAuthority(s.rows, base) && Retained(s.rows, base)
    requires FencesOnly(base, a, r) && r.owner.Some? && a.minted !in s.minted
    requires At(s, i, InScope) && PathOk(next)
    requires Holding(next) ==>
               next.pc == Reserved && next.owner == a.minted && next.job == a.job
               && a.proof.nativeThread == next.nativeThread && a.proof.nativeTurn == next.nativeTurn
    ensures Inv(System(r.rows, s.minted + {a.minted}, s.observers[i := next], s.calls)) && Retained(s.rows, r.rows)
  {
    ReadsKeepInv(s, base);
    UpdateKeeps(base, a.job, r.rows[a.job]);
    RetainedTransitive(s.rows, base, r.rows);
    FenceKeepsInv(s.(rows := base), i, a.job, r.rows, a.minted, next);
  }

  lemma BeginKeepsInv(s: System, step: Step)
    requires Inv(s) && step.Begin? && Enabled(s, step)
    ensures Inv(Do(s, step)) && Retained(s.rows, Do(s, step).rows)
  {
    var i, a := step.i, step.a;
    var r := Reserving(s.rows, step).value;
    var base := Base(s.rows, step);
    ReservingShape(s.rows, step);
    var next := Do(s, step).observers[i];
    assert Do(s, step) == System(r.rows, s.minted + {a.minted}, s.observers[i := next], s.calls);
    assert PathOk(s.observers[i]);
    if r.owner.None? {
      RefusedKeepsInv(s, i, base, a.minted, next);
    } else {
      GrantedKeepsInv(s, i, base, a, r, next);
    }
  }

  lemma CallKeepsInv(s: System, i: nat)
    requires Inv(s) && At(s, i, Reserved)
    ensures var o := s.observers[i];
            var call := Call(o.job, o.owner, o.nativeThread, o.nativeTurn, None);
            Inv(Put(s, i, o.(pc := Calling)).(calls := s.calls + [call]))
  {
    var o := s.observers[i];
    var c := Call(o.job, o.owner, o.nativeThread, o.nativeTurn, None);
    var t := Put(s, i, o.(pc := Calling)).(calls := s.calls + [c]);
    assert HolderOk(s, o);
    forall j | j in t.rows && t.rows[j].outcome.Some?
      ensures Evidence(t.calls, t.rows[j].send.value.owner, t.rows[j].outcome.value)
    {
      EvidenceSurvivesCall(s.calls, c, s.rows[j].send.value.owner, s.rows[j].outcome.value);
    }
    forall j | j in t.observers && Holding(t.observers[j])
      ensures HolderOk(t, t.observers[j])
    {
      if j != i {
        assert HolderOk(s, s.observers[j]);
        if s.observers[j].pc == Settling {
          EvidenceSurvivesCall(s.calls, c, s.observers[j].owner, s.observers[j].outcome);
        }
      }
    }
  }

  lemma DecideKeepsInv(s: System, i: nat, mono: real)
    requires Inv(s) && At(s, i, Reserved)
    ensures Inv(Do(s, Decide(i, mono)))
  {
    var o := s.observers[i];
    if MaySend(o, mono) {
      CallKeepsInv(s, i);
    } else {
      assert HolderOk(s, o);
      MoveKeepsInv(s, i, o.(pc := Settling, outcome := NotSent));
    }
  }

  lemma EvidenceSurvivesCall(calls: seq<Call>, c: Call, owner: Token, outcome: Outcome)
    requires Evidence(calls, owner, outcome) && c.owner != owner
    ensures Evidence(calls + [c], owner, outcome)
  {
    var more := calls + [c];
    if outcome == MatchedAck || outcome == MatchedRejection {
      var k :| 0 <= k < |calls| && calls[k].owner == owner && calls[k].reply == Some(outcome);
      assert more[k] == calls[k];
    }
  }

  lemma EvidenceSurvivesReply(calls: seq<Call>, k: nat, reply: Outcome, owner: Token, outcome: Outcome)
    requires k < |calls| && calls[k].reply.None? && Evidence(calls, owner, outcome)
    ensures Evidence(calls[k := calls[k].(reply := Some(reply))], owner, outcome)
  {
    var after := calls[k := calls[k].(reply := Some(reply))];
    if outcome == MatchedAck || outcome == MatchedRejection {
      var l :| 0 <= l < |calls| && calls[l].owner == owner && calls[l].reply == Some(outcome);
      assert after[l] == calls[l];
    }
  }

  lemma ReturnsKeepsInv(s: System, i: nat, k: nat, reply: Outcome)
    requires Inv(s) && Enabled(s, Returns(i, k, reply))
    ensures Inv(Do(s, Returns(i, k, reply)))
  {
    var t := Do(s, Returns(i, k, reply));
    assert HolderOk(s, s.observers[i]);
    assert t.calls[k].reply == Some(reply);
    forall j | j in t.rows && t.rows[j].outcome.Some?
      ensures Evidence(t.calls, t.rows[j].send.value.owner, t.rows[j].outcome.value)
    {
      EvidenceSurvivesReply(s.calls, k, reply, s.rows[j].send.value.owner, s.rows[j].outcome.value);
    }
    forall j | j in t.observers && Holding(t.observers[j])
      ensures HolderOk(t, t.observers[j])
    {
      if j != i {
        assert HolderOk(s, s.observers[j]);
        if s.observers[j].pc == Settling {
          EvidenceSurvivesReply(s.calls, k, reply, s.observers[j].owner, s.observers[j].outcome);
        }
      }
    }
    forall l | 0 <= l < |t.calls|
      ensures FencedFor(t.rows, t.calls[l].job, t.calls[l].owner, t.calls[l].nativeThread, t.calls[l].nativeTurn)
    {
      assert FencedFor(s.rows, s.calls[l].job, s.calls[l].owner, s.calls[l].nativeThread, s.calls[l].nativeTurn);
    }
  }

  /** Writing the outcome an observer holds evidence for, on the row it fenced. */
  lemma OutcomeKeepsInv(s: System, i: nat, rows: Controls)
    requires Inv(s) && At(s, i, Settling) && s.observers[i].job in s.rows
    requires Coherent(rows)
    requires var o := s.observers[i];
             && o.job in rows && rows == s.rows[o.job := rows[o.job]]
             && rows[o.job] == s.rows[o.job].(outcome := Some(o.outcome), quiescedAt := rows[o.job].quiescedAt)
    ensures Inv(s.(rows := rows))
  {
    var u := s.(rows := rows);
    assert HolderOk(s, s.observers[i]);
    forall j | j in u.rows && u.rows[j].outcome.Some?
      ensures Evidence(u.calls, u.rows[j].send.value.owner, u.rows[j].outcome.value)
    {
      assert j != s.observers[i].job ==> u.rows[j] == s.rows[j];
    }
    forall j | j in u.observers && Holding(u.observers[j])
      ensures HolderOk(u, u.observers[j])
    {
      assert HolderOk(s, s.observers[j]);
    }
    forall k | 0 <= k < |u.calls|
      ensures FencedFor(u.rows, u.calls[k].job, u.calls[k].owner, u.calls[k].nativeThread, u.calls[k].nativeTurn)
    {
      assert FencedFor(s.rows, s.calls[k].job, s.calls[k].owner, s.calls[k].nativeThread, s.calls[k].nativeTurn);
    }
  }

  function Settled(s: System, i: nat, now: Wall): Result<Controls>
    requires At(s, i, Settling)
  {
    var o := s.observers[i];
    SettleInterrupt(s.rows, o.job, o.owner, o.outcome, o.outcome != Unknown, now)
  }

  lemma SettledKeepsInv(s: System, i: nat, now: Wall)
    requires Inv(s) && At(s, i, Settling) && Settled(s, i, now).Ok?
    ensures Inv(s.(rows := Settled(s, i, now).value)) && Retained(s.rows, Settled(s, i, now).value)
  {
    var o := s.observers[i];
    FinishKeeps(s.rows, o.job, o.owner, o.outcome, o.outcome != Unknown, now);
    OutcomeKeepsInv(s, i, Settled(s, i, now).value);
  }

  lemma SettleKeepsInv(s: System, i: nat, now: Wall, again: bool)
    requires Inv(s) && At(s, i, Settling)
    ensures Inv(Do(s, Settle(i, now, again)))
    ensures Retained(s.rows, Do(s, Settle(i, now, again)).rows)
  {
    var u := s;
    if Settled(s, i, now).Ok? {
      SettledKeepsInv(s, i, now);
      u := s.(rows := Settled(s, i, now).value);
    }
    var next := Do(s, Settle(i, now, again)).observers[i];
    assert Do(s, Settle(i, now, again)) == Put(u, i, next);
    assert PathOk(u.observers[i]) && HolderOk(u, u.observers[i]);
    MoveKeepsInv(u, i, next);
  }

  lemma MoveStepKeepsInv(s: System, step: Step)
    requires Inv(s) && Enabled(s, step)
    requires step.Spawn? || step.ReadActive? || step.ReadEnds? || step.EnterScope? || step.BeginFails?
             || step.Abandon? || step.SettleFails? || step.LeaveScope? || step.RequestClose? || step.Crash?
    ensures Inv(Do(s, step)) && Do(s, step).rows == s.rows
  {
    var o := Do(s, step).observers[step.i];
    assert Do(s, step) == Put(s, step.i, o);
    assert PathOk(o) by {
      assert step.i in s.observers ==> PathOk(s.observers[step.i]);
    }
    if Holding(o) {
      assert HolderOk(s, s.observers[step.i]);
      assert Holding(s.observers[step.i]) && s.observers[step.i].owner == o.owner;
      assert HolderOk(s, o);
    }
    MoveKeepsInv(s, step.i, o);
  }

  function RowsAfter(s: System, step: Step): Controls
    requires Enabled(s, step)
    requires step.NewTurn? || step.BindStops? || step.ClaimRead? || step.EndRead?
  {
    Do(s, step).rows
  }

  lemma RowStepShape(s: System, step: Step)
    requires Coherent(s.rows) && Enabled(s, step)
    requires step.NewTurn? || step.BindStops? || step.ClaimRead? || step.EndRead?
    ensures Coherent(RowsAfter(s, step)) && Retained(s.rows, RowsAfter(s, step))
        && SameAuthority(s.rows, RowsAfter(s, step))
  {
    match step
    case NewTurn(hub, job, nativeTurn, now) => AcceptKeeps(s.rows, hub, job, nativeTurn, now);
    case BindStops(hub) => BindKeeps(s.rows, hub);
    case ClaimRead(job, worker, token, now) => AllocateKeeps(s.rows, job, worker, token, now);
    case EndRead(job, token) => ReleaseKeeps(s.rows, job, token);
  }

  lemma RowStepKeepsInv(s: System, step: Step)
    requires Inv(s) && Enabled(s, step)
    requires step.NewTurn? || step.BindStops? || step.ClaimRead? || step.EndRead?
    ensures Inv(Do(s, step)) && Retained(s.rows, Do(s, step).rows)
  {
    RowStepShape(s, step);
    ReadsKeepInv(s, RowsAfter(s, step));
  }

  lemma StepKeepsInv(s: System, step: Step)
    requires Inv(s) && Enabled(s, step)
    ensures Inv(Do(s, step)) && Retained(s.rows, Do(s, step).rows)
  {
    if step.Begin? {
      BeginKeepsInv(s, step);
    } else if step.Decide? {
      DecideKeepsInv(s, step.i, step.mono);
    } else if step.Returns? {
      ReturnsKeepsInv(s, step.i, step.k, step.reply);
    } else if step.Settle? {
      SettleKeepsInv(s, step.i, step.now, step.again);
    } else if step.NewTurn? || step.BindStops? || step.ClaimRead? || step.EndRead? {
      RowStepKeepsInv(s, step);
    } else {
      MoveStepKeepsInv(s, step);
    }
  }

  // ----- runs -----

  predicate Initial(s: System) {
    s.observers == map[] && s.calls == [] && s.minted == {}
    && forall j :: j in s.rows ==> s.rows[j].send.None? && s.rows[j].outcome.None? && s.rows[j].quiescedAt.None?
  }

  ghost predicate Run(states: seq<System>, steps: seq<Step>) {
    && |states| == |steps| + 1
    && Initial(states[0]) && Coherent(states[0].rows)
    && forall n :: 0 <= n < |steps| ==> Enabled(states[n], steps[n]) && states[n + 1] == Do(states[n], steps[n])
  }

  lemma {:induction false} RunKeepsInv(states: seq<System>, steps: seq<Step>, n: nat)
    requires Run(states, steps) && n < |states|
    ensures Inv(states[n])
  {
    if n > 0 {
      RunKeepsInv(states, steps, n - 1);
      StepKeepsInv(states[n - 1], steps[n - 1]);
    }
  }

  lemma StepRetains(states: seq<System>, steps: seq<Step>, n: nat)
    requires Run(states, steps) && 0 < n < |states|
    ensures Retained(states[n - 1].rows, states[n].rows)
  {
    RunKeepsInv(states, steps, n - 1);
    StepKeepsInv(states[n - 1], steps[n - 1]);
  }

  /** Over every interleaving with crashes and retries, one native turn is interrupted at most once. */
  lemma AtMostOneInterruptPerTurn(states: seq<System>, steps: seq<Step>, n: nat)
    requires Run(states, steps) && n < |states|
    ensures forall k, l :: 0 <= k < l < |states[n].calls| ==>
              !(states[n].calls[k].nativeThread == states[n].calls[l].nativeThread
                && states[n].calls[k].nativeTurn == states[n].calls[l].nativeTurn)
  {
    RunKeepsInv(states, steps, n);
    var s := states[n];
    forall k, l | 0 <= k < l < |s.calls|
      ensures !(s.calls[k].nativeThread == s.calls[l].nativeThread && s.calls[k].nativeTurn == s.calls[l].nativeTurn)
    {
      var a, b := s.calls[k], s.calls[l];
      assert FencedFor(s.rows, a.job, a.owner, a.nativeThread, a.nativeTurn);
      assert FencedFor(s.rows, b.job, b.owner, b.nativeThread, b.nativeTurn);
      assert SameTurn(s.rows[a.job].target, s.rows[b.job].target) ==> a.job == b.job;
    }
  }

  /** While a call is out, its row is fenced and unquiesced and the guarded client is not closed. */
  lemma CallWindowIsFenced(states: seq<System>, steps: seq<Step>, n: nat, i: nat)
    requires Run(states, steps) && n < |states| && At(states[n], i, Calling)
    ensures var s := states[n]; var o := s.observers[i];
            && o.job in s.rows && s.rows[o.job].send.Some? && s.rows[o.job].send.value.owner == o.owner
            && s.rows[o.job].quiescedAt.None? && s.rows[o.job].outcome.None?
            && (o.path.Some? ==> !o.path.value.closed)
  {
    RunKeepsInv(states, steps, n);
    assert HolderOk(states[n], states[n].observers[i]);
    assert PathOk(states[n].observers[i]);
  }

  /** Quiescence is never guessed: a matched reply arrived under that fence, or no call was made under it. */
  lemma QuiescedMeansAnsweredOrNeverSent(states: seq<System>, steps: seq<Step>, n: nat, job: JobId)
    requires Run(states, steps) && n < |states| && job in states[n].rows
    requires states[n].rows[job].quiescedAt.Some?
    ensures var s := states[n];
            && s.rows[job].send.Some?
            && (NoCall(s.calls, s.rows[job].send.value.owner)
                || exists k :: 0 <= k < |s.calls| && s.calls[k].owner == s.rows[job].send.value.owner
                               && s.calls[k].reply == s.rows[job].outcome)
    ensures forall i ::
              i in states[n].observers && states[n].observers[i].owner == states[n].rows[job].send.value.owner ==>
              states[n].observers[i].pc != Reserved && states[n].observers[i].pc != Calling
  {
    RunKeepsInv(states, steps, n);
    var s := states[n];
    assert RowChecks(s.rows[job]);
    forall i | i in s.observers && s.observers[i].owner == s.rows[job].send.value.owner
      ensures s.observers[i].pc != Reserved && s.observers[i].pc != Calling
    {
      if Holding(s.observers[i]) {
        assert HolderOk(s, s.observers[i]);
      }
    }
  }

  lemma {:induction false} RetainedChain(states: seq<System>, m: nat, n: nat)
    requires m <= n < |states|
    requires forall k :: 0 < k < |states| ==> Retained(states[k - 1].rows, states[k].rows)
    ensures Retained(states[m].rows, states[n].rows)
  {
    if m < n {
      RetainedChain(states, m, n - 1);
      RetainedTransitive(states[m].rows, states[n - 1].rows, states[n].rows);
    }
  }

  /** Fences, matched outcomes and quiescence are permanent along every run. */
  lemma AuthorityIsPermanent(states: seq<System>, steps: seq<Step>, m: nat, n: nat, job: JobId)
    requires Run(states, steps) && m <= n < |states| && job in states[m].rows
    ensures job in states[n].rows
    ensures var before, after := states[m].rows[job], states[n].rows[job];
            && (before.send.Some? ==> after.send.Some? && after.send.value.owner == before.send.value.owner)
            && (Matched(before.outcome) ==> after.outcome == before.outcome)
            && (before.quiescedAt.Some? ==> after.quiescedAt == before.quiescedAt)
  {
    forall k | 0 < k < |states|
      ensures Retained(states[k - 1].rows, states[k].rows)
    {
      StepRetains(states, steps, k);
    }
    RetainedChain(states, m, n);
    assert UpdateAllowed(states[m].rows[job], states[n].rows[job]);
  }

  // ----- paths: steps taken one after the other from any state -----

  /** Steps taken one after the other from a protocol state. */
  ghost predicate Path(s: System, steps: seq<Step>)
    decreases |steps|, 0
  {
    steps == [] || (Path(s, steps[..|steps| - 1]) && Enabled(End(s, steps[..|steps| - 1]), steps[|steps| - 1]))
  }

  ghost function End(s: System, steps: seq<Step>): System
    requires Path(s, steps)
    decreases |steps|, 1
  {
    if steps == [] then s else Do(End(s, steps[..|steps| - 1]), steps[|steps| - 1])
  }

  lemma {:induction false} PathKeepsInv(s: System, steps: seq<Step>)
    requires Inv(s) && Path(s, steps)
    ensures Inv(End(s, steps))
  {
    if steps != [] {
      PathKeepsInv(s, steps[..|steps| - 1]);
      StepKeepsInv(End(s, steps[..|steps| - 1]), steps[|steps| - 1]);
    }
  }

  lemma OneStep(s: System, a: Step)
    requires Enabled(s, a)
    ensures Path(s, [a]) && End(s, [a]) == Do(s, a)
  {
    hide Enabled, Do;
    assert [a][..0] == [];
    assert Path(s, []) && End(s, []) == s;
  }

  lemma TwoSteps(s: System, a: Step, b: Step)
    requires Enabled(s, a) && Enabled(Do(s, a), b)
    ensures Path(s, [a, b]) && End(s, [a, b]) == Do(Do(s, a), b)
  {
    hide Enabled, Do;
    OneStep(s, a);
    assert [a, b][..1] == [a];
  }
}
