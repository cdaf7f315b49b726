/**
 * What a send fence needs, over the tables alone: who may ask for it, whose
 * hands the turn is in, and that every table still names that turn. Every call
 * of every run goes back to such a grant.
 */
module InterruptAuthority {
  import opened Wrappers
  import opened Identifiers
  import opened ControlRows
  import opened ControlScope
  import opened TurnControls
  import opened IngressReservation
  import opened ControlProtocol

  /** An owner's stop, bound to the row, that is still pending and still covers the job. */
  predicate StopIsPending(rows: Controls, hub: Hub, j: JobId)
    requires j in rows
  {
    exists s :: s in hub.stops && rows[j].stop == Some(s.id) && s.pending && (s.id, j) in hub.covers
  }

  /** Either the worker executes the job under this very lease, or this very read claim holds the abandoned job. */
  predicate InHand(c: Control, job: Job, a: Attempt) {
    || (a.invocation.Some? && a.readClaim.None? && job.status == Executing && c.claim.None?
        && job.leaseToken == a.invocation && job.leaseExpires.Some? && a.wall < job.leaseExpires.value)
    || (a.invocation.None? && a.readClaim.Some? && job.status == Indeterminate && job.leaseToken.None?
        && c.claim.Some? && Some(c.claim.value.token) == a.readClaim && a.wall < c.claim.value.expires)
  }

  /** Job, session, topic and checkpoint all name exactly the row's frozen target, and nothing has ended its turn. */
  ghost predicate TargetStands(rows: Controls, hub: Hub, j: JobId) {
    && j in rows && j in hub.jobs && j in hub.checkpoints && j !in hub.terminals && j !in hub.resolutions
    && var t, job := rows[j].target, hub.jobs[j];
    && job == Job(t.session, t.generation, t.topic, t.agent, t.inputChat, t.profile,
                  job.status, job.leaseToken, job.leaseExpires)
    && t.session in hub.sessions
    && hub.sessions[t.session] == Session(t.topic, t.agent, t.generation, true, true, Some(t.nativeThread), t.profile)
    && t.topic in hub.topics
    && hub.topics[t.topic] == Topic(t.project, t.chat, t.thread, hub.topics[t.topic].scope)
    && hub.checkpoints[j] == Checkpoint(t.nativeThread, Some(t.nativeTurn), t.root, t.profile, false)
    && TopicRoot(rows, hub, t.topic, t.root)
  }

  /** The proof names the row's turn and is at most five seconds old, and there is time left to send. */
  predicate ProofIsFresh(c: Control, a: Attempt) {
    && a.proof == ActiveTurnProof(c.target.nativeThread, c.target.nativeTurn, c.target.root, a.proof.observed)
    && a.validatedRoot == c.target.root
    && a.proof.observed <= a.mono <= a.proof.observed + 5.0
    && (a.sendDeadline.None? || a.mono < a.sendDeadline.value)
  }

  ghost predicate Authorized(rows: Controls, hub: Hub, a: Attempt) {
    && TargetStands(rows, hub, a.job)
    && rows[a.job].accepted && rows[a.job].send.None?
    && ProofIsFresh(rows[a.job], a)
    && InHand(rows[a.job], hub.jobs[a.job], a)
  }

  /** A read claim goes with the late source and an invocation with every other one. */
  predicate AuthorityGiven(a: Attempt) {
    if a.source == Late then a.readClaim.Some? && a.invocation.None? else a.readClaim.None? && a.invocation.Some?
  }

  lemma CoherentIffStands(rows: Controls, hub: Hub, j: JobId)
    requires j in rows && j in hub.jobs
    ensures CoherentTarget(rows, hub, j) <==> TargetStands(rows, hub, j)
  {
    hide ResolvedScope, TopicRoot;
    ResolvedIffTopicRoot(rows, hub, rows[j].target.topic, rows[j].target.root);
  }

  lemma ValidIffAuthorized(rows: Controls, hub: Hub, a: Attempt)
    requires a.invocation.None? != a.readClaim.None?
    ensures ValidTarget(rows, hub, a) <==> Authorized(rows, hub, a)
  {
    hide CoherentTarget;
    if a.job in rows && a.job in hub.jobs {
      CoherentIffStands(rows, hub, a.job);
    }
  }

  /**
   * A fence is granted if and only if the row's whole authority stands, and for the owner's own
   * sources a pending stop asks for it; then it is written with that source, and nothing else is.
   */
  lemma GrantedIffAuthorized(rows: Controls, hub: Hub, a: Attempt)
    ensures ReserveInterrupt(rows, hub, a).Ok? <==> AuthorityGiven(a)
    ensures AuthorityGiven(a) ==>
              var r := ReserveInterrupt(rows, hub, a).value;
              && (r.owner.Some? <==>
                  && Authorized(rows, hub, a)
                  && (a.source == Live || a.source == Late ==> StopIsPending(rows, hub, a.job)))
              && r.owner == (if r.owner.Some? then Some(a.minted) else None)
              && r.rows == if r.owner.None? then rows
                           else rows[a.job := rows[a.job].(send := Some(Send(a.minted, a.wall, a.source, None)))]
  {
    hide ValidTarget, TargetStands;
    if a.invocation.None? != a.readClaim.None? {
      ValidIffAuthorized(rows, hub, a);
    }
    assert a.job in rows && a.job in hub.jobs ==>
        (BoundStopCovers(rows, hub, a.job) <==> StopIsPending(rows, hub, a.job));
    assert Authorized(rows, hub, a) ==> a.job in rows && a.job in hub.jobs by {
      StandsIn(rows, hub, a.job);
    }
  }

  lemma StandsIn(rows: Controls, hub: Hub, j: JobId)
    ensures TargetStands(rows, hub, j) ==> j in rows && j in hub.jobs
  {
  }

  // ----- the ingress route -----

  /** No pending stop of any owner covers the job. */
  predicate Uncovered(hub: Hub, j: JobId) {
    forall s :: s in hub.stops && s.pending ==> (s.id, j) !in hub.covers
  }

  lemma BindingChangesNoAuthority(rows: Controls, hub: Hub, a: Attempt)
    ensures Authorized(Bind(rows, hub), hub, a) <==> Authorized(rows, hub, a)
  {
    var bound := Bind(rows, hub);
    assert forall j :: j in rows ==> bound[j] == rows[j].(stop := bound[j].stop, nextRead := bound[j].nextRead);
    assert bound.Keys == rows.Keys;
    if a.job in rows {
      SameSaved(rows, bound, hub, rows[a.job].target.topic);
    }
  }

  lemma SameSaved(rows: Controls, bound: Controls, hub: Hub, topic: TopicId)
    requires bound.Keys == rows.Keys && forall j :: j in rows ==> bound[j].target == rows[j].target
    ensures forall root :: SavedFor(bound, hub, topic, root) <==> SavedFor(rows, hub, topic, root)
    ensures forall root :: TopicRoot(bound, hub, topic, root) <==> TopicRoot(rows, hub, topic, root)
  {
    forall root
      ensures SavedFor(bound, hub, topic, root) <==> SavedFor(rows, hub, topic, root)
    {
    }
  }

  /**
   * A precaution fences if and only if no stop is pending for the job, its assessment is due, and
   * the authority stands before and after assessing; the row then names that assessment.
   */
  lemma PrecautionIffAuthorized(rows: Controls, hub: Hub, a: Attempt, g: Ingress)
    ensures ReserveForIngress(rows, hub, a, g).Ok? <==> a.invocation.None? != a.readClaim.None?
    ensures a.invocation.None? != a.readClaim.None? ==>
              var r := ReserveForIngress(rows, hub, a, g).value;
              var later := a.(wall := g.laterWall, mono := g.laterMono);
              && (r.owner.Some? <==>
                  && Uncovered(hub, a.job) && g.target && g.due.Some?
                  && Authorized(rows, hub, a) && Authorized(rows, hub, later))
              && r.owner == (if r.owner.Some? then Some(a.minted) else None)
              && (r.owner.None? ==> r.rows == Bind(rows, hub))
              && (r.owner.Some? ==>
                    var source := if a.readClaim.Some? then Late else Protective;
                    && a.job in r.rows && r.rows[a.job].send == Some(Send(a.minted, a.wall, source, g.due))
                    && r.rows == Bind(rows, hub)[a.job := Bind(rows, hub)[a.job].(send := r.rows[a.job].send)])
  {
    hide ValidTarget, Authorized, Bind;
    if a.invocation.None? != a.readClaim.None? {
      var bound, later := Bind(rows, hub), Rechecked(a, g);
      ValidIffAuthorized(bound, hub, a);
      ValidIffAuthorized(bound, hub, later);
      BindingChangesNoAuthority(rows, hub, a);
      BindingChangesNoAuthority(rows, hub, later);
      AuthorizedMeans(bound, hub, a);
      PendingIffCovered(hub, a.job);
    }
  }

  lemma AuthorizedMeans(rows: Controls, hub: Hub, a: Attempt)
    ensures Authorized(rows, hub, a) ==> a.job in rows && a.job in hub.jobs && rows[a.job].send.None?
  {
  }

  lemma PendingIffCovered(hub: Hub, j: JobId)
    ensures PendingStop(hub, j) <==> j in hub.jobs && !Uncovered(hub, j)
  {
  }

  // ----- every call of every run -----

  /** The grant that minted a token: where the authority stood, and that its holder was told. */
  ghost predicate GrantedAt(states: seq<System>, steps: seq<Step>, m: nat, job: JobId, owner: Token,
                            nativeThread: string, nativeTurn: string)
    requires Run(states, steps) && m < |steps|
  {
    && steps[m].Begin?
    && var rows, hub, a := states[m].rows, steps[m].hub, steps[m].a;
    && a.job == job && a.minted == owner
    && Authorized(rows, hub, a)
    && rows[job].target.nativeThread == nativeThread && rows[job].target.nativeTurn == nativeTurn
    && if steps[m].ingress.None? then AuthorityGiven(a) && (a.source == Live || a.source == Late ==>
                                                            StopIsPending(rows, hub, job))
       else Uncovered(hub, job) && steps[m].ingress.value.due.Some?
  }

  ghost predicate Granted(states: seq<System>, steps: seq<Step>, n: nat, job: JobId, owner: Token, nativeThread: string,
                          nativeTurn: string)
    requires Run(states, steps) && n <= |steps|
  {
    exists m :: 0 <= m < n && GrantedAt(states, steps, m, job, owner, nativeThread, nativeTurn)
  }

  lemma BeginIsAGrant(states: seq<System>, steps: seq<Step>, n: nat)
    requires Run(states, steps) && n < |steps| && steps[n].Begin?
    requires Reserving(states[n].rows, steps[n]).value.owner.Some?
    ensures var o := states[n].observers[steps[n].i];
            GrantedAt(states, steps, n, o.job, steps[n].a.minted, o.nativeThread, o.nativeTurn)
  {
    hide Authorized, ReserveInterrupt, ReserveForIngress, AuthorityGiven, StopIsPending, Uncovered, Bind;
    var rows, hub, a := states[n].rows, steps[n].hub, steps[n].a;
    assert Enabled(states[n], steps[n]);
    if steps[n].ingress.Some? {
      PrecautionIffAuthorized(rows, hub, a, steps[n].ingress.value);
    } else {
      GrantedIffAuthorized(rows, hub, a);
    }
    AuthorizedNames(rows, hub, a);
  }

  lemma AuthorizedNames(rows: Controls, hub: Hub, a: Attempt)
    ensures Authorized(rows, hub, a) ==>
              && a.job in rows && rows[a.job].target.nativeThread == a.proof.nativeThread
              && rows[a.job].target.nativeTurn == a.proof.nativeTurn
  {
  }

  /** Every holder of a fence, and every call made under one, has its grant. */
  lemma {:induction false} HoldersWereGranted(states: seq<System>, steps: seq<Step>, n: nat)
    requires Run(states, steps) && n <= |steps|
    ensures forall i :: i in states[n].observers && Holding(states[n].observers[i]) ==>
              var o := states[n].observers[i]; Granted(states, steps, n, o.job, o.owner, o.nativeThread, o.nativeTurn)
    ensures forall k :: 0 <= k < |states[n].calls| ==>
              var c := states[n].calls[k]; Granted(states, steps, n, c.job, c.owner, c.nativeThread, c.nativeTurn)
  {
    hide GrantedAt, Run, Reserving, AcceptTurn, Allocate, Release, Bind, SettleInterrupt, MaySend;
    RunLength(states, steps);
    if n > 0 {
      HoldersWereGranted(states, steps, n - 1);
      RunSteps(states, steps, n - 1);
      var s, step := states[n - 1], steps[n - 1];
      if step.Begin? && Reserving(s.rows, step).value.owner.Some? {
        BeginIsAGrant(states, steps, n - 1);
      }
      GrantsLast(states, steps, n - 1);
      forall i | i in states[n].observers && Holding(states[n].observers[i])
        ensures var o := states[n].observers[i]; Granted(states, steps, n, o.job, o.owner, o.nativeThread, o.nativeTurn)
      {
        HolderComesFrom(s, step, i);
      }
      forall k | 0 <= k < |states[n].calls|
        ensures var c := states[n].calls[k]; Granted(states, steps, n, c.job, c.owner, c.nativeThread, c.nativeTurn)
      {
        CallComesFrom(s, step, k);
      }
    } else {
      StartsEmpty(states, steps);
    }
  }

  lemma RunLength(states: seq<System>, steps: seq<Step>)
    requires Run(states, steps)
    ensures |states| == |steps| + 1
  {
  }

  lemma StartsEmpty(states: seq<System>, steps: seq<Step>)
    requires Run(states, steps)
    ensures states[0].observers == map[] && states[0].calls == []
  {
  }

  lemma RunSteps(states: seq<System>, steps: seq<Step>, n: nat)
    requires Run(states, steps) && n < |steps|
    ensures Enabled(states[n], steps[n]) && states[n + 1] == Do(states[n], steps[n])
  {
  }

  lemma GrantsLast(states: seq<System>, steps: seq<Step>, n: nat)
    requires Run(states, steps) && n < |steps|
    ensures forall job, owner, nativeThread, nativeTurn ::
              Granted(states, steps, n, job, owner, nativeThread, nativeTurn)
              ==> Granted(states, steps, n + 1, job, owner, nativeThread, nativeTurn)
  {
  }

  /** Only a reservation makes a holder, of the token it minted; the others held before, for the same turn. */
  lemma HolderComesFrom(s: System, step: Step, i: nat)
    requires Enabled(s, step) && i in Do(s, step).observers && Holding(Do(s, step).observers[i])
    ensures i in s.observers
    ensures var before, after := s.observers[i], Do(s, step).observers[i];
            && after.job == before.job
            && after.nativeThread == before.nativeThread && after.nativeTurn == before.nativeTurn
            && (if step.Begin? && step.i == i
                then Reserving(s.rows, step).value.owner.Some? && after.owner == step.a.minted
                else Holding(before) && after.owner == before.owner)
  {
    hide Reserving, AcceptTurn, Allocate, Release, Bind, SettleInterrupt, MaySend;
  }

  lemma CallComesFrom(s: System, step: Step, k: nat)
    requires Enabled(s, step) && k < |Do(s, step).calls|
    ensures var c := Do(s, step).calls[k];
            || (k < |s.calls| && c == s.calls[k].(reply := c.reply))
            || exists i :: i in s.observers && Holding(s.observers[i])
                           && c == Call(s.observers[i].job, s.observers[i].owner, s.observers[i].nativeThread,
                                        s.observers[i].nativeTurn, None)
  {
    hide Reserving, AcceptTurn, Allocate, Release, Bind, SettleInterrupt, MaySend;
  }

  /**
   * Over every interleaving: no native interrupt is ever called but under a fence that was granted
   * while all of that turn's authority stood, with a pending stop asking for it if it was the owner's.
   */
  lemma CallsWereAuthorized(states: seq<System>, steps: seq<Step>, n: nat, k: nat) returns (m: nat)
    requires Run(states, steps) && n <= |steps| && k < |states[n].calls|
    ensures var c := states[n].calls[k];
            m < n && GrantedAt(states, steps, m, c.job, c.owner, c.nativeThread, c.nativeTurn)
  {
    HoldersWereGranted(states, steps, n);
    var c := states[n].calls[k];
    assert Granted(states, steps, n, c.job, c.owner, c.nativeThread, c.nativeTurn);
    var found :| 0 <= found < n && GrantedAt(states, steps, found, c.job, c.owner, c.nativeThread, c.nativeTurn);
    m := found;
  }

  /** A call begins exactly when its holder still has budget and a proof of at most five seconds, for its own turn. */
  lemma CallIffFresh(s: System, i: nat, mono: real)
    requires At(s, i, Reserved)
    ensures var o, after := s.observers[i], Do(s, Decide(i, mono));
            if mono < o.deadline && o.observed <= mono <= o.observed + 5.0 then
              && after.calls == s.calls + [Call(o.job, o.owner, o.nativeThread, o.nativeTurn, None)]
              && after.observers[i] == o.(pc := Calling)
            else
              && after.calls == s.calls
              && after.observers[i] == o.(pc := Settling, outcome := NotSent)
  {
  }

  // ----- settling -----

  /**
   * A settlement is refused only for a foreign token, an unproved quiescence or another matched
   * outcome; one with proof quiesces the row for good, and from then on no gate counts its sender.
   */
  lemma SettlementQuiesces(rows: Controls, job: JobId, owner: Token, outcome: Outcome, quiesced: bool, now: Wall)
    ensures var r := SettleInterrupt(rows, job, owner, outcome, quiesced, now);
            && (r.Ok? <==>
                && !(quiesced && outcome == Unknown)
                && job in rows && rows[job].send.Some? && rows[job].send.value.owner == owner
                && (rows[job].outcome.None? || rows[job].outcome == Some(Unknown)
                    || rows[job].outcome == Some(outcome)))
            && (r.Ok? ==>
                  && job in r.value && r.value[job].outcome == Some(outcome)
                  && r.value == rows[job := rows[job].(outcome := Some(outcome), quiescedAt := r.value[job].quiescedAt)]
                  && (rows[job].quiescedAt.Some? ==> r.value[job].quiescedAt == rows[job].quiescedAt)
                  && (rows[job].quiescedAt.None? ==>
                      r.value[job].quiescedAt == if quiesced then Some(now) else None)
                  && (quiesced ==> forall hub :: !SenderOpen(r.value, hub, job))
                  && forall hub, j :: j != job ==> (SenderOpen(r.value, hub, j) <==> SenderOpen(rows, hub, j)))
  {
  }

  /** Whoever holds an answer can always record it: no other settlement contradicts it. */
  lemma SettlersSettle(s: System, i: nat, now: Wall, again: bool)
    requires Inv(s) && At(s, i, Settling) && s.observers[i].outcome != Unknown
    ensures var o, after := s.observers[i], Do(s, Settle(i, now, again));
            && o.job in after.rows && after.rows[o.job].outcome == Some(o.outcome)
            && after.rows[o.job].quiescedAt.Some?
            && (s.rows[o.job].quiescedAt.None? ==> after.rows[o.job].quiescedAt == Some(now))
            && (forall hub :: !SenderOpen(after.rows, hub, o.job))
            && (after.observers[i].pc == if again then Settling else Leaving)
  {
    var o := s.observers[i];
    assert HolderOk(s, o);
    SettlementQuiesces(s.rows, o.job, o.owner, o.outcome, true, now);
  }
}
