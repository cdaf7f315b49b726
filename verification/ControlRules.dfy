/**
 * The rules of binding, late reads and acceptance over the tables alone: when
 * each transaction acts, and the whole row it leaves.
 */
module ControlRules {
  import opened Wrappers
  import opened Identifiers
  import opened ControlRows
  import opened TurnControls

  // ----- stop binding -----

  /** The pending stop covering the job that a scan in order meets first. */
  ghost predicate FirstCover(hub: Hub, j: JobId, k: int) {
    && 0 <= k < |hub.stops| && Covers(hub, k, j) && forall i :: 0 <= i < k ==> !Covers(hub, i, j)
  }

  predicate Covers(hub: Hub, k: int, j: JobId)
    requires 0 <= k < |hub.stops|
  {
    hub.stops[k].pending && j in hub.jobs && (hub.stops[k].id, j) in hub.covers
  }

  lemma {:induction false} FirstCoveringIsFirst(hub: Hub, n: nat, j: JobId)
    requires n <= |hub.stops|
    ensures FirstCovering(hub, n, j).None? <==> forall i :: 0 <= i < n ==> !Covers(hub, i, j)
    ensures forall k :: FirstCover(hub, j, k) && k < n ==> FirstCovering(hub, n, j) == Some(hub.stops[k])
  {
    if n > 0 {
      FirstCoveringIsFirst(hub, n - 1, j);
      assert Covers(hub, n - 1, j) <==> StopCovers(hub, hub.stops[n - 1], j);
    }
  }

  function LaterOf(a: Option<Wall>, b: Wall): Wall {
    if a.Some? && a.value > b then a.value else b
  }

  /**
   * Binding gives every unbound row its first covering stop and lets it be read no earlier than that
   * stop was asked for; rows already bound, or covered by none, stay as they are.
   */
  lemma BoundExactly(rows: Controls, hub: Hub, j: JobId)
    requires j in rows
    ensures j in Bind(rows, hub)
    ensures var after := Bind(rows, hub)[j];
            && (rows[j].stop.Some? || (forall k :: 0 <= k < |hub.stops| ==> !Covers(hub, k, j)) ==> after == rows[j])
            && (forall k :: FirstCover(hub, j, k) && rows[j].stop.None? ==>
                  after == rows[j].(stop := Some(hub.stops[k].id),
                                    nextRead := Some(LaterOf(rows[j].nextRead, hub.stops[k].createdAt))))
    ensures Bind(rows, hub).Keys == rows.Keys
  {
    FirstCoveringIsFirst(hub, |hub.stops|, j);
  }

  // ----- late reads -----

  /** An abandoned turn of this agent, stopped by its owner and not known to be over, may be read now. */
  predicate Readable(rows: Controls, hub: Hub, agent: string, now: Wall, j: JobId) {
    && j in rows && rows[j].target.agent == agent
    && j in hub.jobs && hub.jobs[j] == hub.jobs[j].(status := Indeterminate, leaseToken := None)
    && j in hub.checkpoints && !hub.checkpoints[j].completed && j !in hub.terminals && j !in hub.resolutions
    && (exists k :: 0 <= k < |hub.stops| && hub.stops[k].pending && rows[j].stop == Some(hub.stops[k].id))
    && rows[j].attempts <= 2
    && rows[j].nextRead.Some? && rows[j].nextRead.value <= now
    && (rows[j].claim.Some? ==> rows[j].claim.value.expires <= now)
  }

  lemma DueIffReadable(rows: Controls, hub: Hub, agent: string, now: Wall, j: JobId)
    ensures LateDue(rows, hub, agent, now, j) <==> Readable(rows, hub, agent, now, j)
  {
    assert forall s :: s in hub.stops <==> exists k :: 0 <= k < |hub.stops| && hub.stops[k] == s;
  }

  /** The turn of the agent that has waited longest for its read, the smaller job first. */
  ghost predicate LongestWaiting(rows: Controls, hub: Hub, agent: string, now: Wall, j: JobId) {
    && Readable(rows, hub, agent, now, j)
    && forall k :: Readable(rows, hub, agent, now, k) ==>
        rows[j].nextRead.value < rows[k].nextRead.value
        || (rows[j].nextRead.value == rows[k].nextRead.value && j <= k)
  }

  /**
   * The owner-stop claim takes the longest-waiting readable turn and gives the worker thirty seconds;
   * without one it claims nothing, and may leave the rest unbound only where binding would change no
   * row of the agent.
   */
  lemma ClaimTakesTheLongestWaiting(before: Controls, hub: Hub, worker: string, agent: string, token: Token, now: Wall,
                                    claimed: Option<JobId>, after: Controls)
    requires LateReadClaimed(before, hub, worker, agent, token, now, claimed, after)
    ensures var bound := Bind(before, hub);
            && (claimed.Some? ==>
                  var j := claimed.value;
                  && LongestWaiting(bound, hub, agent, now, j)
                  && after == bound[j := bound[j].(attempts := bound[j].attempts + 1,
                                                   nextRead := Some(now + 30_000_000),
                                                   claim := Some(Claim(token, worker, now + 30_000_000)))])
            && (claimed.None? ==>
                  && (forall j :: !Readable(bound, hub, agent, now, j))
                  && forall j :: j in before && before[j].target.agent == agent ==> j in after && after[j] == bound[j])
  {
    hide LateDue, Bind, Readable;
    var bound := Bind(before, hub);
    forall j
      ensures LateDue(bound, hub, agent, now, j) <==> Readable(bound, hub, agent, now, j)
    {
      DueIffReadable(bound, hub, agent, now, j);
    }
    ReadableIn(bound, hub, agent, now);
    forall j | j in before
      ensures j in bound
    {
      BoundExactly(before, hub, j);
    }
  }

  lemma ReadableIn(rows: Controls, hub: Hub, agent: string, now: Wall)
    ensures forall j :: Readable(rows, hub, agent, now, j) ==> j in rows && rows[j].nextRead.Some?
  {
  }

  /** A read is granted while any of three cycles is left, its time has come and no claim is live. */
  lemma AllocatedIff(c: Control, worker: string, token: Token, now: Wall)
    ensures var r := Allocate(c, worker, token, now);
            && (r.Some? <==>
                && c.attempts <= 2 && (c.nextRead.Some? ==> c.nextRead.value <= now)
                && (c.claim.Some? ==> c.claim.value.expires <= now))
            && (r.Some? ==>
                  r.value == c.(attempts := c.attempts + 1, nextRead := Some(now + 30_000_000),
                                claim := Some(Claim(token, worker, now + 30_000_000))))
  {
  }

  /** Ending a read gives up exactly its own claim. */
  lemma ReleasedIff(c: Control, token: Token)
    ensures Release(c, token) == if exists w, e :: c.claim == Some(Claim(token, w, e)) then c.(claim := None) else c
  {
    if c.claim.Some? {
      assert c.claim == Some(Claim(c.claim.value.token, c.claim.value.worker, c.claim.value.expires));
    }
  }

  // ----- acceptance -----

  /** Session, topic and checkpoint agree with the job on whose turn begins, and where. */
  predicate MayBegin(hub: Hub, id: JobId)
    requires id in hub.jobs && id in hub.checkpoints
  {
    var job, saved := hub.jobs[id], hub.checkpoints[id];
    && job.session in hub.sessions
    && hub.sessions[job.session] == Session(job.topic, job.agent, job.generation, true, true, Some(saved.nativeThread),
                                            job.profile)
    && saved.profile == job.profile
    && job.topic in hub.topics
    && var topic := hub.topics[job.topic];
       topic.scope in {None, Some("root:" + saved.root), Some("project:" + topic.project)}
  }

  /** No other row or checkpoint names this native turn. */
  predicate TurnIsNew(rows: Controls, hub: Hub, id: JobId, nativeThread: string, nativeTurn: string) {
    && (forall j :: j in rows ==>
          !(rows[j].target.nativeThread == nativeThread && rows[j].target.nativeTurn == nativeTurn))
    && (forall j :: j in hub.checkpoints && j != id ==>
          !(hub.checkpoints[j].nativeThread == nativeThread && hub.checkpoints[j].nativeTurn == Some(nativeTurn)))
  }

  /** The row of a turn that just began: its frozen target, and nothing bound, read or sent. */
  function NewRow(hub: Hub, id: JobId, nativeTurn: string, now: Wall): Control
    requires id in hub.jobs && id in hub.checkpoints && MayBegin(hub, id)
  {
    var job, saved := hub.jobs[id], hub.checkpoints[id];
    var topic := hub.topics[job.topic];
    Control(
      true,
      Target(job.session, job.generation, job.topic, job.agent, topic.project, topic.chat, job.chat, topic.thread,
             if topic.scope.None? then "project:" + topic.project else topic.scope.value,
             saved.nativeThread, nativeTurn, saved.root, saved.profile),
      Some(now), None, 0, None, None, None, None, None)
  }

  lemma MayBeginIff(hub: Hub, id: JobId)
    requires id in hub.jobs && id in hub.checkpoints
    ensures AcceptanceCoherent(hub, id) <==> MayBegin(hub, id)
  {
  }

  /**
   * A turn gets its row exactly if it is the job's first, everything agrees and nobody else has it; the
   * row freezes whose turn it is, unfenced and unread. A repeated acceptance never adds one, and one that
   * contradicts its row is an error.
   */
  lemma AcceptedIff(rows: Controls, hub: Hub, id: JobId, nativeTurn: string, now: Wall)
    requires id in hub.jobs && id in hub.checkpoints
    ensures var r, job, saved := AcceptTurn(rows, hub, id, nativeTurn, now), hub.jobs[id], hub.checkpoints[id];
            && (r.Err? <==>
                saved.nativeTurn.Some? && id in rows
                && (rows[id].target.nativeTurn, rows[id].target.nativeThread, rows[id].target.root)
                   != (nativeTurn, saved.nativeThread, saved.root))
            && (r.Ok? ==>
                  var begins := saved.nativeTurn.None? && id !in rows && MayBegin(hub, id)
                                && TurnIsNew(rows, hub, id, saved.nativeThread, nativeTurn);
                  && (r.value.authorized <==> saved.nativeTurn.Some? || begins)
                  && r.value.rows == if begins then Bind(rows[id := NewRow(hub, id, nativeTurn, now)], hub) else rows)
  {
    hide Bind;
    MayBeginIff(hub, id);
  }
}
