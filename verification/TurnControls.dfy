/**
 * The exact-turn control journal: acceptance, stop binding, late-read claims,
 * the permanent send fence and its settlement.
 *
 * Each transaction is given twice: as a function of the rows it read, and as
 * the method that performs it. Every function is shown to respect the schema's
 * own triggers and the unique index.
 */
module TurnControls {
  import opened Wrappers
  import opened Identifiers
  import opened ControlRows
  import opened ControlScope

  /** Fresh exact-active observation; `observed` is a monotonic reading in seconds. */
  datatype ActiveTurnProof = ActiveTurnProof(nativeThread: string, nativeTurn: string, root: string, observed: real)

  /** Arguments of one interrupt reservation, with the clocks it reads and the UUID it would mint. */
  datatype Attempt = Attempt(
    job: JobId, source: Source, proof: ActiveTurnProof, validatedRoot: string,
    invocation: Option<Token>, readClaim: Option<Token>,
    sendDeadline: Option<real>, wall: Wall, mono: real, minted: Token)

  datatype Reservation = Reservation(rows: Controls, owner: Option<Token>)
  datatype Acceptance = Acceptance(rows: Controls, authorized: bool)

  // ----- stop binding -----

  predicate StopCovers(hub: Hub, stop: Stop, job: JobId) {
    stop.pending && job in hub.jobs && (stop.id, job) in hub.covers
  }

  /** The first of the first n stops, in scan order, that covers the job. */
  function FirstCovering(hub: Hub, n: nat, job: JobId): Option<Stop>
    requires n <= |hub.stops|
  {
    if n == 0 then None
    else
      var earlier := FirstCovering(hub, n - 1, job);
      if earlier.Some? then earlier
      else if StopCovers(hub, hub.stops[n - 1], job) then Some(hub.stops[n - 1])
      else None
  }

  function BindRow(c: Control, stop: Option<Stop>): Control {
    if c.stop.Some? || stop.None? then c
    else c.(stop := Some(stop.value.id),
            nextRead := if c.nextRead.None? || c.nextRead.value < stop.value.createdAt
                        then Some(stop.value.createdAt) else c.nextRead)
  }

  function BindUpTo(rows: Controls, hub: Hub, n: nat): Controls
    requires n <= |hub.stops|
  {
    map j | j in rows :: BindRow(rows[j], FirstCovering(hub, n, j))
  }

  function Bind(rows: Controls, hub: Hub): Controls {
    BindUpTo(rows, hub, |hub.stops|)
  }

  // ----- late reads -----

  function Allocate(c: Control, worker: string, token: Token, now: Wall): Option<Control> {
    if c.attempts >= 3
       || (c.nextRead.Some? && c.nextRead.value > now)
       || (c.claim.Some? && c.claim.value.expires > now)
    then None
    else Some(c.(attempts := c.attempts + 1,
                 nextRead := Some(now + 30 * SECOND),
                 claim := Some(Claim(token, worker, now + 30 * SECOND))))
  }

  predicate LateDue(rows: Controls, hub: Hub, agent: string, now: Wall, j: JobId) {
    && j in rows && j in hub.jobs && j in hub.checkpoints
    && hub.jobs[j].status == Indeterminate && hub.jobs[j].leaseToken.None?
    && rows[j].target.agent == agent
    && !hub.checkpoints[j].completed
    && j !in hub.terminals && j !in hub.resolutions
    && (exists s :: s in hub.stops && rows[j].stop == Some(s.id) && s.pending)
    && rows[j].attempts < 3
    && rows[j].nextRead.Some? && rows[j].nextRead.value <= now
    && (rows[j].claim.None? || rows[j].claim.value.expires <= now)
  }

  predicate NoLaterThan(rows: Controls, a: JobId, b: JobId)
    requires a in rows && b in rows && rows[a].nextRead.Some? && rows[b].nextRead.Some?
  {
    rows[a].nextRead.value < rows[b].nextRead.value
    || (rows[a].nextRead.value == rows[b].nextRead.value && a <= b)
  }

  /** ORDER BY next_late_read_at, job_id LIMIT 1. */
  ghost predicate FirstDue(rows: Controls, hub: Hub, agent: string, now: Wall, j: JobId) {
    && LateDue(rows, hub, agent, now, j)
    && forall k :: LateDue(rows, hub, agent, now, k) ==> NoLaterThan(rows, j, k)
  }

  function Release(c: Control, token: Token): Control {
    if c.claim.Some? && c.claim.value.token == token then c.(claim := None) else c
  }

  // ----- the send fence -----

  predicate SelectionValid(source: Source, invocation: Option<Token>, readClaim: Option<Token>) {
    && (invocation.None? != readClaim.None?)
    && ((source == Late) == readClaim.Some?)
  }

  predicate CoherentTarget(rows: Controls, hub: Hub, id: JobId)
    requires id in rows && id in hub.jobs
  {
    var c, job := rows[id], hub.jobs[id];
    var t := c.target;
    && t.session in hub.sessions && hub.sessions[t.session].topic in hub.topics && id in hub.checkpoints
    && var session := hub.sessions[t.session];
    && var topic := hub.topics[session.topic];
    && var saved := hub.checkpoints[id];
    && job.session == t.session && job.generation == t.generation
    && job.topic == t.topic && job.agent == t.agent
    && job.chat == t.inputChat
    && session.topic == t.topic && session.agent == t.agent && session.generation == t.generation
    && session.live && session.telegramWriter
    && session.nativeSession == Some(saved.nativeThread) && saved.nativeThread == t.nativeThread
    && saved.nativeTurn == Some(t.nativeTurn) && saved.root == t.root
    && topic.project == t.project && topic.chat == t.chat && topic.thread == t.thread
    && !saved.completed
    && session.profile == saved.profile == job.profile == t.profile
    && id !in hub.terminals && id !in hub.resolutions
    && ResolvedScope(rows, hub, t.topic) == Ok("root:" + t.root)
  }

  predicate ValidTarget(rows: Controls, hub: Hub, a: Attempt) {
    && a.job in rows && a.job in hub.jobs
    && var c, job := rows[a.job], hub.jobs[a.job];
    && c.accepted && c.send.None?
    && 0.0 <= a.mono - a.proof.observed <= 5.0
    && a.proof.nativeThread == c.target.nativeThread
    && a.proof.nativeTurn == c.target.nativeTurn
    && a.proof.root == c.target.root && a.validatedRoot == c.target.root
    && (a.sendDeadline.Some? ==> a.mono < a.sendDeadline.value)
    && (if a.invocation.Some? then
          && job.status == Executing && job.leaseToken == a.invocation
          && job.leaseExpires.Some? && job.leaseExpires.value > a.wall && c.claim.None?
        else
          && a.readClaim.Some?
          && job.status == Indeterminate && job.leaseToken.None?
          && c.claim.Some? && c.claim.value.token == a.readClaim.value
          && c.claim.value.expires > a.wall)
    && CoherentTarget(rows, hub, a.job)
  }

  /** Owner-stop sources need the bound stop to be pending and still covering. */
  predicate BoundStopCovers(rows: Controls, hub: Hub, j: JobId)
    requires j in rows
  {
    exists s :: s in hub.stops && rows[j].stop == Some(s.id) && StopCovers(hub, s, j)
  }

  function Reserve(c: Control, source: Source, minted: Token, now: Wall, revision: Option<nat>): Control {
    if c.send.Some? then c else c.(send := Some(Send(minted, now, source, revision)))
  }

  function ReserveInterrupt(rows: Controls, hub: Hub, a: Attempt): Result<Reservation> {
    if !SelectionValid(a.source, a.invocation, a.readClaim) then Err("invalid interrupt authority")
    else if !ValidTarget(rows, hub, a) then Ok(Reservation(rows, None))
    else if (a.source == Live || a.source == Late) && !BoundStopCovers(rows, hub, a.job)
    then Ok(Reservation(rows, None))
    else Ok(Reservation(rows[a.job := Reserve(rows[a.job], a.source, a.minted, a.wall, None)], Some(a.minted)))
  }

  function SettleInterrupt(rows: Controls, job: JobId, owner: Token, outcome: Outcome, quiesced: bool, now: Wall):
    Result<Controls>
  {
    if quiesced && outcome == Unknown then Err("unknown interrupt cannot prove sender quiescence")
    else if job !in rows || rows[job].send.None? || rows[job].send.value.owner != owner
    then Err("interrupt owner does not match retained send-start")
    else if rows[job].outcome.Some? && rows[job].outcome.value != Unknown && rows[job].outcome.value != outcome
    then Err("matched interrupt outcome is immutable")
    else Ok(rows[job := rows[job].(outcome := Some(outcome),
                                   quiescedAt := if rows[job].quiescedAt.Some? then rows[job].quiescedAt
                                                 else if quiesced then Some(now) else None)])
  }

  // ----- acceptance -----

  predicate AcceptanceCoherent(hub: Hub, id: JobId)
    requires id in hub.jobs && id in hub.checkpoints
  {
    var job, saved := hub.jobs[id], hub.checkpoints[id];
    && job.session in hub.sessions && job.topic in hub.topics
    && var session, topic := hub.sessions[job.session], hub.topics[job.topic];
    && session.topic == job.topic && session.agent == job.agent && session.generation == job.generation
    && session.live && session.telegramWriter
    && session.nativeSession == Some(saved.nativeThread)
    && session.profile == job.profile == saved.profile
    && (topic.scope.None? || topic.scope.value == "root:" + saved.root
        || topic.scope.value == "project:" + topic.project)
  }

  predicate TurnTaken(rows: Controls, hub: Hub, id: JobId, nativeThread: string, nativeTurn: string) {
    || (exists j :: j in rows && rows[j].target.nativeThread == nativeThread
                    && rows[j].target.nativeTurn == nativeTurn)
    || (exists j :: j in hub.checkpoints && j != id && hub.checkpoints[j].nativeThread == nativeThread
                    && hub.checkpoints[j].nativeTurn == Some(nativeTurn))
  }

  function AcceptedTarget(hub: Hub, id: JobId, nativeTurn: string): Target
    requires id in hub.jobs && id in hub.checkpoints && AcceptanceCoherent(hub, id)
  {
    var job, saved := hub.jobs[id], hub.checkpoints[id];
    var topic := hub.topics[job.topic];
    Target(job.session, job.generation, job.topic, job.agent, topic.project, topic.chat, job.chat, topic.thread,
           if topic.scope.Some? then topic.scope.value else "project:" + topic.project,
           saved.nativeThread, nativeTurn, saved.root, saved.profile)
  }

  /** Within the transaction that saves the native turn of a job's checkpoint. */
  function AcceptTurn(rows: Controls, hub: Hub, id: JobId, nativeTurn: string, now: Wall): Result<Acceptance>
    requires id in hub.jobs && id in hub.checkpoints
  {
    var saved := hub.checkpoints[id];
    if saved.nativeTurn.Some? then
      if id in rows && !(rows[id].target.nativeTurn == nativeTurn
                         && rows[id].target.nativeThread == saved.nativeThread
                         && rows[id].target.root == saved.root)
      then Err("accepted control target differs from its checkpoint")
      else Ok(Acceptance(rows, true))
    else if id in rows then Ok(Acceptance(rows, false))
    else if !AcceptanceCoherent(hub, id) then Ok(Acceptance(rows, false))
    else if TurnTaken(rows, hub, id, saved.nativeThread, nativeTurn) then Ok(Acceptance(rows, false))
    else
      var row := Control(true, AcceptedTarget(hub, id, nativeTurn), Some(now), None, 0, None, None, None, None, None);
      Ok(Acceptance(Bind(rows[id := row], hub), true))
  }

  // ----- every transaction respects the schema -----

  lemma BindRowKeeps(c: Control, stop: Option<Stop>)
    requires RowChecks(c)
    ensures RowChecks(BindRow(c, stop)) && UpdateAllowed(c, BindRow(c, stop))
    ensures BindRow(c, stop) == c.(stop := BindRow(c, stop).stop, nextRead := BindRow(c, stop).nextRead)
  {
  }

  lemma BindKeeps(rows: Controls, hub: Hub)
    requires Coherent(rows)
    ensures Coherent(Bind(rows, hub)) && Retained(rows, Bind(rows, hub))
    ensures forall j :: j in rows ==>
        Bind(rows, hub)[j] == rows[j].(stop := Bind(rows, hub)[j].stop, nextRead := Bind(rows, hub)[j].nextRead)
  {
    var after := Bind(rows, hub);
    forall j | j in rows
      ensures RowChecks(after[j]) && UpdateAllowed(rows[j], after[j])
      ensures after[j] == rows[j].(stop := after[j].stop, nextRead := after[j].nextRead)
    {
      BindRowKeeps(rows[j], FirstCovering(hub, |hub.stops|, j));
    }
    SameTargetsStayUnique(rows, after);
  }

  lemma SameTargetsStayUnique(rows: Controls, after: Controls)
    requires UniqueTargets(rows) && after.Keys == rows.Keys
    requires forall j :: j in rows ==> after[j].accepted == rows[j].accepted && after[j].target == rows[j].target
    ensures UniqueTargets(after)
  {
    forall i, j | i in after && j in after && after[i].accepted && after[j].accepted
                  && SameTurn(after[i].target, after[j].target)
      ensures i == j
    {
      assert rows[i].accepted && rows[j].accepted && SameTurn(rows[i].target, rows[j].target);
    }
  }

  /** A change of one row that the triggers admit keeps the whole table coherent. */
  lemma UpdateKeeps(rows: Controls, job: JobId, after: Control)
    requires Coherent(rows) && job in rows
    requires RowChecks(after) && UpdateAllowed(rows[job], after)
    ensures Coherent(rows[job := after]) && Retained(rows, rows[job := after])
  {
    SameTargetsStayUnique(rows, rows[job := after]);
  }

  lemma AllocateKeeps(rows: Controls, job: JobId, worker: string, token: Token, now: Wall)
    requires Coherent(rows) && job in rows && Allocate(rows[job], worker, token, now).Some?
    ensures var after := rows[job := Allocate(rows[job], worker, token, now).value];
            Coherent(after) && Retained(rows, after)
  {
    UpdateKeeps(rows, job, Allocate(rows[job], worker, token, now).value);
  }

  lemma ReleaseKeeps(rows: Controls, job: JobId, token: Token)
    requires Coherent(rows) && job in rows
    ensures var after := rows[job := Release(rows[job], token)];
            Coherent(after) && Retained(rows, after)
  {
    UpdateKeeps(rows, job, Release(rows[job], token));
  }

  /** A granted reservation fences a row that had no fence, for the proof's exact turn. */
  lemma BeginKeeps(rows: Controls, hub: Hub, a: Attempt)
    requires Coherent(rows) && ReserveInterrupt(rows, hub, a).Ok?
    ensures var r := ReserveInterrupt(rows, hub, a).value;
            && Coherent(r.rows) && Retained(rows, r.rows)
            && (r.owner.None? ==> r.rows == rows)
            && (r.owner.Some? ==>
                  && a.job in rows && rows[a.job].send.None? && rows[a.job].accepted
                  && r.rows == rows[a.job := r.rows[a.job]]
                  && r.rows[a.job] == rows[a.job].(send := r.rows[a.job].send)
                  && r.rows[a.job].send.Some? && r.rows[a.job].send.value.owner == r.owner.value
                  && r.rows[a.job].target.nativeThread == a.proof.nativeThread
                  && r.rows[a.job].target.nativeTurn == a.proof.nativeTurn)
  {
    if ReserveInterrupt(rows, hub, a).value.owner.Some? {
      UpdateKeeps(rows, a.job, Reserve(rows[a.job], a.source, a.minted, a.wall, None));
    }
  }

  lemma FinishKeeps(rows: Controls, job: JobId, owner: Token, outcome: Outcome, quiesced: bool, now: Wall)
    requires Coherent(rows) && SettleInterrupt(rows, job, owner, outcome, quiesced, now).Ok?
    ensures var after := SettleInterrupt(rows, job, owner, outcome, quiesced, now).value;
            Coherent(after) && Retained(rows, after)
  {
    UpdateKeeps(rows, job, SettleInterrupt(rows, job, owner, outcome, quiesced, now).value[job]);
  }

  lemma AcceptKeeps(rows: Controls, hub: Hub, id: JobId, nativeTurn: string, now: Wall)
    requires Coherent(rows) && id in hub.jobs && id in hub.checkpoints
    requires AcceptTurn(rows, hub, id, nativeTurn, now).Ok?
    ensures var after := AcceptTurn(rows, hub, id, nativeTurn, now).value.rows;
            && Coherent(after) && Retained(rows, after)
            && (forall j :: j in after && j !in rows ==>
                              (j == id && after[j].send.None? && after[j].outcome.None? && after[j].accepted))
            && (forall j :: j in rows ==> after[j] == rows[j].(stop := after[j].stop, nextRead := after[j].nextRead))
  {
    var saved := hub.checkpoints[id];
    if saved.nativeTurn.None? && id !in rows && AcceptanceCoherent(hub, id)
       && !TurnTaken(rows, hub, id, saved.nativeThread, nativeTurn) {
      var row := Control(true, AcceptedTarget(hub, id, nativeTurn), Some(now), None, 0, None, None, None, None, None);
      var grown := rows[id := row];
      assert Coherent(grown);
      BindKeeps(grown, hub);
      assert Retained(grown, Bind(grown, hub));
      forall j | j in rows
        ensures j in Bind(grown, hub) && UpdateAllowed(rows[j], Bind(grown, hub)[j])
      {
        assert grown[j] == rows[j];
      }
    }
  }

  /** The unlocked pre-check only defers: if it finds nothing, the locked pass would grant nothing. */
  lemma PreCheckOnlyDefers(rows: Controls, hub: Hub, agent: string, now: Wall)
    requires !exists j :: LateDue(rows, hub, agent, now, j)
    requires !UnboundCovered(rows, hub, agent)
    ensures !exists j :: LateDue(Bind(rows, hub), hub, agent, now, j)
    ensures forall j :: j in rows && rows[j].target.agent == agent ==> Bind(rows, hub)[j] == rows[j]
  {
    var after := Bind(rows, hub);
    forall j | j in rows && rows[j].target.agent == agent
      ensures after[j] == rows[j]
    {
      var s := FirstCovering(hub, |hub.stops|, j);
      FirstCoveringCovers(hub, |hub.stops|, j);
    }
    forall j
      ensures !LateDue(after, hub, agent, now, j)
    {
      if LateDue(after, hub, agent, now, j) {
        assert LateDue(rows, hub, agent, now, j);
      }
    }
  }

  /** The bound stop covers the job, and no covering stop among those scanned was created earlier. */
  lemma {:induction false} FirstCoveringCovers(hub: Hub, n: nat, job: JobId)
    requires n <= |hub.stops|
    ensures var s := FirstCovering(hub, n, job);
            && (s.Some? ==> s.value in hub.stops[..n] && StopCovers(hub, s.value, job))
            && (s.None? ==> forall i :: 0 <= i < n ==> !StopCovers(hub, hub.stops[i], job))
            && (s.Some? && StopsOrdered(hub.stops) ==>
                  forall i :: 0 <= i < n && StopCovers(hub, hub.stops[i], job) ==>
                                s.value.createdAt <= hub.stops[i].createdAt)
  {
    if n > 0 {
      FirstCoveringCovers(hub, n - 1, job);
      var earlier := FirstCovering(hub, n - 1, job);
      if earlier.Some? {
        var k :| 0 <= k < n - 1 && hub.stops[k] == earlier.value;
        assert hub.stops[..n][k] == earlier.value;
      } else {
        assert hub.stops[..n][n - 1] == hub.stops[n - 1];
      }
    }
  }

  predicate UnboundCovered(rows: Controls, hub: Hub, agent: string) {
    exists s, j :: s in hub.stops && j in rows && rows[j].target.agent == agent && rows[j].stop.None?
                   && StopCovers(hub, s, j)
  }

  /**
   * What one late-read transaction does: the first due job after binding is claimed, or nothing of
   * this agent is due.
   */
  ghost predicate LateReadClaimed(before: Controls, hub: Hub, worker: string, agent: string, token: Token, now: Wall,
                                  claimed: Option<JobId>, after: Controls)
  {
    var bound := Bind(before, hub);
    if claimed.Some? then
      && FirstDue(bound, hub, agent, now, claimed.value)
      && var c := bound[claimed.value];
      && after == bound[claimed.value :=
                          c.(attempts := c.attempts + 1, nextRead := Some(now + 30 * SECOND),
                             claim := Some(Claim(token, worker, now + 30 * SECOND)))]
    else
      && (!exists j :: LateDue(bound, hub, agent, now, j))
      && (after == bound
          || (after == before && forall j :: j in before && before[j].target.agent == agent ==> bound[j] == before[j]))
  }

  // ----- the journal itself -----

  class CodexTurnControls {
    var rows: Controls

    constructor (retained: Controls)
      ensures rows == retained
    {
      rows := retained;
    }

    method BindCoveringStops(hub: Hub)
      modifies this
      ensures rows == Bind(old(rows), hub)
    {
      for n := 0 to |hub.stops|
        invariant rows == BindUpTo(old(rows), hub, n)
      {
        var stop := hub.stops[n];
        if stop.pending {
          rows := map j | j in rows ::
            if rows[j].stop.None? && StopCovers(hub, stop, j) then BindRow(rows[j], Some(stop)) else rows[j];
        }
        forall j | j in old(rows)
          ensures rows[j] == BindRow(old(rows)[j], FirstCovering(hub, n + 1, j))
        {
        }
        assert rows == BindUpTo(old(rows), hub, n + 1);
      }
    }

    method AllocateRead(job: JobId, worker: string, token: Token, now: Wall) returns (granted: Option<Control>)
      modifies this
      ensures granted == if job in old(rows) then Allocate(old(rows)[job], worker, token, now) else None
      ensures rows == if granted.Some? then old(rows)[job := granted.value] else old(rows)
    {
      granted := None;
      if job in rows {
        granted := Allocate(rows[job], worker, token, now);
        if granted.Some? {
          rows := rows[job := granted.value];
        }
      }
    }

    method PickDue(hub: Hub, agent: string, now: Wall) returns (due: Option<JobId>)
      ensures due.Some? ==> FirstDue(rows, hub, agent, now, due.value)
      ensures due.None? ==> !exists j :: LateDue(rows, hub, agent, now, j)
    {
      due := None;
      var remaining := rows.Keys;
      while remaining != {}
        invariant remaining <= rows.Keys
        invariant due.Some? ==> due.value in rows && LateDue(rows, hub, agent, now, due.value)
        invariant forall j :: j in rows.Keys - remaining && LateDue(rows, hub, agent, now, j) ==>
                                due.Some? && NoLaterThan(rows, due.value, j)
        decreases remaining
      {
        var j :| j in remaining;
        if LateDue(rows, hub, agent, now, j) && (due.None? || !NoLaterThan(rows, due.value, j)) {
          due := Some(j);
        }
        remaining := remaining - {j};
      }
    }

    /** One of three read cycles, for the most overdue stopped target of the agent. */
    method ClaimLateRead(hub: Hub, worker: string, agent: string, token: Token, now: Wall)
      returns (claimed: Option<JobId>)
      modifies this
      ensures LateReadClaimed(old(rows), hub, worker, agent, token, now, claimed, rows)
    {
      var seen := PickDue(hub, agent, now);
      if seen.None? && !UnboundCovered(rows, hub, agent) {
        PreCheckOnlyDefers(rows, hub, agent, now);
        return None;
      }
      BindCoveringStops(hub);
      claimed := PickDue(hub, agent, now);
      if claimed.Some? {
        var granted := AllocateRead(claimed.value, worker, token, now);
      }
    }

    method FinishLateRead(job: JobId, token: Token)
      modifies this
      ensures rows == if job in old(rows) then old(rows)[job := Release(old(rows)[job], token)] else old(rows)
    {
      if job in rows && rows[job].claim.Some? && rows[job].claim.value.token == token {
        rows := rows[job := rows[job].(claim := None)];
      } else if job in rows {
        assert rows == rows[job := rows[job]];
      }
    }

    method BeginInterrupt(hub: Hub, a: Attempt) returns (r: Result<Option<Token>>)
      modifies this
      ensures var spec := ReserveInterrupt(old(rows), hub, a);
              && r.Ok? == spec.Ok?
              && (r.Ok? ==> rows == spec.value.rows && r.value == spec.value.owner)
              && (r.Err? ==> rows == old(rows))
    {
      if !SelectionValid(a.source, a.invocation, a.readClaim) {
        return Err("invalid interrupt authority");
      }
      if !ValidTarget(rows, hub, a) || ((a.source == Live || a.source == Late) && !BoundStopCovers(rows, hub, a.job)) {
        return Ok(None);
      }
      rows := rows[a.job := rows[a.job].(send := Some(Send(a.minted, a.wall, a.source, None)))];
      r := Ok(Some(a.minted));
    }

    method FinishInterrupt(job: JobId, owner: Token, outcome: Outcome, quiesced: bool, now: Wall)
      returns (r: Result<()>)
      modifies this
      ensures var spec := SettleInterrupt(old(rows), job, owner, outcome, quiesced, now);
              && r.Ok? == spec.Ok?
              && rows == if spec.Ok? then spec.value else old(rows)
    {
      if quiesced && outcome == Unknown {
        return Err("unknown interrupt cannot prove sender quiescence");
      }
      if job !in rows || rows[job].send.None? || rows[job].send.value.owner != owner {
        return Err("interrupt owner does not match retained send-start");
      }
      var row := rows[job];
      if row.outcome != None && row.outcome != Some(Unknown) && row.outcome != Some(outcome) {
        return Err("matched interrupt outcome is immutable");
      }
      if row.quiescedAt.None? && quiesced {
        row := row.(quiescedAt := Some(now));
      }
      rows := rows[job := row.(outcome := Some(outcome))];
      r := Ok(());
    }

    method Accept(hub: Hub, id: JobId, nativeTurn: string, now: Wall) returns (r: Result<bool>)
      requires id in hub.jobs && id in hub.checkpoints
      modifies this
      ensures var spec := AcceptTurn(old(rows), hub, id, nativeTurn, now);
              && r.Ok? == spec.Ok?
              && (r.Ok? ==> r.value == spec.value.authorized && rows == spec.value.rows)
              && (r.Err? ==> rows == old(rows))
    {
      var saved := hub.checkpoints[id];
      if saved.nativeTurn.Some? {
        if id in rows && (rows[id].target.nativeTurn != nativeTurn
                          || rows[id].target.nativeThread != saved.nativeThread
                          || rows[id].target.root != saved.root) {
          return Err("accepted control target differs from its checkpoint");
        }
        return Ok(true);
      }
      if id in rows || !AcceptanceCoherent(hub, id) || TurnTaken(rows, hub, id, saved.nativeThread, nativeTurn) {
        return Ok(false);
      }
      rows := rows[id := Control(true, AcceptedTarget(hub, id, nativeTurn), Some(now),
                                 None, 0, None, None, None, None, None)];
      BindCoveringStops(hub);
      r := Ok(true);
    }
  }
}
