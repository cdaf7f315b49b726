/**
 * The durable rows that the exact-turn control protocol reads and writes.
 *
 * A control row belongs to one accepted native turn. Everything else the
 * protocol consults (jobs, sessions, checkpoints, stops) is a Hub value that
 * other parts of the system may change at any time between transactions.
 */
module ControlRows {
  import opened Wrappers
  import opened Identifiers

  datatype Source = Live | Protective | Late | PermissionDrift
  datatype Outcome = MatchedAck | MatchedRejection | NotSent | Unknown

  /** The columns that schema 48 freezes when the row is inserted. */
  datatype Target = Target(
    session: SessionId, generation: nat, topic: TopicId, agent: string, project: string,
    chat: int, inputChat: int, thread: int, scope: string,
    nativeThread: string, nativeTurn: string, root: string, profile: Option<string>)

  datatype Claim = Claim(token: Token, worker: string, expires: Wall)
  datatype Send = Send(owner: Token, startedAt: Wall, source: Source, revision: Option<nat>)

  datatype Control = Control(
    accepted: bool, target: Target, acceptedAt: Option<Wall>,
    stop: Option<StopId>, attempts: nat, nextRead: Option<Wall>, claim: Option<Claim>,
    send: Option<Send>, outcome: Option<Outcome>, quiescedAt: Option<Wall>)

  type Controls = map<JobId, Control>

  datatype Status = Queued | Leased | Executing | Indeterminate | Completed | Cancelled
  datatype Job = Job(
    session: SessionId, generation: nat, topic: TopicId, agent: string, chat: int,
    profile: Option<string>, status: Status, leaseToken: Option<Token>, leaseExpires: Option<Wall>)
  datatype Session = Session(
    topic: TopicId, agent: string, generation: nat, live: bool, telegramWriter: bool,
    nativeSession: Option<string>, profile: Option<string>)
  datatype Topic = Topic(project: string, chat: int, thread: int, scope: Option<string>)
  datatype Checkpoint = Checkpoint(
    nativeThread: string, nativeTurn: Option<string>, root: string,
    profile: Option<string>, completed: bool)
  datatype Stop = Stop(id: StopId, pending: bool, createdAt: Wall)
  datatype Terminal = Terminal(closed: bool, nativeThread: string, nativeTurn: string, root: string)

  /** Tables outside the control journal. `covers` is the emergency-stop coverage rule. */
  datatype Hub = Hub(
    jobs: map<JobId, Job>, sessions: map<SessionId, Session>, topics: map<TopicId, Topic>,
    checkpoints: map<JobId, Checkpoint>, terminals: map<JobId, Terminal>,
    resolutions: map<JobId, bool>, origins: map<SessionId, string>,
    stops: seq<Stop>, covers: set<(StopId, JobId)>)

  /** Stop requests are scanned by creation time, then by identifier. */
  predicate StopsOrdered(stops: seq<Stop>) {
    forall i, j :: 0 <= i < j < |stops| ==>
      stops[i].createdAt < stops[j].createdAt
      || (stops[i].createdAt == stops[j].createdAt && stops[i].id < stops[j].id)
  }

  predicate Matched(outcome: Option<Outcome>) {
    outcome.Some? && outcome.value != Unknown
  }

  // ----- what schema 48 itself refuses, independent of the code that writes -----

  /** The table's CHECK constraints. */
  predicate RowChecks(c: Control) {
    && (c.send.Some? ==> c.accepted)
    && (c.quiescedAt.Some? ==> c.send.Some? && Matched(c.outcome))
    && (c.outcome.Some? ==> c.send.Some?)
    && c.attempts <= 3
    && (c.accepted ==> c.acceptedAt.Some?)
  }

  /** Neither BEFORE UPDATE trigger aborts: the target is frozen and no control authority is reset. */
  predicate UpdateAllowed(before: Control, after: Control) {
    && after.accepted == before.accepted && after.target == before.target && after.acceptedAt == before.acceptedAt
    && (before.send.Some? ==>
          after.send.Some? && after.send.value.startedAt == before.send.value.startedAt
          && after.send.value.owner == before.send.value.owner
          && after.send.value.source == before.send.value.source)
    && (before.quiescedAt.Some? ==> after.quiescedAt == before.quiescedAt)
    && (before.stop.Some? ==> after.stop == before.stop)
    && (Matched(before.outcome) ==> after.outcome == before.outcome)
    && (before.outcome == Some(Unknown) ==> after.outcome.Some?)
    && (before.nextRead.Some? ==> after.nextRead.Some? && before.nextRead.value <= after.nextRead.value)
    && before.attempts <= after.attempts
  }

  /** The unique index on freshly accepted targets. */
  predicate UniqueTargets(rows: Controls) {
    forall i, j ::
      i in rows && j in rows && rows[i].accepted && rows[j].accepted && SameTurn(rows[i].target, rows[j].target) ==>
          i == j
  }

  predicate SameTurn(a: Target, b: Target) {
    a.nativeThread == b.nativeThread && a.nativeTurn == b.nativeTurn
  }

  ghost predicate Coherent(rows: Controls) {
    && UniqueTargets(rows)
    && forall j :: j in rows ==> RowChecks(rows[j])
  }

  /** Rows are never deleted and every change passes both triggers. */
  ghost predicate Retained(before: Controls, after: Controls) {
    forall j :: j in before ==> j in after && UpdateAllowed(before[j], after[j])
  }
}
