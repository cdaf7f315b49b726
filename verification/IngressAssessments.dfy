/**
 * Exact-target assessments: the retained episode, its generation and its
 * recovery cutoff, rewritten by every assessment of one accepted turn.
 */
module IngressAssessments {
  import opened Wrappers
  import opened Identifiers
  import opened ControlRows
  import opened IngressPolicy
  import opened IngressLedger

  /** Which poll must succeed for the episode to end, and the failure that opened it. */
  datatype Cause = Cause(episode: Episode, cutoff: Option<Cursor>, sourceFailure: Option<Cursor>)

  datatype Row = Row(
    revision: nat, assessedAt: Wall, lastRead: Option<Cursor>, lastConfirmed: Option<Wall>,
    recent: bool, generation: nat, cause: Option<Cause>)

  datatype Inputs = Inputs(identity: Identity, acceptedAt: Wall, entry: Option<Entry>)

  datatype Outcome = Outcome(result: Assessment, row: Row)

  /** An episode ends only at a poll success above its cutoff and not before its recovery clock. */
  predicate Recovers(cause: Cause, w: Watermark) {
    && w.success.Some?
    && (cause.cutoff.None? || Before(cause.cutoff.value, w.success.value.cursor))
    && cause.episode.recoveryAfter <= w.success.value.at
  }

  function Surviving(prior: Option<Row>, w: Watermark): Option<Cause> {
    if prior.Some? && prior.value.cause.Some? && !Recovers(prior.value.cause.value, w)
    then prior.value.cause else None
  }

  function FailureCause(identity: Identity, failure: Sighting): Cause {
    Cause(Episode(identity, PollFailures, failure.at, failure.at + 30 * SECOND, failure.at),
          Some(failure.cursor), Some(failure.cursor))
  }

  /** The earlier deadline of the surviving episode and the witnessed failure; a tie keeps the survivor. */
  function Selected(identity: Identity, surviving: Option<Cause>, w: Watermark): Option<Cause> {
    if w.failure.None? then surviving
    else
      var candidate := FailureCause(identity, w.failure.value);
      if surviving.None? || candidate.episode.deadline < surviving.value.episode.deadline then Some(candidate)
      else surviving
  }

  function EpisodeIn(cause: Option<Cause>): Option<Episode> {
    if cause.None? then None else Some(cause.value.episode)
  }

  /** Timestamps alone cannot retire a cause selected from causal evidence. */
  function Restored(selected: Option<Cause>, r: Assessment): Assessment {
    if selected.Some? && r.episode.None? then Assessment(false, EpisodeIn(selected), r.lastConfirmedPollAt) else r
  }

  /**
   * The policy returns the prior episode itself or one with a strictly earlier
   * deadline, so comparing values decides what Python decides by identity.
   */
  function Adopted(selected: Option<Cause>, r: Assessment, cursor: Option<Cursor>): Option<Cause> {
    if r.episode.None? then None
    else if r.episode == EpisodeIn(selected) then selected
    else Some(Cause(r.episode.value, cursor, None))
  }

  predicate PriorReadable(prior: Option<Row>, now: Wall) {
    prior.Some? ==>
      && prior.value.assessedAt <= now
      && NotFuture(prior.value.lastConfirmed, now)
      && (prior.value.cause.Some? ==> ValidEpisode(prior.value.cause.value.episode)
                                      && prior.value.cause.value.episode.recoveryAfter <= now + SKEW)
  }

  function Assess(prior: Option<Row>, input: Inputs, now: Wall): Result<Outcome> {
    var entry := input.entry;
    var cursor := if entry.None? then None else Some(Here(entry.value.ledger));
    var confirmation := if entry.None? then None else entry.value.ledger.lastConfirmedAt;
    var w := if entry.None? then NO_WATERMARK else entry.value.mark;
    if input.acceptedAt > now + SKEW then Err("retained ingress clock is in the future")
    else if prior.Some? && now < prior.value.assessedAt then Err("ingress assessment clock moved backwards")
    else if prior.Some? && prior.value.lastRead.Some?
            && (cursor.None? || Before(cursor.value, prior.value.lastRead.value))
    then Err("retained ingress ledger disappeared or regressed")
    else if entry.Some? && !Trusted(input.identity, entry.value.ledger, w, now)
    then Err("incoherent retained group poll evidence")
    else if prior.Some? && prior.value.lastConfirmed.Some?
            && (confirmation.None? || confirmation.value < prior.value.lastConfirmed.value)
    then Err("retained ingress confirmation regressed")
    else if !PriorReadable(prior, now) then Err("incoherent retained ingress episode")
    else
      var surviving := Surviving(prior, w);
      var selected := Selected(input.identity, surviving, w);
      var evidence := if entry.None? then None else Some(EvidenceOf(input.identity, entry.value.ledger));
      var judged :- AssessIngress(evidence, input.identity, input.acceptedAt, now, EpisodeIn(selected), confirmation);
      var result := Restored(selected, judged);
      var cause := Adopted(selected, result, cursor);
      var generation := (if prior.None? then 0 else prior.value.generation)
                        + (if cause.Some? && surviving.None? then 1 else 0);
      Ok(Outcome(result, Row(if prior.None? then 1 else prior.value.revision + 1, now, cursor,
                             result.lastConfirmedPollAt, result.recentPollConfirmed, generation, cause)))
  }

  // ----- the schema's own fence -----

  /** CHECK constraints of the assessment table. */
  predicate AssessmentChecks(r: Row, identity: Identity) {
    && r.revision >= 1
    && (r.recent ==> r.lastConfirmed.Some? && r.cause.None?)
    && (r.cause.Some? ==>
          && r.generation > 0
          && ValidEpisode(r.cause.value.episode) && r.cause.value.episode.identity == identity
          && (r.cause.value.sourceFailure.Some? ==>
                r.cause.value.episode.reason == PollFailures && r.cause.value.cutoff == r.cause.value.sourceFailure)
          && (r.cause.value.cutoff.Some? ==> r.lastRead.Some? && AtMost(r.cause.value.cutoff.value, r.lastRead.value)))
  }

  /** The BEFORE UPDATE trigger of the assessment table. */
  predicate AssessmentUpdateAllowed(before: Row, after: Row) {
    && after.revision == before.revision + 1
    && before.assessedAt <= after.assessedAt
    && before.generation <= after.generation <= before.generation + 1
    && (before.lastRead.Some? ==> after.lastRead.Some? && AtMost(before.lastRead.value, after.lastRead.value))
    && (before.lastConfirmed.Some? ==>
        after.lastConfirmed.Some? && before.lastConfirmed.value <= after.lastConfirmed.value)
    && (before.cause.None? && after.cause.Some? ==> after.generation == before.generation + 1)
    && (after.cause.None? ==> after.generation == before.generation)
    && (before.cause.Some? && after.cause.Some? && after.generation == before.generation ==>
          && after.cause.value.episode.deadline <= before.cause.value.episode.deadline
          && (after.cause.value.episode.deadline == before.cause.value.episode.deadline ==>
              after.cause == before.cause))
  }

  predicate CoherentAssessment(prior: Option<Row>, identity: Identity) {
    prior.Some? ==> AssessmentChecks(prior.value, identity)
  }

  /** What the selection step hands to the policy always meets the policy's own checks. */
  lemma SelectionIsSound(prior: Option<Row>, input: Inputs, now: Wall)
    requires CoherentAssessment(prior, input.identity) && PriorReadable(prior, now)
    requires input.entry.Some? ==> Trusted(input.identity, input.entry.value.ledger, input.entry.value.mark, now)
    ensures var w := if input.entry.None? then NO_WATERMARK else input.entry.value.mark;
            var surviving := Surviving(prior, w); var selected := Selected(input.identity, surviving, w);
            && (selected.Some? ==>
                  && ValidEpisode(selected.value.episode) && selected.value.episode.identity == input.identity
                  && selected.value.episode.recoveryAfter <= now + SKEW
                  && (selected.value.sourceFailure.Some? ==>
                        selected.value.episode.reason == PollFailures
                            && selected.value.cutoff == selected.value.sourceFailure)
                  && (selected == surviving || (selected.value.cutoff.Some? && input.entry.Some?
                                                && AtMost(selected.value.cutoff.value,
                                                          Here(input.entry.value.ledger)))))
            && (surviving.Some? ==>
                  && selected.Some?
                  && (selected == surviving
                      || selected.value.episode.deadline < surviving.value.episode.deadline))
  {
  }

  /** Every assessment writes a row that the table and its trigger accept. */
  lemma AssessmentPassesTheFence(prior: Option<Row>, input: Inputs, now: Wall)
    requires CoherentAssessment(prior, input.identity)
    requires Assess(prior, input, now).Ok?
    ensures var row := Assess(prior, input, now).value.row;
            AssessmentChecks(row, input.identity) && (prior.Some? ==> AssessmentUpdateAllowed(prior.value, row))
    ensures var o := Assess(prior, input, now).value;
            EpisodeIn(o.row.cause) == o.result.episode && o.row.recent == o.result.recentPollConfirmed
  {
    SelectionIsSound(prior, input, now);
  }

  /** A retained episode is dropped exactly when a qualifying poll success is on record. */
  lemma EpisodeDroppedIffRecovered(prior: Option<Row>, input: Inputs, now: Wall)
    requires CoherentAssessment(prior, input.identity) && prior.Some? && prior.value.cause.Some?
    requires Assess(prior, input, now).Ok?
    ensures var w := if input.entry.None? then NO_WATERMARK else input.entry.value.mark;
            var row := Assess(prior, input, now).value.row;
            (row.cause.None? || row.generation != prior.value.generation) <==> Recovers(prior.value.cause.value, w)
  {
    SelectionIsSound(prior, input, now);
  }

  // ----- sequences of assessments of one job -----

  datatype Moment = Moment(input: Inputs, now: Wall)

  /** A failed assessment rolls its transaction back and leaves the row alone. */
  function RowAfter(history: seq<Moment>): Option<Row> {
    if history == [] then None
    else
      var prior := RowAfter(history[..|history| - 1]);
      var last := history[|history| - 1];
      var r := Assess(prior, last.input, last.now);
      if r.Ok? then Some(r.value.row) else prior
  }

  predicate OneIdentity(history: seq<Moment>, identity: Identity) {
    forall m :: m in history ==> m.input.identity == identity
  }

  /** Generation never falls, and within one generation the deadline never moves later. */
  predicate NotRelaxed(before: Option<Row>, after: Option<Row>) {
    before.Some? ==>
      && after.Some? && before.value.generation <= after.value.generation
      && (before.value.cause.Some? && after.value.cause.Some? && before.value.generation == after.value.generation ==>
            after.value.cause.value.episode.deadline <= before.value.cause.value.episode.deadline)
      && (before.value.cause.None? && after.value.cause.Some? ==> before.value.generation < after.value.generation)
  }

  lemma {:induction false} RowsStayCoherent(history: seq<Moment>, identity: Identity)
    requires OneIdentity(history, identity)
    ensures CoherentAssessment(RowAfter(history), identity)
  {
    if history != [] {
      var last := history[|history| - 1];
      RowsStayCoherent(history[..|history| - 1], identity);
      var prior := RowAfter(history[..|history| - 1]);
      if Assess(prior, last.input, last.now).Ok? {
        assert last in history;
        AssessmentPassesTheFence(prior, last.input, last.now);
      }
    }
  }

  lemma {:induction false} DeadlineNeverRelaxes(history: seq<Moment>, identity: Identity, n: nat)
    requires OneIdentity(history, identity) && n <= |history|
    ensures NotRelaxed(RowAfter(history[..n]), RowAfter(history))
    decreases |history| - n
  {
    if n == |history| {
      assert history[..n] == history;
    } else {
      DeadlineNeverRelaxes(history, identity, n + 1);
      var longer := history[..n + 1];
      assert longer[..|longer| - 1] == history[..n];
      var prior := RowAfter(history[..n]);
      RowsStayCoherent(history[..n], identity);
      assert longer[n] == history[n] && history[n] in history;
      if Assess(prior, history[n].input, history[n].now).Ok? {
        AssessmentPassesTheFence(prior, history[n].input, history[n].now);
      }
      StepNotRelaxed(RowAfter(history[..n]), RowAfter(longer), RowAfter(history));
    }
  }

  lemma StepNotRelaxed(a: Option<Row>, b: Option<Row>, c: Option<Row>)
    requires a == b || (a.Some? ==> b.Some? && AssessmentUpdateAllowed(a.value, b.value))
    requires NotRelaxed(b, c)
    ensures NotRelaxed(a, c)
  {
  }

  // ----- polls and assessments interleaved -----

  datatype Event = Poll(input: IngressLedger.Input) | Judge(at: Wall)

  datatype Store = Store(entry: Option<Entry>, row: Option<Row>)

  function TimeOf(e: Event): Wall {
    match e case Poll(input) => input.now case Judge(at) => at
  }

  function Next(identity: Identity, acceptedAt: Wall, s: Store, e: Event): Store {
    match e
    case Poll(input) => s.(entry := Apply(identity, s.entry, input))
    case Judge(at) =>
      var r := Assess(s.row, Inputs(identity, acceptedAt, s.entry), at);
      if r.Ok? then s.(row := Some(r.value.row)) else s
  }

  function StoreAfter(identity: Identity, acceptedAt: Wall, events: seq<Event>): Store {
    if events == [] then Store(None, None)
    else Next(identity, acceptedAt, StoreAfter(identity, acceptedAt, events[..|events| - 1]), events[|events| - 1])
  }

  /** The row never runs ahead of the ledger or of the clock. */
  predicate Follows(identity: Identity, s: Store, now: Wall) {
    && CoherentAssessment(s.row, identity)
    && (s.entry.Some? ==> Sealed(identity, s.entry.value, now))
    && PriorReadable(s.row, now)
    && (s.row.Some? && s.row.value.lastRead.Some? ==>
          s.entry.Some? && AtMost(s.row.value.lastRead.value, Here(s.entry.value.ledger)))
    && (s.row.Some? && s.row.value.lastConfirmed.Some? ==>
          s.entry.Some? && s.entry.value.ledger.lastConfirmedAt.Some?
          && s.row.value.lastConfirmed.value <= s.entry.value.ledger.lastConfirmedAt.value)
  }

  lemma JudgeReadable(identity: Identity, acceptedAt: Wall, s: Store, now: Wall)
    requires Follows(identity, s, now) && acceptedAt <= now + SKEW
    ensures Assess(s.row, Inputs(identity, acceptedAt, s.entry), now).Ok?
  {
    SelectionIsSound(s.row, Inputs(identity, acceptedAt, s.entry), now);
  }

  /** What a written row says of the clock and of the ledger it was judged against. */
  lemma AssessedRow(prior: Option<Row>, input: Inputs, now: Wall)
    requires CoherentAssessment(prior, input.identity) && Assess(prior, input, now).Ok?
    requires input.entry.Some? ==> Sealed(input.identity, input.entry.value, now)
    ensures var row, entry := Assess(prior, input, now).value.row, input.entry;
            && row.assessedAt == now
            && row.lastRead == (if entry.None? then None else Some(Here(entry.value.ledger)))
            && NotFuture(row.lastConfirmed, now)
            && (row.cause.Some? ==> row.cause.value.episode.recoveryAfter <= now + SKEW)
            && (row.lastConfirmed.Some? ==> entry.Some? && entry.value.ledger.lastConfirmedAt.Some?
                                            && row.lastConfirmed.value <= entry.value.ledger.lastConfirmedAt.value)
  {
    hide AssessmentChecks, Recovers;
    SelectionIsSound(prior, input, now);
  }

  lemma JudgeAccepted(identity: Identity, acceptedAt: Wall, s: Store, now: Wall)
    requires Follows(identity, s, now) && acceptedAt <= now + SKEW
    ensures var r := Assess(s.row, Inputs(identity, acceptedAt, s.entry), now);
            r.Ok? && Follows(identity, s.(row := Some(r.value.row)), now)
  {
    hide Assess, Sealed, AssessmentUpdateAllowed;
    var input := Inputs(identity, acceptedAt, s.entry);
    JudgeReadable(identity, acceptedAt, s, now);
    AssessmentPassesTheFence(s.row, input, now);
    AssessedRow(s.row, input, now);
  }

  lemma PollFollows(identity: Identity, s: Store, input: IngressLedger.Input)
    requires Follows(identity, s, input.now)
    ensures Follows(identity, s.(entry := Apply(identity, s.entry, input)), input.now)
  {
    match input
    case Startup(token, previousEpoch, at) =>
      if Register(s.entry, token, previousEpoch, at).Ok? {
        RegisterKeepsSealed(identity, s.entry, token, previousEpoch, at);
      }
    case Sample(token, epoch, sequence, succeeded, at) =>
      if s.entry.Some? {
        SampleKeepsSealed(identity, s.entry, token, epoch, sequence, succeeded, at, at);
      }
  }

  lemma FollowsLater(identity: Identity, s: Store, now: Wall, later: Wall)
    requires Follows(identity, s, now) && now <= later
    ensures Follows(identity, s, later)
  {
    if s.entry.Some? {
      SealedLater(identity, s.entry.value, now, later);
    }
  }

  predicate Ordered(events: seq<Event>) {
    forall k, l :: 0 <= k < l < |events| ==> TimeOf(events[k]) <= TimeOf(events[l])
  }

  /**
   * The ledger may have been polling long before the turn was accepted, and assessments may have
   * been tried too early.
   */
  lemma {:induction false} StoreFollows(identity: Identity, acceptedAt: Wall, events: seq<Event>, now: Wall)
    requires Ordered(events) && (events != [] ==> TimeOf(events[|events| - 1]) <= now)
    ensures Follows(identity, StoreAfter(identity, acceptedAt, events), now)
  {
    if events != [] {
      var earlier, last := events[..|events| - 1], events[|events| - 1];
      StoreFollows(identity, acceptedAt, earlier, TimeOf(last));
      var before := StoreAfter(identity, acceptedAt, earlier);
      if last.Poll? {
        PollFollows(identity, before, last.input);
      } else if acceptedAt <= last.at + SKEW {
        JudgeAccepted(identity, acceptedAt, before, last.at);
      }
      FollowsLater(identity, StoreAfter(identity, acceptedAt, events), TimeOf(last), now);
    }
  }

  /**
   * With a nondecreasing clock, no interleaving of restarts, polls and earlier
   * assessments ever leaves state that the next assessment refuses: it is
   * refused only while the turn's acceptance lies in the future.
   */
  lemma AssessmentsAreNeverRefused(identity: Identity, acceptedAt: Wall, events: seq<Event>, now: Wall)
    requires Ordered(events) && (events != [] ==> TimeOf(events[|events| - 1]) <= now)
    ensures var s := StoreAfter(identity, acceptedAt, events);
            Assess(s.row, Inputs(identity, acceptedAt, s.entry), now).Ok? <==> acceptedAt <= now + SKEW
  {
    StoreFollows(identity, acceptedAt, events, now);
    if acceptedAt <= now + SKEW {
      JudgeReadable(identity, acceptedAt, StoreAfter(identity, acceptedAt, events), now);
    }
  }
}
