/**
 * The poll ledger, the deadline policy and the retained assessment said over
 * their inputs: what each transaction takes, what its rows then tell of the
 * samples behind them, and which episode an assessment leaves.
 */
module IngressRules {
  import opened Wrappers
  import opened Identifiers
  import opened ControlRows
  import opened IngressPolicy
  import opened IngressLedger
  import A = IngressAssessments

  // ----- who may write the ledger -----

  /** A startup takes over exactly from the epoch it read, once, and begins with no sample. */
  lemma StartupIff(prior: Option<Entry>, token: Token, previousEpoch: nat, now: Wall)
    ensures var r := Register(prior, token, previousEpoch, now);
            var repeated := prior.Some? && prior.value.ledger.owner == token;
            && (repeated ==> if prior.value.ledger.epoch == previousEpoch + 1 then r == Ok(prior.value) else r.Err?)
            && (!repeated ==>
                  && (r.Ok? <==>
                      && previousEpoch == (if prior.None? then 0 else prior.value.ledger.epoch)
                      && (prior.Some? ==> prior.value.ledger.registeredAt <= now || prior.value.ledger.lastPollAt.Some?)
                      && (prior.Some? && prior.value.ledger.lastPollAt.Some? ==>
                          prior.value.ledger.lastPollAt.value <= now))
                  && (r.Ok? ==>
                        var confirmed := if prior.None? then None else prior.value.ledger.lastConfirmedAt;
                        && r.value.mark == (if prior.None? then Watermark(None, None) else prior.value.mark)
                        && r.value.ledger == Ledger(token, previousEpoch + 1, 0, now, None, false, None, confirmed, 0,
                                                    None)))
  {
  }

  /** Nobody but the current owner of the current epoch writes a sample, and each only once and forwards. */
  lemma SampleTakenIff(identity: Identity, prior: Option<Entry>, token: Token, epoch: nat, sequence: nat,
                       succeeded: bool, at: Wall)
    ensures var r := RecordPoll(identity, prior, token, epoch, sequence, succeeded, at);
            if prior.None? || prior.value.ledger.owner != token || prior.value.ledger.epoch != epoch then r == Ok(None)
            else
              var l := prior.value.ledger;
              if sequence == l.sequence then
                r == if l.lastPollAt == Some(at) && l.lastPollSucceeded == succeeded then Ok(prior)
                     else Err("conflicting group ingress sample repeat")
              else
                && (r.Ok? <==> sequence > l.sequence && Latest(l) <= at && Trusted(identity, l, prior.value.mark, at))
                && (r.Ok? ==>
                      && r.value.Some?
                      && r.value.value.ledger.(lastPollAt := None, lastPollSucceeded := false, lastSuccessAt := None,
                                               lastConfirmedAt := None, failureStreak := 0, failureThresholdAt := None)
                         == l.(sequence := sequence, lastPollAt := None, lastPollSucceeded := false,
                               lastSuccessAt := None, lastConfirmedAt := None, failureStreak := 0,
                               failureThresholdAt := None))
  {
    hide Trusted;
  }

  // ----- what the ledger tells of its samples -----

  datatype Told = Told(sequence: nat, succeeded: bool, at: Wall)

  /** How many failures end the samples, one right after the other. */
  function Trailing(samples: seq<Told>): nat {
    if samples == [] || samples[|samples| - 1].succeeded then 0
    else if |samples| > 1 && samples[|samples| - 2].sequence + 1 == samples[|samples| - 1].sequence
    then Trailing(samples[..|samples| - 1]) + 1
    else 1
  }

  function LastSuccess(samples: seq<Told>): Option<Wall> {
    if samples == [] then None
    else if samples[|samples| - 1].succeeded then Some(samples[|samples| - 1].at)
    else LastSuccess(samples[..|samples| - 1])
  }

  /** When the third of the failures that end the samples was seen. */
  function ThirdFailure(samples: seq<Told>): Option<Wall> {
    if samples == [] || Trailing(samples) < 3 then None
    else if Trailing(samples) == 3 then Some(samples[|samples| - 1].at)
    else ThirdFailure(samples[..|samples| - 1])
  }

  /** The ledger of one epoch, in terms of its samples. */
  predicate Tells(l: Ledger, samples: seq<Told>) {
    && (samples == [] ==> l.sequence == 0 && l.lastPollAt.None?)
    && (samples != [] ==>
          var last := samples[|samples| - 1];
          l.sequence == last.sequence && l.lastPollAt == Some(last.at) && l.lastPollSucceeded == last.succeeded)
    && l.lastSuccessAt == LastSuccess(samples)
    && l.failureStreak == (if Trailing(samples) <= 1_000_000 then Trailing(samples) else 1_000_000)
    && l.failureThresholdAt == ThirdFailure(samples)
  }

  lemma TrailingGrows(samples: seq<Told>, told: Told)
    ensures Trailing(samples + [told])
         == if told.succeeded then 0
            else if samples != [] && samples[|samples| - 1].sequence + 1 == told.sequence then Trailing(samples) + 1
            else 1
    ensures LastSuccess(samples + [told]) == if told.succeeded then Some(told.at) else LastSuccess(samples)
    ensures ThirdFailure(samples + [told])
         == if Trailing(samples + [told]) < 3 then None
            else if Trailing(samples + [told]) == 3 then Some(told.at) else ThirdFailure(samples)
  {
    assert (samples + [told])[..|samples|] == samples;
  }

  lemma {:induction false} ThirdIffThree(samples: seq<Told>)
    ensures ThirdFailure(samples).Some? <==> Trailing(samples) >= 3
  {
    if samples != [] {
      ThirdIffThree(samples[..|samples| - 1]);
    }
  }

  lemma SampleIsTold(l: Ledger, samples: seq<Told>, told: Told)
    requires Tells(l, samples) && told.sequence > l.sequence
    ensures Tells(Sampled(l, told.sequence, told.succeeded, told.at), samples + [told])
    ensures Sampled(l, told.sequence, told.succeeded, told.at).lastConfirmedAt
         == if told.succeeded then Some(told.at) else l.lastConfirmedAt
  {
    hide Trailing, LastSuccess, ThirdFailure;
    TrailingGrows(samples, told);
    ThirdIffThree(samples);
    NothingTrails();
  }

  lemma NothingTrails()
    ensures Trailing([]) == 0 && LastSuccess([]) == None && ThirdFailure([]) == None
  {
  }

  /** The samples of the current epoch that were taken, in order. */
  function SamplesOf(identity: Identity, inputs: seq<Input>): seq<Told> {
    if inputs == [] then []
    else
      var earlier, last := inputs[..|inputs| - 1], inputs[|inputs| - 1];
      var before, after := ApplyAll(identity, earlier), ApplyAll(identity, inputs);
      if before == after then SamplesOf(identity, earlier)
      else if last.Startup? then []
      else SamplesOf(identity, earlier) + [Told(last.sequence, last.succeeded, last.now)]
  }

  /**
   * However often polling restarts and whatever is repeated, refused or sent by a former owner: the
   * ledger tells exactly the last sample, the last success, the failures since in a row, and when
   * their third was seen.
   */
  lemma {:induction false} LedgerTellsItsSamples(identity: Identity, inputs: seq<Input>)
    ensures ApplyAll(identity, inputs).Some? ==>
              Tells(ApplyAll(identity, inputs).value.ledger, SamplesOf(identity, inputs))
  {
    hide Tells, Trusted;
    if inputs != [] {
      var earlier, last := inputs[..|inputs| - 1], inputs[|inputs| - 1];
      LedgerTellsItsSamples(identity, earlier);
      var before, after := ApplyAll(identity, earlier), ApplyAll(identity, inputs);
      if before != after {
        match last
        case Startup(token, previousEpoch, now) => FreshTellsNothing(before, token, previousEpoch, now);
        case Sample(token, epoch, sequence, succeeded, now) =>
          SampleIsTold(before.value.ledger, SamplesOf(identity, earlier), Told(sequence, succeeded, now));
      }
    }
  }

  lemma FreshTellsNothing(prior: Option<Entry>, token: Token, previousEpoch: nat, now: Wall)
    requires Register(prior, token, previousEpoch, now).Ok?
    requires prior != Some(Register(prior, token, previousEpoch, now).value)
    ensures Tells(Register(prior, token, previousEpoch, now).value.ledger, [])
  {
    NothingTrails();
  }

  /**
   * A success is marked and clears the failure; otherwise the first sample that sees a threshold marks
   * it, and no later one moves the mark.
   */
  lemma MarkedExactly(identity: Identity, e: Entry, token: Token, epoch: nat, sequence: nat, succeeded: bool, at: Wall)
    requires RecordPoll(identity, Some(e), token, epoch, sequence, succeeded, at).Ok?
    requires RecordPoll(identity, Some(e), token, epoch, sequence, succeeded, at).value.Some?
    requires sequence != e.ledger.sequence
    ensures var after := RecordPoll(identity, Some(e), token, epoch, sequence, succeeded, at).value.value;
            var here := Cursor(epoch, sequence);
            after.mark
            == if succeeded then Watermark(Some(Sighting(here, at)), None)
               else if e.mark.failure.Some? then e.mark
               else if e.ledger.failureThresholdAt.Some?
               then Watermark(e.mark.success, Some(Sighting(here, e.ledger.failureThresholdAt.value)))
               else if after.ledger.failureThresholdAt.Some?
               then Watermark(e.mark.success, Some(Sighting(here, at)))
               else e.mark
  {
    hide Trusted;
  }

  // ----- what counts as evidence -----

  predicate Between(low: Wall, at: Option<Wall>, high: Wall) {
    at.Some? ==> low <= at.value <= high
  }

  /** Every clock lies after registration, before the heartbeat, and at most five seconds ahead. */
  lemma EvidenceIff(e: Evidence, now: Wall)
    ensures ValidPollEvidence(e, now) <==>
            && e.epoch >= 1 && e.failureStreak >= 0
            && e.registeredAt <= e.heartbeatAt <= now + 5_000_000
            && Between(e.registeredAt, e.lastPollAt, e.heartbeatAt)
            && Between(e.registeredAt, e.lastSuccessAt, e.heartbeatAt)
            && Between(e.registeredAt, e.failureThresholdAt, e.heartbeatAt)
            && (e.lastSuccessAt.Some? ==> e.lastPollAt.Some? && e.lastSuccessAt.value <= e.lastPollAt.value)
            && (e.failureThresholdAt.Some? <==> e.failureStreak >= 3)
            && (e.failureThresholdAt.Some? ==>
                  && e.lastPollAt.Some? && e.failureThresholdAt.value <= e.lastPollAt.value
                  && (e.lastSuccessAt.Some? ==> e.lastSuccessAt.value <= e.failureThresholdAt.value))
  {
  }

  /** What an assessment trusts: coherent evidence, and marks that its ledger explains. */
  lemma TrustedIff(identity: Identity, l: Ledger, w: Watermark, now: Wall)
    ensures Trusted(identity, l, w, now) <==>
            && ValidPollEvidence(EvidenceOf(identity, l), now)
            && (l.lastConfirmedAt.Some? ==> l.lastConfirmedAt.value <= Latest(l))
            && (w.success.Some? ==>
                  && !Before(Cursor(l.epoch, l.sequence), w.success.value.cursor)
                  && l.lastConfirmedAt.Some? && w.success.value.at <= l.lastConfirmedAt.value)
            && (w.failure.Some? ==>
                  !Before(Cursor(l.epoch, l.sequence), w.failure.value.cursor) && w.failure.value.at <= Latest(l))
            && (w.failure.Some? && w.success.Some? ==>
                  && Before(w.success.value.cursor, w.failure.value.cursor)
                  && w.success.value.at <= w.failure.value.at)
  {
  }

  // ----- the policy -----

  /** What polling itself says now: heard, failing, or neither. */
  predicate HeardNow(evidence: Option<Evidence>, identity: Identity, now: Wall) {
    && evidence.Some? && evidence.value.identity == identity && ValidPollEvidence(evidence.value, now)
    && now <= evidence.value.heartbeatAt + 60_000_000
    && evidence.value.lastPollAt.Some? && now <= evidence.value.lastPollAt.value + 60_000_000
  }

  /** The episode that polling alone would open. */
  function Opening(evidence: Option<Evidence>, identity: Identity, acceptedAt: Wall, now: Wall,
                   heard: Option<Wall>): Episode
  {
    if HeardNow(evidence, identity, now) && evidence.value.failureStreak >= 3 && evidence.value.failureThresholdAt.Some?
    then
      var third := evidence.value.failureThresholdAt.value;
      Episode(identity, PollFailures, third, third + 30_000_000, third)
    else Stale(identity, acceptedAt, now, heard)
  }

  /** Two minutes from acceptance, or from when the last confirmation was a minute old if that is later. */
  function Stale(identity: Identity, acceptedAt: Wall, now: Wall, heard: Option<Wall>): Episode {
    if heard.None? then Episode(identity, NeverConfirmed, acceptedAt, acceptedAt + 120_000_000, now)
    else
      var stale := heard.value + 60_000_000;
      var since := if stale > acceptedAt then stale else acceptedAt;
      Episode(identity, StaleOrMissing, since, since + 120_000_000, now)
  }

  /**
   * The policy in full: confirmed while polls succeed, unless an episode waits for a later success,
   * which then stays; else the episode that opens, or the earlier one if its deadline is no later.
   */
  lemma AssessedExactly(evidence: Option<Evidence>, identity: Identity, acceptedAt: Wall, now: Wall,
                        prior: Option<Episode>, lastConfirmed: Option<Wall>)
    requires PolicyInputs(identity, acceptedAt, now, prior, lastConfirmed)
    ensures var r := AssessIngress(evidence, identity, acceptedAt, now, prior, lastConfirmed);
            var heard := LastHeard(evidence, identity, now, lastConfirmed);
            var succeeding := HeardNow(evidence, identity, now) && evidence.value.failureStreak < 3
                              && evidence.value.lastSuccessAt.Some?
                              && now <= evidence.value.lastSuccessAt.value + 60_000_000;
            var opening := Opening(evidence, identity, acceptedAt, now, heard);
            && r.Ok? && r.value.lastConfirmedPollAt == heard
            && if succeeding && (prior.None? || prior.value.recoveryAfter <= evidence.value.lastSuccessAt.value) then
                 r.value.recentPollConfirmed && r.value.episode.None?
               else
                 && !r.value.recentPollConfirmed
                 && r.value.episode == if succeeding then prior
                                       else if prior.Some? && prior.value.deadline <= opening.deadline then prior
                                       else Some(opening)
  {
    hide ValidPollEvidence, KeepsThePromise, Unconfirmed, StaleCandidate, Stale, ValidEpisode;
    var heard := LastHeard(evidence, identity, now, lastConfirmed);
    StaleExactly(identity, acceptedAt, now, heard);
    EarlierStays(prior, StaleCandidate(identity, acceptedAt, now, heard), heard);
    PriorIsValid(identity, acceptedAt, now, prior, lastConfirmed);
    if evidence.Some? && evidence.value.failureThresholdAt.Some? {
      var third := evidence.value.failureThresholdAt.value;
      EarlierStays(prior, Episode(identity, PollFailures, third, third + 30_000_000, third), heard);
      LaterIsSound(identity, third);
    }
    if evidence.Some? {
      ThresholdIffThree(evidence.value, now);
    }
  }

  lemma PriorIsValid(identity: Identity, acceptedAt: Wall, now: Wall, prior: Option<Episode>, confirmed: Option<Wall>)
    requires PolicyInputs(identity, acceptedAt, now, prior, confirmed)
    ensures prior.Some? ==> ValidEpisode(prior.value) && prior.value.identity == identity
  {
  }

  lemma LaterIsSound(identity: Identity, third: Wall)
    ensures ValidEpisode(Episode(identity, PollFailures, third, third + 30_000_000, third))
  {
  }

  lemma EarlierStays(prior: Option<Episode>, candidate: Episode, heard: Option<Wall>)
    ensures ValidEpisode(candidate)
            && (prior.Some? ==> ValidEpisode(prior.value) && prior.value.identity == candidate.identity) ==>
              Unconfirmed(prior, candidate, heard)
              == Ok(Assessment(false, if prior.Some? && prior.value.deadline <= candidate.deadline then prior
                                      else Some(candidate), heard))
  {
  }

  lemma StaleExactly(identity: Identity, acceptedAt: Wall, now: Wall, heard: Option<Wall>)
    ensures StaleCandidate(identity, acceptedAt, now, heard) == Stale(identity, acceptedAt, now, heard)
    ensures ValidEpisode(Stale(identity, acceptedAt, now, heard))
    ensures Stale(identity, acceptedAt, now, heard).identity == identity
  {
  }

  lemma ThresholdIffThree(e: Evidence, now: Wall)
    ensures ValidPollEvidence(e, now) ==>
              (e.failureThresholdAt.Some? <==> e.failureStreak >= 3) && (e.lastSuccessAt.Some? ==> e.lastPollAt.Some?)
  {
  }

  /** The last confirmation known: the retained one, or the evidence's own success if it is later. */
  lemma HeardExactly(evidence: Option<Evidence>, identity: Identity, now: Wall, lastConfirmed: Option<Wall>)
    ensures var heard := LastHeard(evidence, identity, now, lastConfirmed);
            var own := if evidence.Some? && evidence.value.identity == identity
                          && ValidPollEvidence(evidence.value, now)
                       then evidence.value.lastSuccessAt else None;
            && (lastConfirmed.Some? ==> heard.Some? && lastConfirmed.value <= heard.value)
            && (own.Some? ==> heard.Some? && own.value <= heard.value)
            && (heard == lastConfirmed || heard == own)
  {
    hide ValidPollEvidence;
  }

  lemma InputsIff(identity: Identity, acceptedAt: Wall, now: Wall, prior: Option<Episode>, lastConfirmed: Option<Wall>)
    ensures PolicyInputs(identity, acceptedAt, now, prior, lastConfirmed) <==>
            && acceptedAt <= now + 5_000_000 && (lastConfirmed.Some? ==> lastConfirmed.value <= now + 5_000_000)
            && (prior.Some? ==>
                  && prior.value.identity == identity && prior.value.since <= prior.value.deadline
                  && prior.value.recoveryAfter <= now + 5_000_000)
  {
  }

  // ----- the retained assessment -----

  /** The success on record that may end an episode: above its cutoff, and not before its recovery clock. */
  predicate Ended(cause: A.Cause, w: Watermark) {
    && w.success.Some? && cause.episode.recoveryAfter <= w.success.value.at
    && (cause.cutoff.Some? ==> Before(cause.cutoff.value, w.success.value.cursor))
  }

  lemma RecoversIffEnded(cause: A.Cause, w: Watermark)
    ensures A.Recovers(cause, w) <==> Ended(cause, w)
  {
  }

  /** The cause carried into an assessment: what has not ended, unless a marked failure has an earlier deadline. */
  function Carried(prior: Option<A.Row>, identity: Identity, w: Watermark): Option<A.Cause> {
    var kept := if prior.Some? && prior.value.cause.Some? && !Ended(prior.value.cause.value, w) then prior.value.cause
                else None;
    if w.failure.Some? && (kept.None? || w.failure.value.at + 30_000_000 < kept.value.episode.deadline) then
      var f := w.failure.value;
      Some(A.Cause(Episode(identity, PollFailures, f.at, f.at + 30_000_000, f.at), Some(f.cursor), Some(f.cursor)))
    else kept
  }

  lemma CarriedIsSelected(prior: Option<A.Row>, identity: Identity, w: Watermark)
    ensures A.Selected(identity, A.Surviving(prior, w), w) == Carried(prior, identity, w)
  {
  }

  function MarkOf(input: A.Inputs): Watermark {
    if input.entry.None? then Watermark(None, None) else input.entry.value.mark
  }

  /**
   * The row an assessment writes: the next revision, made now, of what was read and confirmed. Its
   * cause is the carried one, or the policy's own with what was read as its cutoff; a generation
   * begins exactly where a cause begins without one that survived.
   */
  lemma RowExactly(prior: Option<A.Row>, input: A.Inputs, now: Wall)
    requires A.Assess(prior, input, now).Ok?
    ensures var o := A.Assess(prior, input, now).value; var row := o.row;
            var carried := Carried(prior, input.identity, MarkOf(input));
            var read := if input.entry.None? then None
                        else Some(Cursor(input.entry.value.ledger.epoch, input.entry.value.ledger.sequence));
            && row.revision == (if prior.None? then 1 else prior.value.revision + 1)
            && row.assessedAt == now && row.lastRead == read
            && row.lastConfirmed == o.result.lastConfirmedPollAt && row.recent == o.result.recentPollConfirmed
            && (row.recent ==> carried.None?)
            && (carried.Some? ==> row.cause.Some?)
            && (row.cause.Some? ==>
                  || row.cause == carried
                  || (row.cause.value.cutoff == read && row.cause.value.sourceFailure.None?
                      && (carried.Some? ==> row.cause.value.episode.deadline < carried.value.episode.deadline)))
            && (row.cause.Some? ==> o.result.episode == Some(row.cause.value.episode))
            && (row.cause.None? ==> o.result.episode.None?)
            && row.generation == (if prior.None? then 0 else prior.value.generation)
                                 + if row.cause.Some? && !Survives(prior, MarkOf(input)) then 1 else 0
  {
    hide ValidPollEvidence, Trusted;
    CarriedIsSelected(prior, input.identity, MarkOf(input));
  }

  predicate Survives(prior: Option<A.Row>, w: Watermark) {
    prior.Some? && prior.value.cause.Some? && !Ended(prior.value.cause.value, w)
  }

  /**
   * An assessment is refused exactly for a clock ahead of now, evidence that is not coherent, or
   * retained state that the evidence no longer bears out.
   */
  lemma AssessedIff(prior: Option<A.Row>, input: A.Inputs, now: Wall)
    requires A.CoherentAssessment(prior, input.identity)
    ensures A.Assess(prior, input, now).Ok? <==>
            && input.acceptedAt <= now + 5_000_000
            && (input.entry.Some? ==> Trusted(input.identity, input.entry.value.ledger, input.entry.value.mark, now))
            && (prior.Some? ==>
                  && prior.value.assessedAt <= now
                  && (prior.value.lastRead.Some? ==>
                        && input.entry.Some?
                        && !Before(Here(input.entry.value.ledger), prior.value.lastRead.value))
                  && (prior.value.lastConfirmed.Some? ==>
                        && input.entry.Some? && input.entry.value.ledger.lastConfirmedAt.Some?
                        && prior.value.lastConfirmed.value <= input.entry.value.ledger.lastConfirmedAt.value
                        && prior.value.lastConfirmed.value <= now + 5_000_000)
                  && (prior.value.cause.Some? ==>
                        prior.value.cause.value.episode.recoveryAfter <= now + 5_000_000))
  {
    hide ValidPollEvidence, A.Recovers;
    if A.PriorReadable(prior, now)
       && (input.entry.Some? ==> Trusted(input.identity, input.entry.value.ledger, input.entry.value.mark, now)) {
      A.SelectionIsSound(prior, input, now);
    }
  }

  /** What the policy is given of the ledger: its clocks and failures as they stand, under the target's identity. */
  function EvidenceFrom(input: A.Inputs): Option<Evidence> {
    if input.entry.None? then None
    else
      var l := input.entry.value.ledger;
      var heartbeat := if l.lastPollAt.Some? then l.lastPollAt.value else l.registeredAt;
      Some(Evidence(input.identity, l.epoch, l.registeredAt, heartbeat, l.lastPollAt, l.lastSuccessAt, l.failureStreak,
                    l.failureThresholdAt))
  }

  /**
   * An assessment answers what the policy does, of this evidence, the carried episode and the ledger's
   * own confirmation; only a carried cause that the policy would clear stays, unconfirmed.
   */
  lemma ResultIsThePolicys(prior: Option<A.Row>, input: A.Inputs, now: Wall)
    requires A.Assess(prior, input, now).Ok?
    ensures var carried := Carried(prior, input.identity, MarkOf(input));
            var confirmed := if input.entry.None? then None else input.entry.value.ledger.lastConfirmedAt;
            var episode := if carried.None? then None else Some(carried.value.episode);
            var policy := AssessIngress(EvidenceFrom(input), input.identity, input.acceptedAt, now, episode, confirmed);
            && policy.Ok?
            && A.Assess(prior, input, now).value.result
               == if carried.Some? && policy.value.episode.None?
                  then Assessment(false, episode, policy.value.lastConfirmedPollAt) else policy.value
  {
    hide ValidPollEvidence, Trusted, AssessIngress, A.PriorReadable;
    CarriedIsSelected(prior, input.identity, MarkOf(input));
  }

  // ----- what one input does to the ledger and the stored row -----

  lemma InputApplies(identity: Identity, e: Option<Entry>, token: Token, epoch: nat, sequence: nat, succeeded: bool,
                     now: Wall)
    ensures var r := Register(e, token, epoch, now);
            Apply(identity, e, Startup(token, epoch, now)) == if r.Ok? then Some(r.value) else e
    ensures var r := RecordPoll(identity, e, token, epoch, sequence, succeeded, now);
            Apply(identity, e, Sample(token, epoch, sequence, succeeded, now))
            == if r.Err? || r.value.None? then e else r.value
  {
    hide Register, RecordPoll;
  }

  lemma JudgingStores(identity: Identity, acceptedAt: Wall, s: A.Store, at: Wall)
    ensures var r := A.Assess(s.row, A.Inputs(identity, acceptedAt, s.entry), at);
            A.Next(identity, acceptedAt, s, A.Judge(at))
            == A.Store(s.entry, if r.Ok? then Some(r.value.row) else s.row)
  {
    hide A.Assess;
  }
}
