/** Poll evidence, uncertainty episodes and the deadline policy that classifies them. */
module IngressPolicy {
  import opened Wrappers
  import opened Identifiers
  import opened ControlRows

  datatype Identity = HubIdentity | CodexIdentity
  datatype Reason = NeverConfirmed | StaleOrMissing | PollFailures

  datatype Evidence = Evidence(
    identity: Identity, epoch: int, registeredAt: Wall, heartbeatAt: Wall,
    lastPollAt: Option<Wall>, lastSuccessAt: Option<Wall>, failureStreak: int, failureThresholdAt: Option<Wall>)

  datatype Episode = Episode(identity: Identity, reason: Reason, since: Wall, deadline: Wall, recoveryAfter: Wall)

  datatype Assessment = Assessment(
    recentPollConfirmed: bool, episode: Option<Episode>, lastConfirmedPollAt: Option<Wall>)

  const SKEW: Wall := 5 * SECOND

  /** A clock that is present lies between registration and heartbeat, and not in the future. */
  predicate Observed(e: Evidence, at: Wall, now: Wall) {
    at <= now + SKEW && e.registeredAt <= at <= e.heartbeatAt
  }

  predicate ObservedIfAny(e: Evidence, at: Option<Wall>, now: Wall) {
    at.Some? ==> Observed(e, at.value, now)
  }

  predicate ValidPollEvidence(e: Evidence, now: Wall) {
    && e.epoch >= 1 && e.failureStreak >= 0
    && Observed(e, e.registeredAt, now) && Observed(e, e.heartbeatAt, now)
    && ObservedIfAny(e, e.lastPollAt, now) && ObservedIfAny(e, e.lastSuccessAt, now)
    && ObservedIfAny(e, e.failureThresholdAt, now)
    && (e.lastSuccessAt.Some? ==> e.lastPollAt.Some? && e.lastSuccessAt.value <= e.lastPollAt.value)
    && (if e.failureStreak >= 3 then
          && e.failureThresholdAt.Some? && e.lastPollAt.Some? && e.failureThresholdAt.value <= e.lastPollAt.value
          && (e.lastSuccessAt.Some? ==> e.lastSuccessAt.value <= e.failureThresholdAt.value)
        else e.failureThresholdAt.None?)
  }

  predicate ValidEpisode(e: Episode) {
    e.since <= e.deadline
  }

  function Later(a: Option<Wall>, b: Option<Wall>): Option<Wall> {
    if a.None? then b else if b.None? then a else if a.value >= b.value then a else b
  }

  /** A classification change or restart cannot extend a pending deadline. */
  function RetainEarlierDeadline(prior: Option<Episode>, candidate: Episode): Result<Episode> {
    if !ValidEpisode(candidate) then Err("invalid retained ingress episode")
    else if prior.None? then Ok(candidate)
    else if !ValidEpisode(prior.value) then Err("invalid retained ingress episode")
    else if prior.value.identity != candidate.identity then Err("ingress episode identity changed")
    else Ok(if prior.value.deadline <= candidate.deadline then prior.value else candidate)
  }

  function StaleCandidate(identity: Identity, acceptedAt: Wall, now: Wall, confirmed: Option<Wall>): Episode {
    var since := if confirmed.None? || confirmed.value + 60 * SECOND <= acceptedAt then acceptedAt
                 else confirmed.value + 60 * SECOND;
    Episode(identity, if confirmed.None? then NeverConfirmed else StaleOrMissing, since, since + 120 * SECOND, now)
  }

  predicate Recent(at: Option<Wall>, now: Wall) {
    at.Some? && now - at.value <= 60 * SECOND
  }

  /** The clock and identity checks a caller must pass before the policy runs. */
  predicate PolicyInputs(identity: Identity, acceptedAt: Wall, now: Wall, prior: Option<Episode>,
                         lastConfirmed: Option<Wall>) {
    && acceptedAt <= now + SKEW
    && (prior.Some? ==> ValidEpisode(prior.value) && prior.value.identity == identity
                        && prior.value.recoveryAfter <= now + SKEW)
    && (lastConfirmed.Some? ==> lastConfirmed.value <= now + SKEW)
  }

  /**
   * What every classification keeps: a confirmed poll or an episode but not
   * both, confirmations never lost, and a prior episode either kept as it was,
   * replaced by a strictly earlier deadline, or cleared by a poll success at
   * or after its recovery clock.
   */
  predicate KeepsThePromise(evidence: Option<Evidence>, identity: Identity, now: Wall,
                            prior: Option<Episode>, lastConfirmed: Option<Wall>, r: Assessment)
  {
    && (r.recentPollConfirmed ==> r.episode.None? && r.lastConfirmedPollAt.Some?)
    && (r.episode.None? ==> r.recentPollConfirmed && evidence.Some? && ValidPollEvidence(evidence.value, now)
                            && evidence.value.lastSuccessAt.Some?
                            && (prior.Some? ==> prior.value.recoveryAfter <= evidence.value.lastSuccessAt.value))
    && (r.episode.Some? ==> ValidEpisode(r.episode.value) && r.episode.value.identity == identity
                            && r.episode.value.recoveryAfter <= now + SKEW)
    && (r.episode.Some? && prior.Some? ==>
          r.episode == prior || r.episode.value.deadline < prior.value.deadline)
    && (lastConfirmed.Some? ==> r.lastConfirmedPollAt.Some? && lastConfirmed.value <= r.lastConfirmedPollAt.value)
    && (r.lastConfirmedPollAt.Some? ==> r.lastConfirmedPollAt.value <= now + SKEW)
  }

  function Unconfirmed(prior: Option<Episode>, candidate: Episode, confirmed: Option<Wall>): (r: Result<Assessment>)
    ensures ValidEpisode(candidate)
            && (prior.Some? ==> ValidEpisode(prior.value) && prior.value.identity == candidate.identity) ==>
              && r.Ok? && r.value == Assessment(false, r.value.episode, confirmed) && r.value.episode.Some?
              && (r.value.episode == prior
                  || (r.value.episode == Some(candidate)
                      && (prior.Some? ==> candidate.deadline < prior.value.deadline)))
  {
    var kept :- RetainEarlierDeadline(prior, candidate);
    Ok(Assessment(false, Some(kept), confirmed))
  }

  function Classify(e: Evidence, identity: Identity, acceptedAt: Wall, now: Wall,
                    prior: Option<Episode>, lastConfirmed: Option<Wall>): (r: Result<Assessment>)
    requires ValidPollEvidence(e, now) && PolicyInputs(identity, acceptedAt, now, prior, lastConfirmed)
    ensures r.Ok? && KeepsThePromise(Some(e), identity, now, prior, lastConfirmed, r.value)
  {
    var confirmed := Later(lastConfirmed, e.lastSuccessAt);
    var heard := Recent(Some(e.heartbeatAt), now) && Recent(e.lastPollAt, now);
    if heard && Recent(e.lastSuccessAt, now) && e.failureStreak < 3 then
      if prior.None? || e.lastSuccessAt.value >= prior.value.recoveryAfter
      then Ok(Assessment(true, None, confirmed))
      else Ok(Assessment(false, prior, confirmed))
    else if heard && e.failureStreak >= 3 then
      var at := e.failureThresholdAt.value;
      Unconfirmed(prior, Episode(identity, PollFailures, at, at + 30 * SECOND, at), confirmed)
    else Unconfirmed(prior, StaleCandidate(identity, acceptedAt, now, confirmed), confirmed)
  }

  function AssessIngress(evidence: Option<Evidence>, identity: Identity, acceptedAt: Wall, now: Wall,
                         prior: Option<Episode>, lastConfirmed: Option<Wall>): (r: Result<Assessment>)
    ensures r.Ok? <==> PolicyInputs(identity, acceptedAt, now, prior, lastConfirmed)
    ensures r.Ok? ==> KeepsThePromise(evidence, identity, now, prior, lastConfirmed, r.value)
  {
    if acceptedAt > now + SKEW then Err("accepted target clock is in the future")
    else if prior.Some? && !ValidEpisode(prior.value) then Err("invalid retained ingress episode")
    else if prior.Some? && prior.value.recoveryAfter > now + SKEW
    then Err("retained ingress recovery clock is in the future")
    else if prior.Some? && prior.value.identity != identity
    then Err("retained ingress episode belongs to another identity")
    else if lastConfirmed.Some? && lastConfirmed.value > now + SKEW then Err("invalid retained ingress confirmation")
    else if evidence.Some? && evidence.value.identity == identity && ValidPollEvidence(evidence.value, now) then
      Classify(evidence.value, identity, acceptedAt, now, prior, lastConfirmed)
    else
      Unconfirmed(prior, StaleCandidate(identity, acceptedAt, now, lastConfirmed), lastConfirmed)
  }

  /** When the group was last heard from in time, as far as a classification may use it. */
  function LastHeard(evidence: Option<Evidence>, identity: Identity, now: Wall,
                     lastConfirmed: Option<Wall>): Option<Wall> {
    if evidence.Some? && evidence.value.identity == identity && ValidPollEvidence(evidence.value, now)
    then Later(lastConfirmed, evidence.value.lastSuccessAt) else lastConfirmed
  }

  /**
   * No precaution is hasty: a new deadline comes thirty seconds after a third
   * failure in a row, or two minutes after the later of acceptance and the
   * moment a minute-old confirmation went stale.
   */
  lemma DeadlinesAreEarned(evidence: Option<Evidence>, identity: Identity, acceptedAt: Wall, now: Wall,
                           prior: Option<Episode>, lastConfirmed: Option<Wall>)
    requires PolicyInputs(identity, acceptedAt, now, prior, lastConfirmed)
    requires var e := AssessIngress(evidence, identity, acceptedAt, now, prior, lastConfirmed).value.episode;
             e.Some? && e != prior
    ensures var e := AssessIngress(evidence, identity, acceptedAt, now, prior, lastConfirmed).value.episode.value;
            var heard := LastHeard(evidence, identity, now, lastConfirmed);
            if e.reason == PollFailures then
              && evidence.Some? && evidence.value.failureStreak >= 3
              && evidence.value.failureThresholdAt == Some(e.since)
              && e.deadline == e.since + 30 * SECOND
            else
              && e.since >= acceptedAt && (heard.Some? ==> e.since >= heard.value + 60 * SECOND)
              && (e.since == acceptedAt || (heard.Some? && e.since == heard.value + 60 * SECOND))
              && e.deadline == e.since + 120 * SECOND
              && (e.reason == NeverConfirmed <==> heard.None?)
  {
  }

  /** Polling counts as confirmed exactly when the right group was heard within the minute and the episode may end. */
  lemma ConfirmedIffHeard(evidence: Option<Evidence>, identity: Identity, acceptedAt: Wall, now: Wall,
                          prior: Option<Episode>, lastConfirmed: Option<Wall>)
    requires PolicyInputs(identity, acceptedAt, now, prior, lastConfirmed)
    ensures AssessIngress(evidence, identity, acceptedAt, now, prior, lastConfirmed).value.recentPollConfirmed <==>
            && evidence.Some? && evidence.value.identity == identity && ValidPollEvidence(evidence.value, now)
            && now - 60 * SECOND <= evidence.value.heartbeatAt
            && evidence.value.lastSuccessAt.Some? && now - 60 * SECOND <= evidence.value.lastSuccessAt.value
            && evidence.value.failureStreak < 3
            && (prior.Some? ==> prior.value.recoveryAfter <= evidence.value.lastSuccessAt.value)
  {
  }
}
