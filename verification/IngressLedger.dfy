/**
 * The group-poll ledger and its causal watermarks: startup registration,
 * poll samples, and the coherence check every reader applies to them.
 */
module IngressLedger {
  import opened Wrappers
  import opened Identifiers
  import opened ControlRows
  import opened IngressPolicy

  datatype Cursor = Cursor(epoch: nat, sequence: nat)

  predicate Before(a: Cursor, b: Cursor) {
    a.epoch < b.epoch || (a.epoch == b.epoch && a.sequence < b.sequence)
  }

  predicate AtMost(a: Cursor, b: Cursor) {
    a == b || Before(a, b)
  }

  /** One ledger row: the owner's token digest, its epoch and its latest sample. */
  datatype Ledger = Ledger(
    owner: Token, epoch: nat, sequence: nat, registeredAt: Wall,
    lastPollAt: Option<Wall>, lastPollSucceeded: bool, lastSuccessAt: Option<Wall>,
    lastConfirmedAt: Option<Wall>, failureStreak: nat, failureThresholdAt: Option<Wall>)

  datatype Sighting = Sighting(cursor: Cursor, at: Wall)
  datatype Watermark = Watermark(success: Option<Sighting>, failure: Option<Sighting>)

  const NO_WATERMARK := Watermark(None, None)

  function Latest(l: Ledger): Wall {
    if l.lastPollAt.Some? then l.lastPollAt.value else l.registeredAt
  }

  function Here(l: Ledger): Cursor {
    Cursor(l.epoch, l.sequence)
  }

  function EvidenceOf(identity: Identity, l: Ledger): Evidence {
    Evidence(identity, l.epoch, l.registeredAt, Latest(l), l.lastPollAt, l.lastSuccessAt, l.failureStreak,
             l.failureThresholdAt)
  }

  /** TelegramIngressLedger.read: refuses a confirmation ahead of the ledger. */
  predicate Readable(l: Ledger) {
    l.lastConfirmedAt.Some? ==> l.lastConfirmedAt.value <= Latest(l)
  }

  predicate NotFuture(at: Option<Wall>, now: Wall) {
    at.Some? ==> at.value <= now + SKEW
  }

  function Times(s: Option<Sighting>): Option<Wall> {
    if s.None? then None else Some(s.value.at)
  }

  /** TelegramIngressWatermarks.read: the conditions under which it does not raise. */
  predicate WatermarkReadable(l: Ledger, w: Watermark, now: Wall) {
    && NotFuture(Times(w.success), now) && NotFuture(Times(w.failure), now)
    && NotFuture(l.lastConfirmedAt, now) && NotFuture(Some(Latest(l)), now)
    && (w.success.Some? ==> AtMost(w.success.value.cursor, Here(l)))
    && (w.failure.Some? ==> AtMost(w.failure.value.cursor, Here(l)))
    && (w.success.Some? ==> l.lastConfirmedAt.Some? && w.success.value.at <= l.lastConfirmedAt.value)
    && (w.failure.Some? ==> w.failure.value.at <= Latest(l))
    && (w.failure.Some? && w.success.Some? ==> Before(w.success.value.cursor, w.failure.value.cursor)
                                               && w.success.value.at <= w.failure.value.at)
  }

  /** Everything an assessment reads about an identity, accepted without an error. */
  predicate Trusted(identity: Identity, l: Ledger, w: Watermark, now: Wall) {
    Readable(l) && ValidPollEvidence(EvidenceOf(identity, l), now) && WatermarkReadable(l, w, now)
  }

  // ----- producer transactions -----

  datatype Entry = Entry(ledger: Ledger, mark: Watermark)

  /** Startup compare-and-swap; an exact repeat by the same token changes nothing. */
  function Register(prior: Option<Entry>, token: Token, previousEpoch: nat, now: Wall): Result<Entry> {
    if prior.Some? && prior.value.ledger.owner == token then
      if prior.value.ledger.epoch != previousEpoch + 1 then Err("registration does not match original CAS")
      else Ok(prior.value)
    else if (if prior.None? then 0 else prior.value.ledger.epoch) != previousEpoch then Err("startup epoch changed")
    else if prior.None? then
      Ok(Entry(Ledger(token, previousEpoch + 1, 0, now, None, false, None, None, 0, None), NO_WATERMARK))
    else if now < Latest(prior.value.ledger) then Err("startup clock moved backwards")
    else
      var l := prior.value.ledger;
      Ok(prior.value.(ledger := l.(owner := token, epoch := previousEpoch + 1, sequence := 0, registeredAt := now,
                                   lastPollAt := None, lastPollSucceeded := false, lastSuccessAt := None,
                                   failureStreak := 0, failureThresholdAt := None)))
  }

  function Mark(w: Watermark, cursor: Cursor, succeeded: bool, at: Wall, threshold: Option<Wall>): Watermark {
    if succeeded then Watermark(Some(Sighting(cursor, at)), None)
    else if w.failure.None? && threshold.Some? then w.(failure := Some(Sighting(cursor, threshold.value)))
    else w
  }

  function Min(a: nat, b: nat): nat {
    if a < b then a else b
  }

  /** A gap in the sequence breaks the failure streak; a success clears it. */
  function Sampled(l: Ledger, sequence: nat, succeeded: bool, at: Wall): Ledger {
    var counted := if sequence == l.sequence + 1 then Min(l.failureStreak + 1, 1000000) else 1;
    var streak := if succeeded then 0 else counted;
    l.(sequence := sequence, lastPollAt := Some(at), lastPollSucceeded := succeeded,
       lastSuccessAt := if succeeded then Some(at) else l.lastSuccessAt,
       lastConfirmedAt := if succeeded then Some(at) else l.lastConfirmedAt,
       failureStreak := streak,
       failureThresholdAt := if streak < 3 then None
                             else if l.failureThresholdAt.Some? then l.failureThresholdAt else Some(at))
  }

  /** One poll sample: None is lost ownership, an error is a refused sample. */
  function RecordPoll(identity: Identity, prior: Option<Entry>, token: Token, epoch: nat,
                      sequence: nat, succeeded: bool, at: Wall): Result<Option<Entry>>
  {
    if prior.None? || prior.value.ledger.epoch != epoch || prior.value.ledger.owner != token then Ok(None)
    else
      var l, w := prior.value.ledger, prior.value.mark;
      if sequence == l.sequence then
        if l.lastPollAt == Some(at) && l.lastPollSucceeded == succeeded then Ok(prior)
        else Err("conflicting group ingress sample repeat")
      else if sequence < l.sequence || at < Latest(l) then Err("sample clock or sequence moved backwards")
      else if !Trusted(identity, l, w, at) then Err("incoherent retained group ingress evidence")
      else
        var after := Sampled(l, sequence, succeeded, at);
        var retained := if l.failureThresholdAt.Some? then l.failureThresholdAt else after.failureThresholdAt;
        Ok(Some(Entry(after, Mark(w, Cursor(epoch, sequence), succeeded, at, retained))))
  }

  // ----- what the producer guarantees to every later reader -----

  /** Stronger than Trusted: what one sample needs from the samples before it. */
  predicate Sealed(identity: Identity, e: Entry, now: Wall) {
    var l, w := e.ledger, e.mark;
    && Trusted(identity, l, w, now)
    && l.epoch >= 1
    && (l.lastPollAt.None? ==> l.lastSuccessAt.None?)
    && (w.success.Some? ==> w.success.value.at <= l.registeredAt || l.lastSuccessAt == Some(w.success.value.at))
    && (l.lastSuccessAt.Some? ==> w.success.Some? && l.lastConfirmedAt.Some?
                                  && l.lastSuccessAt.value <= l.lastConfirmedAt.value)
  }

  /** The watermark table's BEFORE UPDATE trigger. */
  predicate WatermarkFence(before: Watermark, after: Watermark) {
    && (before.success.Some? ==>
          && after.success.Some? && AtMost(before.success.value.cursor, after.success.value.cursor)
          && before.success.value.at <= after.success.value.at
          && (after.success.value.cursor == before.success.value.cursor ==>
              after.success.value.at == before.success.value.at))
    && (before.failure.Some? ==>
          || after.failure == before.failure
          || (after.failure.None? && after.success.Some?
              && Before(before.failure.value.cursor, after.success.value.cursor)
              && before.failure.value.at <= after.success.value.at))
  }

  predicate Advanced(before: Ledger, after: Ledger) {
    && AtMost(Here(before), Here(after))
    && Latest(before) <= Latest(after)
    && (before.lastConfirmedAt.Some? ==> after.lastConfirmedAt.Some?
                                         && before.lastConfirmedAt.value <= after.lastConfirmedAt.value)
  }

  lemma RegisterKeepsSealed(identity: Identity, prior: Option<Entry>, token: Token, previousEpoch: nat, now: Wall)
    requires prior.Some? ==> Sealed(identity, prior.value, now)
    requires Register(prior, token, previousEpoch, now).Ok?
    ensures var after := Register(prior, token, previousEpoch, now).value;
            Sealed(identity, after, now)
            && (prior.Some? ==>
                Advanced(prior.value.ledger, after.ledger) && WatermarkFence(prior.value.mark, after.mark))
  {
  }

  lemma SampleKeepsSealed(identity: Identity, prior: Option<Entry>, token: Token, epoch: nat,
                          sequence: nat, succeeded: bool, at: Wall, now: Wall)
    requires prior.Some? && Sealed(identity, prior.value, at)
    requires at <= now
    ensures var r := RecordPoll(identity, prior, token, epoch, sequence, succeeded, at);
            r.Ok? && r.value.Some? ==>
              && Sealed(identity, r.value.value, now)
              && Advanced(prior.value.ledger, r.value.value.ledger)
              && WatermarkFence(prior.value.mark, r.value.value.mark)
  {
    var l, w := prior.value.ledger, prior.value.mark;
    var r := RecordPoll(identity, prior, token, epoch, sequence, succeeded, at);
    if r.Ok? && r.value.Some? {
      if sequence == l.sequence {
        SealedLater(identity, prior.value, at, now);
      } else {
        var retained := if l.failureThresholdAt.Some? then l.failureThresholdAt
                        else Sampled(l, sequence, succeeded, at).failureThresholdAt;
        SampledEvidenceValid(identity, l, sequence, succeeded, at);
        MarkedReadable(identity, prior.value, sequence, succeeded, at, retained);
        SealedLater(identity, r.value.value, at, now);
      }
    }
  }

  lemma SampledEvidenceValid(identity: Identity, l: Ledger, sequence: nat, succeeded: bool, at: Wall)
    requires ValidPollEvidence(EvidenceOf(identity, l), at) && Latest(l) <= at
    ensures ValidPollEvidence(EvidenceOf(identity, Sampled(l, sequence, succeeded, at)), at)
  {
  }

  lemma MarkedReadable(identity: Identity, e: Entry, sequence: nat, succeeded: bool, at: Wall, threshold: Option<Wall>)
    requires Sealed(identity, e, at) && Latest(e.ledger) <= at && e.ledger.sequence < sequence
    requires threshold.Some? ==>
               && e.ledger.registeredAt <= threshold.value <= at
               && (e.ledger.lastSuccessAt.Some? ==> e.ledger.lastSuccessAt.value <= threshold.value)
    ensures var l := Sampled(e.ledger, sequence, succeeded, at);
            var w := Mark(e.mark, Cursor(e.ledger.epoch, sequence), succeeded, at, threshold);
            WatermarkReadable(l, w, at) && WatermarkFence(e.mark, w) && Advanced(e.ledger, l)
  {
  }

  /** A sample is refused only for its own clock or sequence, never for evidence the ledger itself wrote. */
  lemma SampleRefusedOnlyByItself(identity: Identity, prior: Option<Entry>, token: Token, epoch: nat,
                                  sequence: nat, succeeded: bool, at: Wall)
    requires prior.Some? && Sealed(identity, prior.value, at)
    ensures RecordPoll(identity, prior, token, epoch, sequence, succeeded, at).Err? ==>
              || (sequence == prior.value.ledger.sequence
                  && !(prior.value.ledger.lastPollAt == Some(at) && prior.value.ledger.lastPollSucceeded == succeeded))
              || sequence < prior.value.ledger.sequence || at < Latest(prior.value.ledger)
  {
  }

  lemma SealedLater(identity: Identity, e: Entry, now: Wall, later: Wall)
    requires Sealed(identity, e, now) && now <= later
    ensures Sealed(identity, e, later)
  {
  }

  // ----- runs -----

  datatype Input =
    | Startup(token: Token, previousEpoch: nat, now: Wall)
    | Sample(token: Token, epoch: nat, sequence: nat, succeeded: bool, now: Wall)

  function Apply(identity: Identity, e: Option<Entry>, input: Input): Option<Entry> {
    match input
    case Startup(token, previousEpoch, now) =>
      var r := Register(e, token, previousEpoch, now);
      if r.Ok? then Some(r.value) else e
    case Sample(token, epoch, sequence, succeeded, now) =>
      var r := RecordPoll(identity, e, token, epoch, sequence, succeeded, now);
      if r.Ok? && r.value.Some? then r.value else e
  }

  function ApplyAll(identity: Identity, inputs: seq<Input>): Option<Entry> {
    if inputs == [] then None
    else Apply(identity, ApplyAll(identity, inputs[..|inputs| - 1]), inputs[|inputs| - 1])
  }

  predicate Nondecreasing(inputs: seq<Input>) {
    forall k, l :: 0 <= k < l < |inputs| ==> inputs[k].now <= inputs[l].now
  }

  /**
   * However controllers restart, lose ownership, skip or repeat samples, under a
   * nondecreasing clock the retained evidence stays acceptable to every reader.
   */
  lemma {:induction false} LedgerStaysReadable(identity: Identity, inputs: seq<Input>, now: Wall)
    requires Nondecreasing(inputs)
    requires inputs != [] ==> inputs[|inputs| - 1].now <= now
    ensures ApplyAll(identity, inputs).Some? ==> Sealed(identity, ApplyAll(identity, inputs).value, now)
  {
    if inputs != [] {
      var earlier, last := inputs[..|inputs| - 1], inputs[|inputs| - 1];
      LedgerStaysReadable(identity, earlier, last.now);
      var e := ApplyAll(identity, earlier);
      match last {
        case Startup(token, previousEpoch, at) =>
          if Register(e, token, previousEpoch, at).Ok? {
            RegisterKeepsSealed(identity, e, token, previousEpoch, at);
          }
        case Sample(token, epoch, sequence, succeeded, at) =>
          if e.Some? {
            SampleKeepsSealed(identity, e, token, epoch, sequence, succeeded, at, at);
          }
      }
      if ApplyAll(identity, inputs).Some? {
        SealedLater(identity, ApplyAll(identity, inputs).value, last.now, now);
      }
    }
  }
}
