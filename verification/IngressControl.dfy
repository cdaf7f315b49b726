/**
 * Ingress precautions: one transaction reassesses the poll evidence of the
 * exact target and, only when its deadline has passed, takes the fence or a
 * read from the shared allowance.
 */
module IngressControl {
  import opened Wrappers
  import opened Identifiers
  import opened ControlRows
  import opened TurnControls
  import opened IngressReservation
  import IngressPolicy
  import IngressLedger
  import A = IngressAssessments

  /** Precaution targets recorded at acceptance, and the ledger each identity reads. */
  datatype Evidence = Evidence(
    targets: map<JobId, IngressPolicy.Identity>, entries: map<IngressPolicy.Identity, IngressLedger.Entry>)

  predicate HasTarget(rows: Controls, evidence: Evidence, job: JobId) {
    job in evidence.targets && job in rows && rows[job].accepted && rows[job].acceptedAt.Some?
  }

  function InputsFor(rows: Controls, evidence: Evidence, job: JobId): A.Inputs
    requires HasTarget(rows, evidence, job)
  {
    var identity := evidence.targets[job];
    A.Inputs(identity, rows[job].acceptedAt.value,
             if identity in evidence.entries then Some(evidence.entries[identity]) else None)
  }

  function PriorRow(assessments: map<JobId, A.Row>, job: JobId): Option<A.Row> {
    if job in assessments then Some(assessments[job]) else None
  }

  /** The revision to act on, once the stored deadline is not in the future. */
  function DueRevision(o: A.Outcome, now: Wall): Option<nat> {
    if o.result.episode.None? || o.result.episode.value.deadline > now then None else Some(o.row.revision)
  }

  /**
   * The trigger on a first ingress send: the named revision is the stored
   * assessment, made in this transaction, unconfirmed, and past its deadline.
   */
  predicate FirstSendProvenance(c: Control, row: A.Row) {
    && c.accepted && c.send.Some? && (c.send.value.source == Protective || c.send.value.source == Late)
    && c.send.value.revision == Some(row.revision) && row.assessedAt == c.send.value.startedAt
    && row.cause.Some? && !row.recent && row.cause.value.episode.deadline <= c.send.value.startedAt
  }

  lemma DueMeansProvenance(prior: Option<A.Row>, input: A.Inputs, now: Wall)
    requires A.CoherentAssessment(prior, input.identity) && A.Assess(prior, input, now).Ok?
    requires DueRevision(A.Assess(prior, input, now).value, now).Some?
    ensures var row := A.Assess(prior, input, now).value.row;
            && row.cause.Some? && !row.recent && row.assessedAt == now
            && row.cause.value.episode.deadline <= now
            && DueRevision(A.Assess(prior, input, now).value, now) == Some(row.revision)
  {
    A.AssessmentPassesTheFence(prior, input, now);
  }

  datatype Fenced = Fenced(reservation: Reservation, assessments: map<JobId, A.Row>)
  datatype Claimed = Claimed(rows: Controls, assessments: map<JobId, A.Row>, granted: Option<Control>)

  /** Reassessment, permanent fence and its cause, as one transaction; an error rolls everything back. */
  function FenceForIngress(rows: Controls, assessments: map<JobId, A.Row>, hub: Hub, evidence: Evidence,
                           a: Attempt, laterWall: Wall, laterMono: real): Result<Fenced>
  {
    var bound := Bind(rows, hub);
    if !SelectionValid(SourceOf(a), a.invocation, a.readClaim) then Err("invalid interrupt authority")
    else if PendingStop(hub, a.job) || !HasTarget(bound, evidence, a.job) || !ValidTarget(bound, hub, a)
    then Ok(Fenced(Reservation(bound, None), assessments))
    else
      var o :- A.Assess(PriorRow(assessments, a.job), InputsFor(bound, evidence, a.job), a.wall);
      var g := Ingress(true, DueRevision(o, a.wall), laterWall, laterMono);
      var reservation :- ReserveForIngress(rows, hub, a, g);
      Ok(Fenced(reservation, assessments[a.job := o.row]))
  }

  /** A read from the shared three-cycle allowance, never beside a covering pending stop. */
  function ClaimForIngress(rows: Controls, assessments: map<JobId, A.Row>, hub: Hub, evidence: Evidence,
                           job: JobId, worker: string, token: Token, now: Wall): Result<Claimed>
  {
    var bound := Bind(rows, hub);
    if !HasTarget(bound, evidence, job) || job !in hub.jobs
       || hub.jobs[job].status != Indeterminate || hub.jobs[job].leaseToken.Some?
       || !CoherentTarget(bound, hub, job) || PendingStop(hub, job)
    then Ok(Claimed(bound, assessments, None))
    else
      var o :- A.Assess(PriorRow(assessments, job), InputsFor(bound, evidence, job), now);
      var granted := if DueRevision(o, now).None? then None else Allocate(bound[job], worker, token, now);
      Ok(Claimed(if granted.Some? then bound[job := granted.value] else bound, assessments[job := o.row], granted))
  }

  predicate AssessmentsOk(assessments: map<JobId, A.Row>, evidence: Evidence) {
    forall j :: j in assessments ==> j in evidence.targets && A.AssessmentChecks(assessments[j], evidence.targets[j])
  }

  lemma AssessingKeeps(bound: Controls, assessments: map<JobId, A.Row>, evidence: Evidence, job: JobId, now: Wall)
    requires AssessmentsOk(assessments, evidence) && HasTarget(bound, evidence, job)
    requires A.Assess(PriorRow(assessments, job), InputsFor(bound, evidence, job), now).Ok?
    ensures var o := A.Assess(PriorRow(assessments, job), InputsFor(bound, evidence, job), now).value;
            && AssessmentsOk(assessments[job := o.row], evidence)
            && (DueRevision(o, now).Some? ==>
                  && DueRevision(o, now).value == o.row.revision && o.row.assessedAt == now
                  && o.row.cause.Some? && !o.row.recent && o.row.cause.value.episode.deadline <= now)
  {
    var prior, input := PriorRow(assessments, job), InputsFor(bound, evidence, job);
    A.AssessmentPassesTheFence(prior, input, now);
    if DueRevision(A.Assess(prior, input, now).value, now).Some? {
      DueMeansProvenance(prior, input, now);
    }
  }

  /** A precaution fires only on its own due assessment, never beside an owner stop, and once. */
  lemma IngressFenceHasProvenance(rows: Controls, assessments: map<JobId, A.Row>, hub: Hub, evidence: Evidence,
                                  a: Attempt, laterWall: Wall, laterMono: real)
    requires Coherent(rows) && AssessmentsOk(assessments, evidence)
    requires FenceForIngress(rows, assessments, hub, evidence, a, laterWall, laterMono).Ok?
    ensures var f := FenceForIngress(rows, assessments, hub, evidence, a, laterWall, laterMono).value;
            && Coherent(f.reservation.rows) && Retained(rows, f.reservation.rows)
            && AssessmentsOk(f.assessments, evidence)
            && (f.reservation.owner.Some? ==>
                  && !PendingStop(hub, a.job) && a.job in rows && rows[a.job].send.None?
                  && a.job in f.reservation.rows && a.job in f.assessments
                  && FirstSendProvenance(f.reservation.rows[a.job], f.assessments[a.job]))
  {
    var bound := Bind(rows, hub);
    if PendingStop(hub, a.job) || !HasTarget(bound, evidence, a.job) || !ValidTarget(bound, hub, a) {
      BindKeeps(rows, hub);
    } else {
      AssessingKeeps(bound, assessments, evidence, a.job, a.wall);
      var o := A.Assess(PriorRow(assessments, a.job), InputsFor(bound, evidence, a.job), a.wall).value;
      IngressReserveKeeps(rows, hub, a, Ingress(true, DueRevision(o, a.wall), laterWall, laterMono));
    }
  }

  /** A granted ingress read is due, exact, indeterminate work without a pending stop. */
  lemma IngressReadIsDue(rows: Controls, assessments: map<JobId, A.Row>, hub: Hub, evidence: Evidence,
                         job: JobId, worker: string, token: Token, now: Wall)
    requires Coherent(rows) && AssessmentsOk(assessments, evidence)
    requires ClaimForIngress(rows, assessments, hub, evidence, job, worker, token, now).Ok?
    ensures var c := ClaimForIngress(rows, assessments, hub, evidence, job, worker, token, now).value;
            && Coherent(c.rows) && AssessmentsOk(c.assessments, evidence)
            && (c.granted.Some? ==>
                  && !PendingStop(hub, job) && job in hub.jobs && hub.jobs[job].status == Indeterminate
                  && job in c.assessments && c.assessments[job].cause.Some? && !c.assessments[job].recent
                  && c.assessments[job].assessedAt == now && c.assessments[job].cause.value.episode.deadline <= now)
  {
    var bound := Bind(rows, hub);
    BindKeeps(rows, hub);
    var c := ClaimForIngress(rows, assessments, hub, evidence, job, worker, token, now).value;
    if c.assessments != assessments || c.granted.Some? {
      AssessingKeeps(bound, assessments, evidence, job, now);
      if c.granted.Some? {
        AllocateKeeps(bound, job, worker, token, now);
      }
    }
  }

  class CodexIngressControl {
    const controls: CodexTurnControls
    var assessments: map<JobId, A.Row>

    constructor (controls: CodexTurnControls)
      ensures this.controls == controls && assessments == map[]
    {
      this.controls := controls;
      assessments := map[];
    }

    method BeginInterrupt(hub: Hub, evidence: Evidence, a: Attempt, laterWall: Wall, laterMono: real)
      returns (r: Result<Option<Token>>)
      modifies this, controls
      ensures var spec := FenceForIngress(old(controls.rows), old(assessments), hub, evidence, a, laterWall, laterMono);
              && r.Ok? == spec.Ok?
              && (r.Ok? ==> r.value == spec.value.reservation.owner && controls.rows == spec.value.reservation.rows
                            && assessments == spec.value.assessments)
              && (r.Err? ==> controls.rows == old(controls.rows) && assessments == old(assessments))
    {
      if !SelectionValid(SourceOf(a), a.invocation, a.readClaim) {
        return Err("invalid interrupt authority");
      }
      var saved := controls.rows;
      controls.BindCoveringStops(hub);
      if PendingStop(hub, a.job) || !HasTarget(controls.rows, evidence, a.job) || !ValidTarget(controls.rows, hub, a) {
        return Ok(None);
      }
      var o := A.Assess(PriorRow(assessments, a.job), InputsFor(controls.rows, evidence, a.job), a.wall);
      if o.Err? {
        controls.rows := saved;
        return Err(o.message);
      }
      assessments := assessments[a.job := o.value.row];
      var due := DueRevision(o.value, a.wall);
      if due.None? || !ValidTarget(controls.rows, hub, a.(wall := laterWall, mono := laterMono)) {
        return Ok(None);
      }
      controls.rows := controls.rows[a.job := Reserve(controls.rows[a.job], SourceOf(a), a.minted, a.wall, due)];
      r := Ok(Some(a.minted));
    }

    method ClaimRead(hub: Hub, evidence: Evidence, job: JobId, worker: string, token: Token, now: Wall)
      returns (r: Result<Option<Control>>)
      modifies this, controls
      ensures var spec := ClaimForIngress(old(controls.rows), old(assessments), hub, evidence, job, worker, token, now);
              && r.Ok? == spec.Ok?
              && (r.Ok? ==> r.value == spec.value.granted && controls.rows == spec.value.rows
                            && assessments == spec.value.assessments)
              && (r.Err? ==> controls.rows == old(controls.rows) && assessments == old(assessments))
    {
      var saved := controls.rows;
      controls.BindCoveringStops(hub);
      if !HasTarget(controls.rows, evidence, job) || job !in hub.jobs
         || hub.jobs[job].status != Indeterminate || hub.jobs[job].leaseToken.Some?
         || !CoherentTarget(controls.rows, hub, job) || PendingStop(hub, job) {
        return Ok(None);
      }
      var o := A.Assess(PriorRow(assessments, job), InputsFor(controls.rows, evidence, job), now);
      if o.Err? {
        controls.rows := saved;
        return Err(o.message);
      }
      assessments := assessments[job := o.value.row];
      if DueRevision(o.value, now).None? {
        return Ok(None);
      }
      var granted := controls.AllocateRead(job, worker, token, now);
      r := Ok(granted);
    }
  }
}
