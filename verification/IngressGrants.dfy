/** When an ingress precaution or an ingress read is granted, over the tables and the evidence alone. */
module IngressGrants {
  import opened Wrappers
  import opened Identifiers
  import opened ControlRows
  import opened TurnControls
  import opened IngressReservation
  import opened InterruptAuthority
  import opened IngressControl
  import A = IngressAssessments

  /** The turn was accepted as a precaution target. */
  predicate Targeted(rows: Controls, evidence: IngressControl.Evidence, job: JobId) {
    job in evidence.targets && job in rows && rows[job].accepted && rows[job].acceptedAt.Some?
  }

  lemma BindingKeepsTargets(rows: Controls, hub: Hub, evidence: IngressControl.Evidence, job: JobId)
    ensures HasTarget(Bind(rows, hub), evidence, job) <==> Targeted(rows, evidence, job)
    ensures Targeted(rows, evidence, job) ==>
              InputsFor(Bind(rows, hub), evidence, job)
              == var identity := evidence.targets[job];
                 A.Inputs(identity, rows[job].acceptedAt.value,
                          if identity in evidence.entries then Some(evidence.entries[identity]) else None)
  {
  }

  /** The assessment of the job as of now, if its turn is a precaution target. */
  function Assessed(rows: Controls, assessments: map<JobId, A.Row>, evidence: IngressControl.Evidence, job: JobId,
                    now: Wall): Result<A.Outcome>
  {
    if !Targeted(rows, evidence, job) then Err("no target")
    else
      var identity := evidence.targets[job];
      A.Assess(if job in assessments then Some(assessments[job]) else None,
               A.Inputs(identity, rows[job].acceptedAt.value,
                        if identity in evidence.entries then Some(evidence.entries[identity]) else None), now)
  }

  /** The assessment stands, and its episode's deadline has passed. */
  predicate Overdue(assessed: Result<A.Outcome>, now: Wall) {
    assessed.Ok? && assessed.value.result.episode.Some? && assessed.value.result.episode.value.deadline <= now
  }

  lemma DueIffOverdue(o: A.Outcome, now: Wall)
    ensures DueRevision(o, now).Some? <==> Overdue(Ok(o), now)
    ensures DueRevision(o, now).Some? ==> DueRevision(o, now) == Some(o.row.revision)
  {
  }

  /**
   * A precaution is granted if and only if no stop is pending for the job, its target's assessment made
   * now is overdue, and the turn's whole authority stands before and after assessing. The assessment
   * is kept whenever it was made.
   */
  lemma FencedIff(rows: Controls, assessments: map<JobId, A.Row>, hub: Hub, evidence: IngressControl.Evidence,
                  a: Attempt, laterWall: Wall, laterMono: real)
    ensures var r := FenceForIngress(rows, assessments, hub, evidence, a, laterWall, laterMono);
            var assessed := Assessed(rows, assessments, evidence, a.job, a.wall);
            var reached := Uncovered(hub, a.job) && Targeted(rows, evidence, a.job) && Authorized(rows, hub, a);
            && (r.Ok? <==> a.invocation.None? != a.readClaim.None? && (reached ==> assessed.Ok?))
            && (r.Ok? ==>
                  && (r.value.reservation.owner.Some? <==>
                      && reached && Overdue(assessed, a.wall)
                      && Authorized(rows, hub, a.(wall := laterWall, mono := laterMono)))
                  && r.value.assessments == if reached then assessments[a.job := assessed.value.row] else assessments)
  {
    hide Authorized, ValidTarget, A.Assess, Bind, HasTarget, Targeted, Uncovered;
    var bound := Bind(rows, hub);
    if a.invocation.None? != a.readClaim.None? {
      ValidIffAuthorized(bound, hub, a);
    }
    BindingChangesNoAuthority(rows, hub, a);
    BindingKeepsTargets(rows, hub, evidence, a.job);
    AuthorizedMeans(rows, hub, a);
    PendingIffCovered(hub, a.job);
    if Assessed(rows, assessments, evidence, a.job, a.wall).Ok? {
      var o := Assessed(rows, assessments, evidence, a.job, a.wall).value;
      DueIffOverdue(o, a.wall);
      PrecautionIffAuthorized(rows, hub, a, Ingress(true, DueRevision(o, a.wall), laterWall, laterMono));
    }
  }

  /**
   * An ingress read is granted if and only if the abandoned turn is a target, its tables still stand,
   * no stop is pending, its assessment made now is overdue, and the shared allowance has a read left.
   */
  lemma ReadIff(rows: Controls, assessments: map<JobId, A.Row>, hub: Hub, evidence: IngressControl.Evidence,
                job: JobId, worker: string, token: Token, now: Wall)
    ensures var r := ClaimForIngress(rows, assessments, hub, evidence, job, worker, token, now);
            var assessed := Assessed(rows, assessments, evidence, job, now);
            var reached := Targeted(rows, evidence, job) && TargetStands(rows, hub, job) && Uncovered(hub, job)
                           && hub.jobs[job].status == Indeterminate && hub.jobs[job].leaseToken.None?;
            && (r.Ok? <==> (reached ==> assessed.Ok?))
            && (r.Ok? ==>
                  var c := r.value;
                  && c.assessments == (if reached then assessments[job := assessed.value.row] else assessments)
                  && c.granted == (if reached && Overdue(assessed, now)
                                   then Allocate(Bind(rows, hub)[job], worker, token, now) else None)
                  && c.rows == if c.granted.Some? then Bind(rows, hub)[job := c.granted.value] else Bind(rows, hub))
  {
    hide CoherentTarget, A.Assess, Bind, HasTarget, Targeted, Uncovered, TargetStands, Allocate;
    var bound := Bind(rows, hub);
    BindingKeepsTargets(rows, hub, evidence, job);
    TargetedMeans(bound, rows, hub, evidence, job);
    BindingKeepsStanding(rows, hub, job);
    StandsIn(rows, hub, job);
    if job in bound && job in hub.jobs {
      CoherentIffStands(bound, hub, job);
    }
    PendingIffCovered(hub, job);
    if Assessed(rows, assessments, evidence, job, now).Ok? {
      DueIffOverdue(Assessed(rows, assessments, evidence, job, now).value, now);
    }
  }

  lemma TargetedMeans(bound: Controls, rows: Controls, hub: Hub, evidence: IngressControl.Evidence, job: JobId)
    requires bound == Bind(rows, hub)
    ensures HasTarget(bound, evidence, job) ==> job in bound && job in rows
    ensures bound.Keys == rows.Keys
  {
  }

  lemma BindingKeepsStanding(rows: Controls, hub: Hub, job: JobId)
    ensures TargetStands(Bind(rows, hub), hub, job) <==> TargetStands(rows, hub, job)
  {
    var bound := Bind(rows, hub);
    if job in rows {
      SameSaved(rows, bound, hub, rows[job].target.topic);
    }
  }
}
