/** The three-cycle read allowance shared by owner stops and ingress precautions, along whole runs. */
module LateReads {
  import opened Wrappers
  import opened Identifiers
  import opened ControlRows
  import opened TurnControls
  import opened ControlProtocol
  import IngressControl

  /** Wall-clock times of the claims granted on one job by the first n steps. */
  function ClaimTimes(steps: seq<Step>, n: nat, job: JobId): seq<Wall>
    requires n <= |steps|
  {
    if n == 0 then []
    else if steps[n - 1].ClaimRead? && steps[n - 1].job == job then ClaimTimes(steps, n - 1, job) + [steps[n - 1].now]
    else ClaimTimes(steps, n - 1, job)
  }

  predicate Spaced(times: seq<Wall>) {
    forall k, l :: 0 <= k < l < |times| ==> times[k] + 30 * SECOND <= times[l]
  }

  /** The row remembers every claim: the count, and a next-read time no claim can undercut. */
  predicate Remembers(rows: Controls, job: JobId, times: seq<Wall>) {
    times != [] ==>
      && job in rows && |times| <= rows[job].attempts
      && rows[job].nextRead.Some?
      && forall k :: 0 <= k < |times| ==> times[k] + 30 * SECOND <= rows[job].nextRead.value
  }

  lemma ClaimExtends(before: Control, worker: string, token: Token, now: Wall, times: seq<Wall>)
    requires Allocate(before, worker, token, now).Some? && Spaced(times)
    requires times != [] ==> |times| <= before.attempts && before.nextRead.Some?
    requires forall k :: 0 <= k < |times| ==> times[k] + 30 * SECOND <= before.nextRead.value
    ensures var after := Allocate(before, worker, token, now).value; var more := times + [now];
            && Spaced(more) && |more| <= after.attempts && after.nextRead == Some(now + 30 * SECOND)
            && forall k :: 0 <= k < |more| ==> more[k] + 30 * SECOND <= after.nextRead.value
  {
  }

  lemma {:induction false} RowsRememberClaims(states: seq<System>, steps: seq<Step>, n: nat, job: JobId)
    requires Run(states, steps) && n < |states|
    ensures Spaced(ClaimTimes(steps, n, job)) && Remembers(states[n].rows, job, ClaimTimes(steps, n, job))
  {
    if n > 0 {
      RowsRememberClaims(states, steps, n - 1, job);
      var s, step := states[n - 1], steps[n - 1];
      var times := ClaimTimes(steps, n - 1, job);
      if step.ClaimRead? && step.job == job {
        assert Enabled(s, step) && states[n] == Do(s, step);
        ClaimExtends(s.rows[job], step.worker, step.token, step.now, times);
      } else {
        StepRetains(states, steps, n);
        assert job in s.rows ==> UpdateAllowed(s.rows[job], states[n].rows[job]);
      }
    }
  }

  /**
   * Whatever the clock does and whichever callers claim: at most three reads,
   * each at least thirty seconds after the one before, so that every earlier
   * claim has expired when a later one is granted.
   */
  lemma AtMostThreeSpacedReads(states: seq<System>, steps: seq<Step>, n: nat, job: JobId)
    requires Run(states, steps) && n < |states|
    ensures var times := ClaimTimes(steps, n, job);
            |times| <= 3 && forall k, l :: 0 <= k < l < |times| ==> times[k] + 30 * SECOND <= times[l]
  {
    RowsRememberClaims(states, steps, n, job);
    RunKeepsInv(states, steps, n);
    assert job in states[n].rows ==> RowChecks(states[n].rows[job]);
  }

  /** The owner-stop claim transaction is a path of the protocol: binding, then perhaps one claim. */
  lemma StopClaimIsAPath(s: System, hub: Hub, worker: string, agent: string, token: Token, now: Wall,
                         claimed: Option<JobId>, after: Controls) returns (steps: seq<Step>)
    requires LateReadClaimed(s.rows, hub, worker, agent, token, now, claimed, after)
    ensures Path(s, steps) && End(s, steps) == s.(rows := after)
    ensures claimed.Some? ==> steps == [BindStops(hub), ClaimRead(claimed.value, worker, token, now)]
    ensures claimed.None? ==> steps == [] || steps == [BindStops(hub)]
  {
    var bound := s.(rows := Bind(s.rows, hub));
    if claimed.Some? {
      DueIsAllocated(bound.rows, hub, worker, agent, token, now, claimed.value);
      TwoSteps(s, BindStops(hub), ClaimRead(claimed.value, worker, token, now));
      steps := [BindStops(hub), ClaimRead(claimed.value, worker, token, now)];
    } else if after == bound.rows {
      OneStep(s, BindStops(hub));
      steps := [BindStops(hub)];
    } else {
      steps := [];
    }
  }

  lemma DueIsAllocated(rows: Controls, hub: Hub, worker: string, agent: string, token: Token, now: Wall, job: JobId)
    requires LateDue(rows, hub, agent, now, job)
    ensures job in rows
    ensures Allocate(rows[job], worker, token, now) ==
            Some(rows[job].(attempts := rows[job].attempts + 1, nextRead := Some(now + 30 * SECOND),
                            claim := Some(Claim(token, worker, now + 30 * SECOND))))
  {
  }

  /** So is the ingress claim transaction, whatever its assessment decides. */
  lemma IngressClaimIsAPath(s: System, assessments: map<JobId, IngressControl.A.Row>, hub: Hub,
                            evidence: IngressControl.Evidence, job: JobId, worker: string, token: Token, now: Wall)
    returns (steps: seq<Step>)
    requires IngressControl.ClaimForIngress(s.rows, assessments, hub, evidence, job, worker, token, now).Ok?
    ensures var c := IngressControl.ClaimForIngress(s.rows, assessments, hub, evidence, job, worker, token, now).value;
            && Path(s, steps) && End(s, steps) == s.(rows := c.rows)
            && steps == if c.granted.Some? then [BindStops(hub), ClaimRead(job, worker, token, now)]
                else [BindStops(hub)]
  {
    hide IngressControl.A.Assess, IngressControl.HasTarget, CoherentTarget;
    var c := IngressControl.ClaimForIngress(s.rows, assessments, hub, evidence, job, worker, token, now).value;
    if c.granted.Some? {
      GrantedIsAllocated(s.rows, assessments, hub, evidence, job, worker, token, now);
      TwoSteps(s, BindStops(hub), ClaimRead(job, worker, token, now));
      steps := [BindStops(hub), ClaimRead(job, worker, token, now)];
    } else {
      OneStep(s, BindStops(hub));
      steps := [BindStops(hub)];
    }
  }

  lemma GrantedIsAllocated(rows: Controls, assessments: map<JobId, IngressControl.A.Row>, hub: Hub,
                           evidence: IngressControl.Evidence, job: JobId, worker: string, token: Token, now: Wall)
    requires var c := IngressControl.ClaimForIngress(rows, assessments, hub, evidence, job, worker, token, now);
             c.Ok? && c.value.granted.Some?
    ensures var c := IngressControl.ClaimForIngress(rows, assessments, hub, evidence, job, worker, token, now).value;
            && job in Bind(rows, hub) && Allocate(Bind(rows, hub)[job], worker, token, now) == c.granted
            && c.rows == Bind(rows, hub)[job := c.granted.value]
  {
    hide IngressControl.A.Assess, CoherentTarget;
  }
}
