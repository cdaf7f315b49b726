/**
 * What each permission transaction and each look into the consent cache needs
 * and leaves, over the rows, the launch and the facts alone.
 */
module PermissionRules {
  import opened Wrappers
  import opened PermissionJournal
  import opened BashGrants
  import opened PermissionHost

  // ----- binding -----

  /** The job's checkpoint is unfinished, its execution has begun, and no stop of its topic is pending or newer. */
  predicate Unstopped(f: Facts) {
    && f.completed == Some(false) && f.snapshot.Some? && f.snapshot.value.started.Some?
    && forall i :: 0 <= i < |f.stops| && f.stops[i].topic == f.snapshot.value.topic ==>
        !f.stops[i].pending && f.stops[i].created < f.snapshot.value.started.value
  }

  lemma BoundIff(f: Facts, job: string, lease: string, session: string, root: string)
    ensures Bound(f, job, lease, session, root)
         == if Unstopped(f) then Some(Binding(job, lease, session, root, f.snapshot.value)) else None
  {
  }

  /** A job has at most one launch ever, under a new epoch, bound to what holds now. */
  lemma OpenedIff(j: Journal, f: Facts, job: string, lease: string, session: string, root: string, profile: Profile,
                  epoch: string)
    ensures var r := Opened(j, f, job, lease, session, root, profile, epoch);
            && (r.Ok? <==> Unstopped(f) && epoch !in j.launches
                           && forall e :: e in j.launches ==> j.launches[e].job != job)
            && (r.Ok? ==>
                  var binding := Binding(job, lease, session, root, f.snapshot.value);
                  && r.value.0 == Journal(j.launches[epoch := LaunchRow(job, binding, true)], j.requests)
                  && r.value.1 == Launch(epoch, job, lease, session, root, binding.snapshot.generation, binding,
                                         profile))
  {
    BoundIff(f, job, lease, session, root);
  }

  /** The launch is open and everything it was bound to still holds. */
  predicate StillCurrent(j: Journal, f: Facts, l: Launch) {
    && Unstopped(f)
    && l.binding == Binding(l.job, l.lease, l.session, l.root, f.snapshot.value)
    && l.generation == f.snapshot.value.generation
    && l.epoch in j.launches && j.launches[l.epoch] == LaunchRow(l.job, l.binding, true)
  }

  lemma CurrentIff(j: Journal, f: Facts, l: Launch)
    ensures Current(j, f, l) <==> StillCurrent(j, f, l)
  {
    BoundIff(f, l.job, l.lease, l.session, l.root);
  }

  // ----- requests -----

  /** A request is recorded once, for a tool of its profile, within a week and within the launch's 128. */
  lemma PreparedIff(j: Journal, f: Facts, l: Launch, nonce: string, event: string, tool: string, input: string,
                    now: int, seconds: int)
    ensures var r := Prepared(j, f, l, nonce, event, tool, input, now, seconds);
            && (r.Ok? <==>
                && MayUse(l.profile, tool) && 1 <= seconds <= 604_800
                && StillCurrent(j, f, l)
                && |Requests(j, l.epoch)| <= 127 && nonce !in j.requests)
            && (r.Ok? ==>
                  var expires := now + seconds * 1000;
                  var payload := Payload(nonce, l.job, l.session, l.generation, l.root, l.lease, l.epoch, tool, input,
                                         expires);
                  && r.value.1 == payload
                  && r.value.0 == Journal(j.launches,
                                          j.requests[nonce := RequestRow(l.epoch, payload, event, expires, Pending)]))
  {
    CurrentIff(j, f, l);
  }

  /** A decision is taken exactly from the pending, unexpired row of this very payload, and only its status changes. */
  lemma ConsumedIff(j: Journal, f: Facts, l: Launch, payload: Payload, allow: bool, now: int)
    ensures var r := Consumed(j, f, l, payload, allow, now);
            && (r.Ok? <==>
                && StillCurrent(j, f, l) && payload.nonce in j.requests
                && exists event, expires :: j.requests[payload.nonce]
                                            == RequestRow(l.epoch, payload, event, expires, Pending)
                                            && now < expires)
            && (r.Ok? ==>
                  var status := if allow then Allow else Deny;
                  r.value == Journal(j.launches,
                                     j.requests[payload.nonce := j.requests[payload.nonce].(status := status)]))
  {
    CurrentIff(j, f, l);
    if payload.nonce in j.requests {
      var row := j.requests[payload.nonce];
      assert row == RequestRow(row.epoch, row.payload, row.event, row.expires, row.status);
    }
  }

  /** Revoking touches only this launch's own request, and only while it is pending. */
  lemma RevokedExactly(j: Journal, l: Launch, nonce: string)
    ensures var after := RequestRevoked(j, l, nonce);
            && after.launches == j.launches && after.requests.Keys == j.requests.Keys
            && forall n :: n in j.requests ==>
                after.requests[n] == if n == nonce && j.requests[n].epoch == l.epoch && j.requests[n].status == Pending
                                     then j.requests[n].(status := Revoked) else j.requests[n]
  {
  }

  /** Closing a launch revokes exactly what is pending in it. */
  lemma ClosedExactly(j: Journal, epoch: string)
    ensures var after := Closed(j, epoch);
            && after.launches.Keys == j.launches.Keys && after.requests.Keys == j.requests.Keys
            && (forall e :: e in j.launches ==>
                  after.launches[e] == if e == epoch then j.launches[e].(active := false) else j.launches[e])
            && forall n :: n in j.requests ==>
                after.requests[n] == if j.requests[n].epoch == epoch && j.requests[n].status == Pending
                                     then j.requests[n].(status := Revoked) else j.requests[n]
  {
  }

  // ----- consent without a question -----

  /** What a consent is for. */
  function ConsentScope(h: Hook): Scope {
    Scope(h.launch.root, h.launch.session, h.launch.generation, h.owner)
  }

  /** A hook is granted on arrival exactly for a workstation's Bash, or a developer's that is remembered. */
  lemma GrantedOnArrivalIff(w: World, id: nat, h: Hook)
    requires !h.granted
    ensures var after := Arrived(w, id, h);
            && id in after.hooks
            && after.hooks == w.hooks[id := h.(granted := after.hooks[id].granted)]
            && after.journal == w.journal && after.history == w.history
            && after.grants == (if h.tool == "Bash" && h.launch.profile == Developer && !after.hooks[id].granted
                                then Without(w.grants, ConsentScope(h)) else w.grants)
            && (after.hooks[id].granted <==>
                && h.tool == "Bash"
                && (h.launch.profile == Workstation
                    || (h.launch.profile == Developer && (ConsentScope(h), h.tlive) in w.grants)))
  {
  }

  /** Whoever was granted is not asked, and everybody else is. */
  lemma AskedIffNotGranted(w: World, id: nat, f: Facts, now: int)
    requires id in w.hooks
    ensures var h, after := w.hooks[id], AfterPrepare(w, id, f, now);
            var r := Prepared(w.journal, f, h.launch, h.nonce, h.event, h.tool, h.input, now, 604_800);
            && id in after.hooks
            && (r.Err? ==> after.hooks[id].stage == Failing && after.journal == w.journal)
            && (r.Ok? ==>
                  && after.journal == r.value.0
                  && after.hooks[id].stage == if h.granted then Deciding(r.value.1) else Asking(r.value.1))
  {
  }

  /** A failed hook has its pending request revoked, where that can be written, and is answered with a deny. */
  lemma FailedHookIsDenied(w: World, id: nat, written: bool)
    requires id in w.hooks && w.hooks[id].stage.Failing?
    ensures Enabled(w, Revoke(id, written))
    ensures var h, after := w.hooks[id], Next(w, Revoke(id, written));
            && after.hooks == w.hooks[id := h.(stage := Answering(false))]
            && after.journal == (if written then RequestRevoked(w.journal, h.launch, h.nonce) else w.journal)
            && after.grants == w.grants && after.history == w.history
  {
  }

  /** Anything short of an answer can fail, and an answer is sent as it stands, once. */
  lemma FailingAndSending(w: World, id: nat)
    requires id in w.hooks
    ensures Enabled(w, Fail(id)) <==> !w.hooks[id].stage.Answering?
    ensures Enabled(w, Fail(id)) ==> Next(w, Fail(id)) == w.(hooks := w.hooks[id := w.hooks[id].(stage := Failing)])
    ensures Enabled(w, Send(id)) <==> w.hooks[id].stage.Answering?
    ensures Enabled(w, Send(id)) ==>
              Next(w, Send(id)) == w.(hooks := w.hooks - {id},
                                      history := w.history + [Reply(w.hooks[id], w.hooks[id].stage.allow)])
  {
  }

  /** A restart forgets every consent and every hook, and nothing durable. */
  lemma RestartForgets(w: World)
    ensures Next(w, Restart) == World(w.journal, [], map[], w.history)
  {
  }

  lemma {:induction false} WithoutKeepsOrder<K, E>(g: Grants<K, E>, more: Grants<K, E>, scope: K)
    ensures g == [] ==> Without(g, scope) == []
    ensures Without(g + more, scope) == Without(g, scope) + Without(more, scope)
    ensures |g| == 1 ==> Without(g, scope) == if g[0].0 == scope then [] else g
  {
    if g == [] {
      assert g + more == more;
    } else {
      assert (g + more)[1..] == g[1..] + more;
      WithoutKeepsOrder(g[1..], more, scope);
    }
  }

  /** A consent replaces the scope's earlier one and stands last; only a 257th makes the oldest give way. */
  lemma RememberedExactly<K, E>(g: Grants<K, E>, scope: K, epoch: E)
    requires |g| <= 256
    ensures var others := Without(g, scope);
            Remembered(g, scope, epoch) == (if |others| == 256 then others[1..] else others) + [(scope, epoch)]
  {
    WithoutExactly(g, scope);
  }

  /** A look finds exactly what is remembered under the epoch asked for; a consent of another epoch is forgotten. */
  lemma LookedExactly<K, E>(g: Grants<K, E>, scope: K, epoch: E)
    ensures var (hit, after) := Looked(g, scope, epoch);
            && (hit <==> exists k :: 0 <= k < |g| && g[k] == (scope, epoch))
            && after == if hit then g else Without(g, scope)
  {
  }
}
