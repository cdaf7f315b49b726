/** Durable custody of one Claude launch and its single-use permission requests. */
module PermissionJournal {
  import opened Wrappers

  const MAX_REQUESTS: nat := 128
  const HUMAN_SECONDS: int := 604800

  datatype Profile = Editor | Developer | Workstation

  predicate ToolAllowed(p: Profile, tool: string) {
    tool in {"Read", "Glob", "Grep", "Write", "Edit"} || (tool == "Bash" && p != Editor)
  }

  datatype Snapshot = Snapshot(topic: int, generation: int, started: Option<int>, rest: string)
  datatype Stop = Stop(topic: int, pending: bool, created: int)

  /**
   * What the other tables say of a job inside one transaction: whether its
   * checkpoint is complete (None when job, lease, session or root no longer
   * match it), its binding snapshot, and the stop requests.
   */
  datatype Facts = Facts(completed: Option<bool>, snapshot: Option<Snapshot>, stops: seq<Stop>)

  /** The binding digest is injective, so it is what it digests. */
  datatype Binding = Binding(job: string, lease: string, session: string, root: string, snapshot: Snapshot)

  datatype Launch = Launch(epoch: string, job: string, lease: string, session: string, root: string,
                           generation: int, binding: Binding, profile: Profile)

  datatype Payload = Payload(nonce: string, job: string, session: string, generation: int, root: string, lease: string,
                             epoch: string, tool: string, input: string, expires: int)

  datatype Status = Pending | Allow | Deny | Revoked
  datatype LaunchRow = LaunchRow(job: string, binding: Binding, active: bool)
  datatype RequestRow = RequestRow(epoch: string, payload: Payload, event: string, expires: int, status: Status)
  datatype Journal = Journal(launches: map<string, LaunchRow>, requests: map<string, RequestRow>)

  predicate Stopped(f: Facts, s: Snapshot)
    requires s.started.Some?
  {
    exists i :: 0 <= i < |f.stops| && f.stops[i].topic == s.topic
        && (f.stops[i].pending || f.stops[i].created >= s.started.value)
  }

  function Bound(f: Facts, job: string, lease: string, session: string, root: string): Option<Binding> {
    if f.completed != Some(false) || f.snapshot.None? || f.snapshot.value.started.None?
       || Stopped(f, f.snapshot.value)
    then None
    else Some(Binding(job, lease, session, root, f.snapshot.value))
  }

  function Opened(j: Journal, f: Facts, job: string, lease: string, session: string, root: string, profile: Profile,
                  epoch: string)
    : Result<(Journal, Launch)>
  {
    var bound := Bound(f, job, lease, session, root);
    if bound.None? then Err("Claude permission launch is not bound")
    else if epoch in j.launches || exists e :: e in j.launches && j.launches[e].job == job then
      Err("Claude permission launch cannot be replayed")
    else
      Ok((j.(launches := j.launches[epoch := LaunchRow(job, bound.value, true)]),
          Launch(epoch, job, lease, session, root, bound.value.snapshot.generation, bound.value, profile)))
  }

  /** _current: the launch's row is active, and everything it was bound to still is. */
  predicate Current(j: Journal, f: Facts, l: Launch) {
    var bound := Bound(f, l.job, l.lease, l.session, l.root);
    && bound.Some?
    && l.epoch in j.launches && j.launches[l.epoch] == LaunchRow(l.job, bound.value, true)
    && bound.value == l.binding && bound.value.snapshot.generation == l.generation
  }

  function Requests(j: Journal, epoch: string): set<string> {
    set n | n in j.requests && j.requests[n].epoch == epoch
  }

  function PayloadOf(l: Launch, nonce: string, tool: string, input: string, expires: int): Payload {
    Payload(nonce, l.job, l.session, l.generation, l.root, l.lease, l.epoch, tool, input, expires)
  }

  function Prepared(j: Journal, f: Facts, l: Launch, nonce: string, event: string, tool: string, input: string,
                    now: int, seconds: int)
    : Result<(Journal, Payload)>
  {
    var payload := PayloadOf(l, nonce, tool, input, now + seconds * 1000);
    if !ToolAllowed(l.profile, tool) || !(1 <= seconds <= HUMAN_SECONDS)
    then Err("Claude permission tool or deadline is unsupported")
    else if !Current(j, f, l) then Err("Claude permission launch binding changed")
    else if |Requests(j, l.epoch)| >= MAX_REQUESTS then Err("Claude permission request limit reached")
    else if nonce in j.requests then Err("Claude permission nonce was already used")
    else
      Ok((j.(requests := j.requests[nonce := RequestRow(l.epoch, payload, event, payload.expires, Pending)]), payload))
  }

  predicate Consumable(j: Journal, f: Facts, l: Launch, payload: Payload, now: int) {
    && Current(j, f, l)
    && payload.nonce in j.requests
    && var row := j.requests[payload.nonce];
       row.epoch == l.epoch && row.payload == payload && row.status == Pending && row.expires > now
  }

  function Consumed(j: Journal, f: Facts, l: Launch, payload: Payload, allow: bool, now: int): Result<Journal> {
    if !Consumable(j, f, l, payload, now) then Err("Claude permission receipt is stale or already consumed")
    else
      var status := if allow then Allow else Deny;
      Ok(j.(requests := j.requests[payload.nonce := j.requests[payload.nonce].(status := status)]))
  }

  function RequestRevoked(j: Journal, l: Launch, nonce: string): Journal {
    if nonce in j.requests && j.requests[nonce].epoch == l.epoch && j.requests[nonce].status == Pending
    then j.(requests := j.requests[nonce := j.requests[nonce].(status := Revoked)])
    else j
  }

  function RowAtClose(row: RequestRow, epoch: string): RequestRow {
    if row.epoch == epoch && row.status == Pending then row.(status := Revoked) else row
  }

  function Closed(j: Journal, epoch: string): Journal {
    Journal(
      if epoch in j.launches then j.launches[epoch := j.launches[epoch].(active := false)] else j.launches,
      map n | n in j.requests :: RowAtClose(j.requests[n], epoch))
  }

  predicate RowOk(j: Journal, n: string)
    requires n in j.requests
  {
    var row := j.requests[n];
    && row.epoch in j.launches
    && (row.status == Pending ==> j.launches[row.epoch].active)
    && row.payload.nonce == n && row.payload.epoch == row.epoch && row.payload.expires == row.expires
  }

  ghost predicate JournalOk(j: Journal) {
    && (forall n :: n in j.requests ==> RowOk(j, n))
    && (forall a, b :: a in j.launches && b in j.launches && j.launches[a].job == j.launches[b].job ==> a == b)
    && (forall e :: |Requests(j, e)| <= MAX_REQUESTS)
  }

  /**
   * Rows are never deleted or rewritten, a request settles and a launch closes at most once, and
   * new requests need an open launch.
   */
  ghost predicate Extends(after: Journal, before: Journal) {
    && (forall n :: n in before.requests ==>
          && n in after.requests
          && after.requests[n] == before.requests[n].(status := after.requests[n].status)
          && (before.requests[n].status != Pending ==> after.requests[n] == before.requests[n]))
    && (forall e :: e in before.launches ==>
          && e in after.launches
          && after.launches[e] == before.launches[e].(active := after.launches[e].active)
          && (after.launches[e].active ==> before.launches[e].active))
    && (forall n :: n in after.requests && n !in before.requests && after.requests[n].epoch in before.launches ==>
          before.launches[after.requests[n].epoch].active)
  }

  /** A closed launch has nothing pending, and nothing ever turns to allow in it again. */
  lemma ClosedIsFinal(before: Journal, after: Journal, epoch: string)
    requires JournalOk(before) && JournalOk(after) && Extends(after, before)
    requires epoch in before.launches && !before.launches[epoch].active
    ensures forall n :: n in after.requests && after.requests[n].epoch == epoch ==> after.requests[n].status != Pending
    ensures forall n :: n in after.requests && after.requests[n].epoch == epoch ==>
              n in before.requests && after.requests[n] == before.requests[n]
  {
    forall n | n in after.requests && after.requests[n].epoch == epoch
      ensures after.requests[n].status != Pending
    {
      assert RowOk(after, n);
    }
    forall n | n in after.requests && after.requests[n].epoch == epoch
      ensures n in before.requests && after.requests[n] == before.requests[n]
    {
      assert n in before.requests ==> RowOk(before, n);
    }
  }

  lemma SameRequests(a: Journal, b: Journal, e: string)
    requires a.requests.Keys == b.requests.Keys
    requires forall n :: n in a.requests ==> a.requests[n].epoch == b.requests[n].epoch
    ensures Requests(a, e) == Requests(b, e)
  {
  }

  lemma OpenKeeps(j: Journal, f: Facts, job: string, lease: string, session: string, root: string, profile: Profile,
                  epoch: string)
    requires JournalOk(j)
    ensures var r := Opened(j, f, job, lease, session, root, profile, epoch);
            r.Ok? ==> JournalOk(r.value.0) && Extends(r.value.0, j) && Current(r.value.0, f, r.value.1)
  {
    var r := Opened(j, f, job, lease, session, root, profile, epoch);
    if r.Ok? {
      forall n | n in j.requests
        ensures RowOk(r.value.0, n)
      {
        assert RowOk(j, n);
      }
      forall e
        ensures |Requests(r.value.0, e)| <= MAX_REQUESTS
      {
        SameRequests(r.value.0, j, e);
      }
    }
  }

  lemma PrepareKeeps(j: Journal, f: Facts, l: Launch, nonce: string, event: string, tool: string, input: string,
                     now: int, seconds: int)
    requires JournalOk(j)
    ensures var r := Prepared(j, f, l, nonce, event, tool, input, now, seconds);
            r.Ok? ==> JournalOk(r.value.0) && Extends(r.value.0, j)
  {
    var payload := PayloadOf(l, nonce, tool, input, now + seconds * 1000);
    if Prepared(j, f, l, nonce, event, tool, input, now, seconds).Ok? {
      RowAdded(j, nonce, RequestRow(l.epoch, payload, event, payload.expires, Pending));
    }
  }

  lemma RowAdded(j: Journal, nonce: string, row: RequestRow)
    requires JournalOk(j) && nonce !in j.requests && |Requests(j, row.epoch)| < MAX_REQUESTS
    requires row.epoch in j.launches && j.launches[row.epoch].active
    requires row.payload.nonce == nonce && row.payload.epoch == row.epoch && row.payload.expires == row.expires
    ensures var after := j.(requests := j.requests[nonce := row]); JournalOk(after) && Extends(after, j)
  {
    var after := j.(requests := j.requests[nonce := row]);
    forall n | n in after.requests
      ensures RowOk(after, n)
    {
      assert n != nonce ==> RowOk(j, n);
    }
    forall e
      ensures |Requests(after, e)| <= MAX_REQUESTS
    {
      RequestsGrow(j, nonce, row, e);
    }
  }

  lemma RequestsGrow(j: Journal, nonce: string, row: RequestRow, e: string)
    requires nonce !in j.requests
    ensures |Requests(j.(requests := j.requests[nonce := row]), e)| ==
            |Requests(j, e)| + if e == row.epoch then 1 else 0
  {
    var after := j.(requests := j.requests[nonce := row]);
    if e == row.epoch {
      assert Requests(after, e) == Requests(j, e) + {nonce};
    } else {
      assert Requests(after, e) == Requests(j, e);
    }
  }

  lemma ConsumeKeeps(j: Journal, f: Facts, l: Launch, payload: Payload, allow: bool, now: int)
    requires JournalOk(j)
    ensures var r := Consumed(j, f, l, payload, allow, now); r.Ok? ==> JournalOk(r.value) && Extends(r.value, j)
  {
    var r := Consumed(j, f, l, payload, allow, now);
    if r.Ok? {
      RowsChanged(j, r.value);
    }
  }

  lemma RevokeKeeps(j: Journal, l: Launch, nonce: string)
    requires JournalOk(j)
    ensures JournalOk(RequestRevoked(j, l, nonce)) && Extends(RequestRevoked(j, l, nonce), j)
  {
    RowsChanged(j, RequestRevoked(j, l, nonce));
  }

  lemma RowsChanged(j: Journal, after: Journal)
    requires JournalOk(j) && after.launches == j.launches && after.requests.Keys == j.requests.Keys
    requires forall n :: n in j.requests ==>
               || after.requests[n] == j.requests[n]
               || (j.requests[n].status == Pending && after.requests[n].status != Pending
                   && after.requests[n] == j.requests[n].(status := after.requests[n].status))
    ensures JournalOk(after) && Extends(after, j)
  {
    forall n | n in after.requests
      ensures RowOk(after, n)
    {
      assert RowOk(j, n);
    }
    forall e
      ensures |Requests(after, e)| <= MAX_REQUESTS
    {
      SameRequests(after, j, e);
    }
  }

  lemma CloseKeeps(j: Journal, epoch: string)
    requires JournalOk(j)
    ensures JournalOk(Closed(j, epoch)) && Extends(Closed(j, epoch), j)
  {
    var after := Closed(j, epoch);
    CloseExtends(j, epoch);
    forall n | n in after.requests
      ensures RowOk(after, n)
    {
      assert RowOk(j, n);
    }
    forall e
      ensures |Requests(after, e)| <= MAX_REQUESTS
    {
      SameRequests(after, j, e);
    }
  }

  lemma CloseExtends(j: Journal, epoch: string)
    ensures Extends(Closed(j, epoch), j)
    ensures epoch in j.launches ==> !Closed(j, epoch).launches[epoch].active
  {
  }

  /** The journal over its two tables; every method is one immediate transaction. */
  class ClaudePermissionJournal {
    var launches: map<string, LaunchRow>
    var requests: map<string, RequestRow>

    function Contents(): Journal
      reads this
    {
      Journal(launches, requests)
    }

    constructor ()
      ensures Contents() == Journal(map[], map[]) && JournalOk(Contents())
    {
      launches, requests := map[], map[];
    }

    method OpenLaunch(f: Facts, job: string, lease: string, session: string, root: string, profile: Profile,
                      epoch: string)
      returns (r: Result<Launch>)
      requires JournalOk(Contents())
      modifies this
      ensures JournalOk(Contents()) && Extends(Contents(), old(Contents()))
      ensures var spec := Opened(old(Contents()), f, job, lease, session, root, profile, epoch);
              && (r.Ok? <==> spec.Ok?)
              && (spec.Ok? ==> (Contents(), r.value) == spec.value)
              && (spec.Err? ==> Contents() == old(Contents()))
    {
      OpenKeeps(Contents(), f, job, lease, session, root, profile, epoch);
      var bound := Bound(f, job, lease, session, root);
      if bound.None? || epoch in launches || exists e :: e in launches && launches[e].job == job {
        return Err("Claude permission launch cannot be replayed");
      }
      launches := launches[epoch := LaunchRow(job, bound.value, true)];
      r := Ok(Launch(epoch, job, lease, session, root, bound.value.snapshot.generation, bound.value, profile));
    }

    method Prepare(f: Facts, l: Launch, nonce: string, event: string, tool: string, input: string, now: int,
                   seconds: int)
      returns (r: Result<Payload>)
      requires JournalOk(Contents())
      modifies this`requests
      ensures JournalOk(Contents()) && Extends(Contents(), old(Contents()))
      ensures var spec := Prepared(old(Contents()), f, l, nonce, event, tool, input, now, seconds);
              && (r.Ok? <==> spec.Ok?)
              && (spec.Ok? ==> (Contents(), r.value) == spec.value)
              && (spec.Err? ==> Contents() == old(Contents()))
    {
      PrepareKeeps(Contents(), f, l, nonce, event, tool, input, now, seconds);
      if !ToolAllowed(l.profile, tool) || !(1 <= seconds <= HUMAN_SECONDS) {
        return Err("Claude permission tool or deadline is unsupported");
      }
      if !Current(Contents(), f, l) || |Requests(Contents(), l.epoch)| >= MAX_REQUESTS || nonce in requests {
        return Err("Claude permission request refused");
      }
      var payload := PayloadOf(l, nonce, tool, input, now + seconds * 1000);
      requests := requests[nonce := RequestRow(l.epoch, payload, event, payload.expires, Pending)];
      r := Ok(payload);
    }

    method Consume(f: Facts, l: Launch, payload: Payload, allow: bool, now: int) returns (ok: bool)
      requires JournalOk(Contents())
      modifies this`requests
      ensures JournalOk(Contents()) && Extends(Contents(), old(Contents()))
      ensures ok <==> Consumable(old(Contents()), f, l, payload, now)
      ensures ok ==> Ok(Contents()) == Consumed(old(Contents()), f, l, payload, allow, now)
      ensures !ok ==> Contents() == old(Contents())
    {
      ConsumeKeeps(Contents(), f, l, payload, allow, now);
      ok := Current(Contents(), f, l) && payload.nonce in requests
        && requests[payload.nonce].epoch == l.epoch && requests[payload.nonce].payload == payload
        && requests[payload.nonce].status == Pending && requests[payload.nonce].expires > now;
      if ok {
        requests := requests[payload.nonce := requests[payload.nonce].(status := if allow then Allow else Deny)];
      }
    }

    method RevokeRequest(l: Launch, nonce: string)
      requires JournalOk(Contents())
      modifies this`requests
      ensures JournalOk(Contents()) && Extends(Contents(), old(Contents()))
      ensures Contents() == RequestRevoked(old(Contents()), l, nonce)
    {
      RevokeKeeps(Contents(), l, nonce);
      if nonce in requests && requests[nonce].epoch == l.epoch && requests[nonce].status == Pending {
        requests := requests[nonce := requests[nonce].(status := Revoked)];
      }
    }

    method CloseLaunch(l: Launch)
      requires JournalOk(Contents())
      modifies this
      ensures JournalOk(Contents()) && Extends(Contents(), old(Contents()))
      ensures Contents() == Closed(old(Contents()), l.epoch)
    {
      CloseKeeps(Contents(), l.epoch);
      if l.epoch in launches {
        launches := launches[l.epoch := launches[l.epoch].(active := false)];
      }
      requests := map n | n in requests :: RowAtClose(requests[n], l.epoch);
    }
  }
}
