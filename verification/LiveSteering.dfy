/**
 * Same-turn steering by one live observer: each leased follow-up is started,
 * sent at most once and settled, across contention, failures and stops.
 */
module LiveSteering {
  import opened Wrappers

  /** One lease of one follow-up; a new lease carries a new token. */
  type Lease = nat

  datatype Operation = Begin | Release | Reject | Complete | Unknown
  datatype Pending = Pending(lease: Lease, operation: Operation)

  /**
   * How a state-only write ended. `executing` is what the started row says. A
   * Lost write was committed although the observer was told otherwise.
   */
  datatype Reply = Done(executing: bool) | Contention | Fault | Lost(executing: bool, contention: bool)

  /** The durable row of a lease: every write demands its status and its lease token. */
  datatype Row = Leased | Executing | Over

  /** What other parties write to leased rows: anything, except that an ended lease stays ended. */
  type Foreign = map<Lease, Row>

  function Rewritten(rows: map<Lease, Row>, foreign: Foreign): map<Lease, Row> {
    map lease | lease in rows :: if rows[lease] != Over && lease in foreign then foreign[lease] else rows[lease]
  }

  datatype Acquired = Client | NoClient | AcquireRejected | AcquireFailed
  datatype CallResult = Returned | RejectedByServer | CallFailed

  datatype Call = Call(lease: Lease, result: CallResult)
  datatype Settlement = Settlement(lease: Lease, operation: Operation)

  /**
   * Observer fields, and what it has done to the outside: leased rows, native calls, committed
   * settlements and writes it was told had failed.
   */
  datatype Observer = Observer(
    pending: Option<Pending>, rejected: bool, deferred: bool,
    rows: map<Lease, Row>, calls: seq<Call>, settled: seq<Settlement>, failed: seq<Settlement>)

  const IDLE := Observer(None, false, false, map[], [], [], [])

  function Interfered(o: Observer, foreign: Foreign): Observer {
    o.(rows := Rewritten(o.rows, foreign))
  }

  function Defer(o: Observer): Observer {
    o.(rejected := true, deferred := true)
  }

  datatype Outcome = Quiet | Ready(lease: Lease) | Raised(contention: bool)
  datatype Step = Step(observer: Observer, outcome: Outcome)

  /** Starting and releasing need a leased row, every other write an executing one. */
  predicate Admits(rows: map<Lease, Row>, p: Pending) {
    p.lease in rows && rows[p.lease] == if p.operation == Begin || p.operation == Release then Leased else Executing
  }

  /** A write whose row has moved on updates nothing and raises. */
  function Answer(rows: map<Lease, Row>, p: Pending, reply: Reply): Reply {
    if (reply.Done? || reply.Lost?) && !Admits(rows, p) then Fault else reply
  }

  /** What a commit does; a started follow-up executes, or a stop has ended its lease. */
  function Committed(o: Observer, p: Pending, executing: bool): Observer {
    if p.operation == Begin then o.(rows := o.rows[p.lease := if executing then Executing else Over])
    else o.(rows := o.rows[p.lease := Over], settled := o.settled + [Settlement(p.lease, p.operation)])
  }

  /** A failed completion becomes uncertainty; any other failed write is given up. */
  function Failed(o: Observer, p: Pending): Step {
    var told := o.(failed := o.failed + [Settlement(p.lease, p.operation)]);
    var after := if p.operation == Complete then Defer(told).(pending := Some(p.(operation := Unknown)))
                 else told.(pending := None);
    Step(after, Raised(false))
  }

  function Contended(o: Observer, p: Pending): Step {
    Step(o.(pending := Some(p)), Raised(true))
  }

  /** Shutdown gives a follow-up back instead of starting it. */
  function Retried(p: Pending, stopping: bool): Pending {
    if stopping && p.operation == Begin then p.(operation := Release) else p
  }

  /** _settle_pending: contention retries only the exact state write. */
  function Settle(o: Observer, stopping: bool, reply: Reply): Step {
    if o.pending.None? then Step(o, Quiet)
    else
      var p := Retried(o.pending.value, stopping);
      match Answer(o.rows, p, reply)
      case Contention => Contended(o, p)
      case Fault => Failed(o, p)
      case Lost(executing, contention) =>
        if contention then Contended(Committed(o, p, executing), p) else Failed(Committed(o, p, executing), p)
      case Done(executing) =>
        Step(Committed(o, p, executing).(pending := None),
             if p.operation == Begin && executing then Ready(p.lease) else Quiet)
  }

  /**
   * What the outside does during one poll. Only the observer's writes read a row, so the other parties' writes
   * before each of them stand for all of theirs, those around the native call included.
   */
  datatype Poll = Poll(stopped: bool, offered: Option<Lease>, stoppingAtStart: bool,
                       beforeStart: Foreign, start: Reply,
                       acquired: Acquired, stoppedBeforeCall: bool, call: CallResult,
                       beforeSettle: Foreign, settle: Reply)

  /** _invoke_steer up to its settlement: at most one native call, then one pending write. */
  function Invoked(o: Observer, lease: Lease, acquired: Acquired, stopped: bool, result: CallResult): Observer {
    match acquired
    case AcquireRejected => Defer(o).(pending := Some(Pending(lease, Reject)))
    case AcquireFailed => Defer(o).(pending := Some(Pending(lease, Reject)))
    case NoClient => o.(pending := Some(Pending(lease, Reject)))
    case Client =>
      if stopped then o.(pending := Some(Pending(lease, Reject)))
      else
        var called := o.(calls := o.calls + [Call(lease, result)]);
        match result
        case Returned => called.(pending := Some(Pending(lease, Complete)))
        case RejectedByServer => called.(rejected := true, pending := Some(Pending(lease, Reject)))
        case CallFailed => called.(rejected := true, pending := Some(Pending(lease, Unknown)))
  }

  function Invoke(o: Observer, lease: Lease, p: Poll): Step {
    var invoked := Invoked(o, lease, p.acquired, p.stoppedBeforeCall, p.call);
    Settle(Interfered(invoked, p.beforeSettle), false, p.settle)
  }

  function AfterStart(s: Step, p: Poll): Step {
    if s.outcome.Ready? then Invoke(s.observer, s.outcome.lease, p) else s
  }

  function Start(o: Observer, stopping: bool, p: Poll): Step {
    Settle(Interfered(o, p.beforeStart), stopping, p.start)
  }

  /** _steer. */
  function Steer(o: Observer, p: Poll): Step {
    if p.stopped then Step(o, Quiet)
    else if o.pending.Some? then AfterStart(Start(o, false, p), p)
    else if o.rejected || p.offered.None? then Step(o, Quiet)
    else
      var leased := o.(pending := Some(Pending(p.offered.value, Begin)), rows := o.rows[p.offered.value := Leased]);
      AfterStart(Start(leased, p.stoppingAtStart, p), p)
  }

  /** The polling loop: contention retries the next poll, any other failure is deferred. */
  function Caught(s: Step): Observer {
    if s.outcome.Raised? && !s.outcome.contention then Defer(s.observer) else s.observer
  }

  function PollOnce(o: Observer, p: Poll): Observer {
    Caught(Steer(o, p))
  }

  /** Shutdown: exactly one more state-only attempt. */
  function Shutdown(o: Observer, foreign: Foreign, reply: Reply): Observer {
    Caught(Settle(Interfered(o, foreign), true, reply))
  }

  // ----- invariant -----

  predicate NoCall(o: Observer, lease: Lease) {
    forall k :: 0 <= k < |o.calls| ==> o.calls[k].lease != lease
  }

  predicate Answered(o: Observer, lease: Lease, result: CallResult) {
    exists k :: 0 <= k < |o.calls| && o.calls[k] == Call(lease, result)
  }

  /** What an operation says about the native call of its lease. */
  predicate Justified(o: Observer, lease: Lease, operation: Operation) {
    match operation
    case Begin => NoCall(o, lease)
    case Release => NoCall(o, lease)
    case Reject => NoCall(o, lease) || Answered(o, lease, RejectedByServer)
    case Complete => Answered(o, lease, Returned)
    case Unknown =>
      Answered(o, lease, CallFailed) || (Answered(o, lease, Returned) && Settlement(lease, Complete) in o.failed)
  }

  ghost predicate Inv(o: Observer) {
    && (forall k :: 0 <= k < |o.calls| ==> o.calls[k].lease in o.rows)
    && (forall k, l :: 0 <= k < l < |o.calls| ==> o.calls[k].lease != o.calls[l].lease)
    && (forall k :: 0 <= k < |o.settled| ==>
          o.settled[k].lease in o.rows && o.rows[o.settled[k].lease] == Over && o.settled[k].operation != Begin
          && Justified(o, o.settled[k].lease, o.settled[k].operation))
    && (forall k, l :: 0 <= k < l < |o.settled| ==> o.settled[k].lease != o.settled[l].lease)
    && (o.pending.Some? ==>
          && o.pending.value.lease in o.rows
          && Justified(o, o.pending.value.lease, o.pending.value.operation))
    && (forall k :: 0 <= k < |o.calls| && o.calls[k].result != Returned ==> o.rejected)
    && (o.deferred ==> o.rejected)
  }

  lemma InterferedKeeps(o: Observer, foreign: Foreign)
    requires Inv(o)
    ensures Inv(Interfered(o, foreign)) && Interfered(o, foreign).rows.Keys == o.rows.Keys
  {
    var n := Interfered(o, foreign);
    forall k | 0 <= k < |n.settled|
      ensures Justified(n, n.settled[k].lease, n.settled[k].operation)
    {
      assert Justified(o, o.settled[k].lease, o.settled[k].operation);
    }
    assert o.pending.Some? ==> Justified(o, o.pending.value.lease, o.pending.value.operation);
  }

  lemma CommittedKeeps(o: Observer, p: Pending, executing: bool)
    requires Inv(o) && Admits(o.rows, p) && Justified(o, p.lease, p.operation)
    ensures var n := Committed(o, p, executing);
            Inv(n) && n.rows.Keys == o.rows.Keys && n.calls == o.calls && n.rejected == o.rejected
                && n.pending == o.pending
  {
    var n := Committed(o, p, executing);
    forall k | 0 <= k < |n.settled|
      ensures Justified(n, n.settled[k].lease, n.settled[k].operation)
    {
      assert k < |o.settled| ==> Justified(o, o.settled[k].lease, o.settled[k].operation);
    }
  }

  lemma PendingKeeps(o: Observer, pending: Option<Pending>)
    requires Inv(o)
    requires pending.Some? ==>
               pending.value.lease in o.rows && Justified(o, pending.value.lease, pending.value.operation)
    ensures Inv(o.(pending := pending))
  {
    var n := o.(pending := pending);
    forall k | 0 <= k < |n.settled|
      ensures Justified(n, n.settled[k].lease, n.settled[k].operation)
    {
      assert Justified(o, o.settled[k].lease, o.settled[k].operation);
    }
  }

  lemma FailedKeeps(o: Observer, p: Pending)
    requires Inv(o) && p.lease in o.rows && Justified(o, p.lease, p.operation)
    ensures var s := Failed(o, p);
            Inv(s.observer) && s.observer.rows == o.rows && s.observer.calls == o.calls
                && (o.rejected ==> s.observer.rejected)
  {
    var told := o.(failed := o.failed + [Settlement(p.lease, p.operation)]);
    TellingKeeps(o, told, p);
    if p.operation == Complete {
      DeferKeeps(told);
      assert told.failed[|o.failed|] == Settlement(p.lease, Complete);
      assert Justified(Defer(told), p.lease, Unknown);
      PendingKeeps(Defer(told), Some(p.(operation := Unknown)));
    } else {
      PendingKeeps(told, None);
    }
  }

  lemma TellingKeeps(o: Observer, told: Observer, p: Pending)
    requires Inv(o) && p.lease in o.rows && Justified(o, p.lease, p.operation)
    requires told == o.(failed := o.failed + [Settlement(p.lease, p.operation)])
    ensures Inv(told) && Justified(told, p.lease, p.operation)
  {
    forall k | 0 <= k < |told.settled|
      ensures Justified(told, told.settled[k].lease, told.settled[k].operation)
    {
      assert Justified(o, o.settled[k].lease, o.settled[k].operation);
    }
    assert o.pending.Some? ==> Justified(o, o.pending.value.lease, o.pending.value.operation);
  }

  lemma SettleKeeps(o: Observer, stopping: bool, reply: Reply)
    requires Inv(o)
    ensures var s := Settle(o, stopping, reply);
            && Inv(s.observer) && s.observer.rows.Keys == o.rows.Keys && s.observer.calls == o.calls
            && (o.rejected ==> s.observer.rejected)
            && (s.outcome.Ready? ==>
                  && s.observer.pending.None? && NoCall(s.observer, s.outcome.lease)
                  && s.outcome.lease in s.observer.rows && s.observer.rows[s.outcome.lease] == Executing)
  {
    if o.pending.Some? {
      var p := Retried(o.pending.value, stopping);
      assert Justified(o, p.lease, p.operation);
      match Answer(o.rows, p, reply)
      case Contention => PendingKeeps(o, Some(p));
      case Fault => FailedKeeps(o, p);
      case Lost(executing, contention) =>
        CommittedKeeps(o, p, executing);
        PendingKeeps(Committed(o, p, executing), Some(p));
        FailedKeeps(Committed(o, p, executing), p);
      case Done(executing) =>
        CommittedKeeps(o, p, executing);
        PendingKeeps(Committed(o, p, executing), None);
    }
  }

  lemma InvokedKeeps(o: Observer, lease: Lease, acquired: Acquired, stopped: bool, result: CallResult)
    requires Inv(o) && lease in o.rows && o.rows[lease] == Executing && NoCall(o, lease) && o.pending.None?
    ensures var n := Invoked(o, lease, acquired, stopped, result);
            Inv(n) && n.rows.Keys == o.rows.Keys && (o.rejected ==> n.rejected)
  {
    var n := Invoked(o, lease, acquired, stopped, result);
    if n.calls != o.calls {
      assert n.calls[|o.calls|] == Call(lease, result);
      assert forall k :: 0 <= k < |o.calls| ==> n.calls[k] == o.calls[k];
      forall k | 0 <= k < |o.settled|
        ensures Justified(n, n.settled[k].lease, n.settled[k].operation)
      {
        JustifiedSurvives(o, n, o.settled[k].lease, o.settled[k].operation, Call(lease, result));
      }
    }
  }

  lemma JustifiedSurvives(o: Observer, n: Observer, lease: Lease, operation: Operation, c: Call)
    requires Justified(o, lease, operation) && n.calls == o.calls + [c] && c.lease != lease && n.failed == o.failed
    ensures Justified(n, lease, operation)
  {
    forall result | Answered(o, lease, result)
      ensures Answered(n, lease, result)
    {
      var k :| 0 <= k < |o.calls| && o.calls[k] == Call(lease, result);
      assert n.calls[k] == o.calls[k];
    }
  }

  lemma AfterStartKeeps(s: Step, p: Poll)
    requires Inv(s.observer)
    requires s.outcome.Ready? ==>
               && s.observer.pending.None? && NoCall(s.observer, s.outcome.lease)
               && s.outcome.lease in s.observer.rows && s.observer.rows[s.outcome.lease] == Executing
    ensures Inv(AfterStart(s, p).observer) && AfterStart(s, p).observer.rows.Keys == s.observer.rows.Keys
    ensures s.observer.rejected ==> AfterStart(s, p).observer.rejected
  {
    if s.outcome.Ready? {
      InvokedKeeps(s.observer, s.outcome.lease, p.acquired, p.stoppedBeforeCall, p.call);
      var invoked := Invoked(s.observer, s.outcome.lease, p.acquired, p.stoppedBeforeCall, p.call);
      InterferedKeeps(invoked, p.beforeSettle);
      SettleKeeps(Interfered(invoked, p.beforeSettle), false, p.settle);
    }
  }

  lemma ContinueKeeps(o: Observer, stopping: bool, p: Poll)
    requires Inv(o)
    ensures var n := Caught(AfterStart(Start(o, stopping, p), p));
            Inv(n) && n.rows.Keys == o.rows.Keys && (o.rejected ==> n.rejected)
  {
    InterferedKeeps(o, p.beforeStart);
    SettleKeeps(Interfered(o, p.beforeStart), stopping, p.start);
    AfterStartKeeps(Start(o, stopping, p), p);
    DeferKeeps(AfterStart(Start(o, stopping, p), p).observer);
  }

  lemma DeferKeeps(o: Observer)
    requires Inv(o)
    ensures Inv(Defer(o)) && Defer(o).rows == o.rows
  {
    var n := Defer(o);
    forall k | 0 <= k < |n.settled|
      ensures Justified(n, n.settled[k].lease, n.settled[k].operation)
    {
      assert Justified(o, o.settled[k].lease, o.settled[k].operation);
    }
  }

  lemma LeaseKeeps(o: Observer, lease: Lease)
    requires Inv(o) && o.pending.None? && lease !in o.rows
    ensures Inv(o.(pending := Some(Pending(lease, Begin)), rows := o.rows[lease := Leased]))
  {
    var n := o.(pending := Some(Pending(lease, Begin)), rows := o.rows[lease := Leased]);
    forall k | 0 <= k < |n.settled|
      ensures Justified(n, n.settled[k].lease, n.settled[k].operation)
    {
      assert Justified(o, o.settled[k].lease, o.settled[k].operation);
    }
  }

  lemma PollKeeps(o: Observer, p: Poll)
    requires Inv(o) && (p.offered.Some? ==> p.offered.value !in o.rows)
    ensures Inv(PollOnce(o, p)) && o.rows.Keys <= PollOnce(o, p).rows.Keys
    ensures o.rejected ==> PollOnce(o, p).rejected && PollOnce(o, p).rows.Keys == o.rows.Keys
  {
    if !p.stopped {
      if o.pending.Some? {
        ContinueKeeps(o, false, p);
      } else if !o.rejected && p.offered.Some? {
        LeaseKeeps(o, p.offered.value);
        ContinueKeeps(o.(pending := Some(Pending(p.offered.value, Begin)), rows := o.rows[p.offered.value := Leased]),
                      p.stoppingAtStart, p);
      }
    }
  }

  lemma ShutdownKeeps(o: Observer, foreign: Foreign, reply: Reply)
    requires Inv(o)
    ensures Inv(Shutdown(o, foreign, reply))
  {
    hide Inv, Settle;
    InterferedKeeps(o, foreign);
    SettleKeeps(Interfered(o, foreign), true, reply);
    DeferKeeps(Settle(Interfered(o, foreign), true, reply).observer);
  }

  // ----- runs -----

  function PollAll(o: Observer, polls: seq<Poll>): Observer {
    if polls == [] then o else PollOnce(PollAll(o, polls[..|polls| - 1]), polls[|polls| - 1])
  }

  /** Lease tokens are fresh: no poll offers one this observer already holds. */
  predicate FreshOffers(polls: seq<Poll>) {
    forall n :: 0 <= n < |polls| && polls[n].offered.Some? ==> polls[n].offered.value !in PollAll(IDLE, polls[..n]).rows
  }

  lemma {:induction false} PollsKeepInv(polls: seq<Poll>)
    requires FreshOffers(polls)
    ensures Inv(PollAll(IDLE, polls))
  {
    if polls != [] {
      var earlier := polls[..|polls| - 1];
      assert forall n :: 0 <= n <= |earlier| ==> earlier[..n] == polls[..n];
      PollsKeepInv(earlier);
      PollKeeps(PollAll(IDLE, earlier), polls[|polls| - 1]);
    }
  }

  /**
   * Under any pattern of contention, failures, lost commits, stops and writes by others, ending with shutdown:
   * one native call per lease at most; a follow-up is requeued only if it was
   * never sent or explicitly rejected, and completed only if the call returned.
   */
  lemma EachFollowUpSentAtMostOnce(polls: seq<Poll>, foreign: Foreign, last: Reply)
    requires FreshOffers(polls)
    ensures var o := Shutdown(PollAll(IDLE, polls), foreign, last);
            && (forall k, l :: 0 <= k < l < |o.calls| ==> o.calls[k].lease != o.calls[l].lease)
            && (forall k, l :: 0 <= k < l < |o.settled| ==> o.settled[k].lease != o.settled[l].lease)
            && (forall k :: 0 <= k < |o.settled| ==> SettledRightly(o, o.settled[k]))
  {
    PollsKeepInv(polls);
    hide Inv, Shutdown;
    ShutdownKeeps(PollAll(IDLE, polls), foreign, last);
    InvMeans(Shutdown(PollAll(IDLE, polls), foreign, last));
  }

  lemma InvMeans(o: Observer)
    requires Inv(o)
    ensures forall k, l :: 0 <= k < l < |o.calls| ==> o.calls[k].lease != o.calls[l].lease
    ensures forall k, l :: 0 <= k < l < |o.settled| ==> o.settled[k].lease != o.settled[l].lease
    ensures forall k :: 0 <= k < |o.settled| ==> SettledRightly(o, o.settled[k])
  {
  }

  /** What a settlement tells about the native call of its follow-up. */
  predicate SettledRightly(o: Observer, s: Settlement) {
    && (s.operation == Reject || s.operation == Release ==>
          NoCall(o, s.lease) || Answered(o, s.lease, RejectedByServer))
    && (s.operation == Complete ==> Answered(o, s.lease, Returned))
    && (s.operation == Unknown ==> !NoCall(o, s.lease) && !Answered(o, s.lease, RejectedByServer))
    && (Answered(o, s.lease, Returned) && s.operation != Complete ==>
          s.operation == Unknown && Settlement(s.lease, Complete) in o.failed)
  }

  /** The settlement that a call, or the lack of one, calls for. */
  function Due(p: Poll): Operation {
    if p.acquired == Client && !p.stoppedBeforeCall then
      match p.call
      case Returned => Complete
      case RejectedByServer => Reject
      case CallFailed => Unknown
    else Reject
  }

  lemma UndisturbedInvoke(o: Observer, lease: Lease, p: Poll)
    requires lease in o.rows && o.rows[lease] == Executing && o.pending.None?
    requires p.beforeSettle == map[] && p.settle.Done?
    ensures var s := Invoke(o, lease, p);
            && s.outcome == Quiet && s.observer.pending.None? && s.observer.failed == o.failed
            && s.observer.deferred == (o.deferred || p.acquired in {AcquireRejected, AcquireFailed})
            && s.observer.rejected == (o.rejected || p.acquired in {AcquireRejected, AcquireFailed}
                                       || (p.acquired == Client && !p.stoppedBeforeCall && p.call != Returned))
            && s.observer.rows == o.rows[lease := Over]
            && s.observer.settled == o.settled + [Settlement(lease, Due(p))]
            && s.observer.calls == o.calls + if p.acquired == Client && !p.stoppedBeforeCall
                                             then [Call(lease, p.call)] else []
  {
    hide Rewritten;
    var invoked := Invoked(o, lease, p.acquired, p.stoppedBeforeCall, p.call);
    NothingRewritten(invoked.rows);
    assert Interfered(invoked, map[]) == invoked;
    assert invoked.pending == Some(Pending(lease, Due(p))) && invoked.rows == o.rows;
    hide Invoked, Due;
    assert Due(p) != Begin && Due(p) != Release by {
      DueEnds(p);
    }
  }

  lemma DueEnds(p: Poll)
    ensures Due(p) != Begin && Due(p) != Release
  {
  }

  /**
   * A follow-up leased by an undisturbed poll is started, sent if there is a client and no stop, and
   * settled in that poll, as completed exactly if its call returned. One given back, or whose lease a
   * stop ended at its start, is not sent.
   */
  lemma UndisturbedPollSettles(o: Observer, p: Poll)
    requires o.pending.None? && !o.rejected && !p.stopped && p.offered.Some? && p.offered.value !in o.rows
    requires p.beforeStart == map[] && p.beforeSettle == map[] && p.start.Done? && p.settle.Done?
    ensures var n, lease := PollOnce(o, p), p.offered.value;
            && n.pending.None? && n.failed == o.failed && n.rows == o.rows[lease := Over]
            && (var sent := !p.stoppingAtStart && p.start.executing;
                && (n.deferred <==> o.deferred || (sent && p.acquired in {AcquireRejected, AcquireFailed}))
                && (n.rejected <==> sent && (p.acquired in {AcquireRejected, AcquireFailed}
                                             || (p.acquired == Client && !p.stoppedBeforeCall && p.call != Returned))))
            && if p.stoppingAtStart then n.calls == o.calls && n.settled == o.settled + [Settlement(lease, Release)]
               else if !p.start.executing then n.calls == o.calls && n.settled == o.settled
               else
                 && n.settled == o.settled + [Settlement(lease, Due(p))]
                 && n.calls == o.calls + if p.acquired == Client && !p.stoppedBeforeCall
                                         then [Call(lease, p.call)] else []
  {
    hide Rewritten, Invoke, Due;
    var lease := p.offered.value;
    var leased := o.(pending := Some(Pending(lease, Begin)), rows := o.rows[lease := Leased]);
    NothingRewritten(leased.rows);
    assert Interfered(leased, map[]) == leased;
    var started := Settle(leased, p.stoppingAtStart, p.start);
    assert leased.rows[lease := Over] == o.rows[lease := Over];
    assert leased.rows[lease := Executing] == o.rows[lease := Executing];
    if started.outcome.Ready? {
      UndisturbedInvoke(started.observer, lease, p);
      assert started.observer.rows[lease := Over] == o.rows[lease := Over];
    }
  }

  lemma NothingRewritten(rows: map<Lease, Row>)
    ensures Rewritten(rows, map[]) == rows
  {
  }

  /**
   * A pending write that fails, or finds its row moved on, is told and deferred; a completion is then
   * left uncertain and any other write given up. Nothing is sent again.
   */
  lemma FailedWriteIsDeferred(o: Observer, p: Poll)
    requires o.pending.Some? && !p.stopped
    requires p.start == Fault || (p.start.Done? && !Admits(Rewritten(o.rows, p.beforeStart), o.pending.value))
    ensures var n, q := PollOnce(o, p), o.pending.value;
            && n.rejected && n.deferred
            && n.failed == o.failed + [Settlement(q.lease, q.operation)]
            && n.pending == (if q.operation == Complete then Some(Pending(q.lease, Unknown)) else None)
            && n.rows == Rewritten(o.rows, p.beforeStart) && n.calls == o.calls && n.settled == o.settled
  {
  }

  /** A commit whose loss looks like contention is tried again, and then finds its row over. */
  lemma LostCommitIsRetried(o: Observer, p: Poll)
    requires o.pending.Some? && !p.stopped && p.start.Lost? && p.start.contention
    requires o.pending.value.operation != Begin && Admits(Rewritten(o.rows, p.beforeStart), o.pending.value)
    ensures var n, q := PollOnce(o, p), o.pending.value;
            && n.pending == o.pending && n.settled == o.settled + [Settlement(q.lease, q.operation)]
            && n.rows == Rewritten(o.rows, p.beforeStart)[q.lease := Over] && n.calls == o.calls
            && n.rejected == o.rejected && n.deferred == o.deferred
  {
  }

  /** Shutdown gives back what was not started, and writes anything else as it stands. */
  lemma ShutdownGivesBack(o: Observer, reply: Reply)
    requires o.pending.Some? && reply.Done?
    requires var q := o.pending.value;
             q.lease in o.rows && o.rows[q.lease] == if q.operation in {Begin, Release} then Leased else Executing
    ensures var n, q := Shutdown(o, map[], reply), o.pending.value;
            && n.pending.None? && n.calls == o.calls && n.rows == o.rows[q.lease := Over]
            && n.settled == o.settled + [Settlement(q.lease, if q.operation == Begin then Release else q.operation)]
  {
    NothingRewritten(o.rows);
  }

  /** Contention alone changes nothing but the write to retry, and the retry sends nothing again. */
  lemma ContentionOnlyRetries(o: Observer, p: Poll)
    requires o.pending.Some? && !p.stopped && p.start == Contention
    ensures PollOnce(o, p) == Interfered(o, p.beforeStart)
  {
  }

  /** After a rejection or failure the observer leases no further follow-up. */
  lemma {:induction false} NoLeaseAfterRejection(polls: seq<Poll>, n: nat)
    requires FreshOffers(polls) && n <= |polls|
    requires var o := PollAll(IDLE, polls[..n]);
             o.deferred || exists k :: 0 <= k < |o.calls| && o.calls[k].result != Returned
    ensures PollAll(IDLE, polls).rows.Keys == PollAll(IDLE, polls[..n]).rows.Keys && PollAll(IDLE, polls).rejected
    decreases |polls|
  {
    var earlier := polls[..|polls| - if polls == [] then 0 else 1];
    assert forall k :: 0 <= k <= |earlier| ==> earlier[..k] == polls[..k];
    if n == |polls| {
      assert polls[..n] == polls;
      PollsKeepInv(polls);
    } else {
      NoLeaseAfterRejection(earlier, n);
      PollsKeepInv(earlier);
      PollKeeps(PollAll(IDLE, earlier), polls[|polls| - 1]);
    }
  }

  // ----- the observer itself -----

  class CodexLiveSteering {
    var pending: Option<Pending>
    var rejected: bool
    var deferred: bool
    var rows: map<Lease, Row>
    ghost var calls: seq<Call>
    ghost var settled: seq<Settlement>
    ghost var failed: seq<Settlement>

    ghost function State(): Observer
      reads this
    {
      Observer(pending, rejected, deferred, rows, calls, settled, failed)
    }

    constructor ()
      ensures State() == IDLE
    {
      pending, rejected, deferred := None, false, false;
      rows, calls, settled, failed := map[], [], [], [];
    }

    /** The transaction of one pending write. */
    method Commit(p: Pending, executing: bool)
      requires Admits(rows, p)
      modifies this
      ensures State() == Committed(old(State()), p, executing)
    {
      if p.operation == Begin {
        rows := rows[p.lease := if executing then Executing else Over];
      } else {
        rows := rows[p.lease := Over];
        settled := settled + [Settlement(p.lease, p.operation)];
      }
    }

    /** Other parties reach the same rows. */
    method Interfere(foreign: Foreign)
      modifies this
      ensures State() == Interfered(old(State()), foreign)
    {
      rows := Rewritten(rows, foreign);
    }

    method SettlePending(stopping: bool, reply: Reply) returns (outcome: Outcome)
      modifies this
      ensures Step(State(), outcome) == Settle(old(State()), stopping, reply)
    {
      outcome := Quiet;
      if pending.None? {
        return;
      }
      if stopping && pending.value.operation == Begin {
        pending := Some(Pending(pending.value.lease, Release));
      }
      var current := pending.value;
      var answer := Answer(rows, current, reply);
      if answer.Done? || answer.Lost? {
        Commit(current, answer.executing);
      }
      if answer.Done? {
        pending := None;
        if current.operation == Begin && answer.executing {
          outcome := Ready(current.lease);
        }
      } else if answer == Contention || (answer.Lost? && answer.contention) {
        outcome := Raised(true);
      } else {
        pending := None;
        failed := failed + [Settlement(current.lease, current.operation)];
        if current.operation == Complete {
          rejected, deferred := true, true;
          pending := Some(Pending(current.lease, Unknown));
        }
        outcome := Raised(false);
      }
    }

    method InvokeSteer(lease: Lease, p: Poll) returns (outcome: Outcome)
      modifies this
      ensures Step(State(), outcome) == Invoke(old(State()), lease, p)
    {
      if p.acquired == AcquireRejected || p.acquired == AcquireFailed {
        rejected, deferred := true, true;
        pending := Some(Pending(lease, Reject));
      } else if p.acquired == NoClient || p.stoppedBeforeCall {
        pending := Some(Pending(lease, Reject));
      } else {
        calls := calls + [Call(lease, p.call)];
        match p.call {
          case Returned => pending := Some(Pending(lease, Complete));
          case RejectedByServer =>
            rejected := true;
            pending := Some(Pending(lease, Reject));
          case CallFailed =>
            rejected := true;
            pending := Some(Pending(lease, Unknown));
        }
      }
      Interfere(p.beforeSettle);
      outcome := SettlePending(false, p.settle);
    }

    /** One poll of the observer loop, with its failure handling. */
    method PollState(p: Poll)
      modifies this
      ensures State() == PollOnce(old(State()), p)
    {
      if p.stopped {
        return;
      }
      var outcome: Outcome;
      if pending.Some? {
        Interfere(p.beforeStart);
        outcome := SettlePending(false, p.start);
      } else {
        if rejected || p.offered.None? {
          return;
        }
        pending := Some(Pending(p.offered.value, Begin));
        rows := rows[p.offered.value := Leased];
        Interfere(p.beforeStart);
        outcome := SettlePending(p.stoppingAtStart, p.start);
      }
      if outcome.Ready? {
        outcome := InvokeSteer(outcome.lease, p);
      }
      if outcome.Raised? && !outcome.contention {
        rejected, deferred := true, true;
      }
    }
  }
}
