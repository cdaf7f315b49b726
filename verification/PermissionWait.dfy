/**
 * Deadline credit for human permission waits. A call reads the wait clock
 * first and the monotonic clock after it, and the host may begin or end a wait
 * in between; every time below is a reading of one nondecreasing clock.
 */
module PermissionWait {
  import opened Wrappers

  const WEEK: real := 604800.0

  datatype Wait = Wait(started: Option<real>, elapsed: real)
  datatype WaitEvent = Begin(at: real) | End(at: real)
  datatype Deadline = Deadline(credited: bool, initial: real, due: real, stop: Option<real>)

  function Min(a: real, b: real): real { if a <= b then a else b }
  function Max(a: real, b: real): real { if a <= b then b else a }
  function Positive(a: real): real { Max(0.0, a) }

  /** Time spent in permission waits, the open one included. */
  function Total(w: Wait, now: real): real {
    w.elapsed + if w.started.Some? then now - w.started.value else 0.0
  }

  /** A second Begin is refused and changes nothing. */
  function OnWait(w: Wait, e: WaitEvent): Wait {
    match e
    case Begin(at) => if w.started.Some? then w else w.(started := Some(at))
    case End(at) => if w.started.None? then w else Wait(None, w.elapsed + (at - w.started.value))
  }

  function OnWaits(w: Wait, events: seq<WaitEvent>): Wait
    decreases |events|
  {
    if events == [] then w else OnWaits(OnWait(w, events[0]), events[1..])
  }

  /** The events happen in order between two readings of the clock. */
  predicate Timely(from: real, events: seq<WaitEvent>, to: real)
    decreases |events|
  {
    if events == [] then from <= to else from <= events[0].at && Timely(events[0].at, events[1..], to)
  }

  predicate StartedBy(w: Wait, now: real) {
    w.started.Some? ==> w.started.value <= now
  }

  function Credit(d: Deadline, w: Wait, read: real): real {
    if d.credited then Min(WEEK, Positive(Total(w, read) - d.initial)) else 0.0
  }

  function Bounded(d: Deadline, due: real): real {
    if d.stop.Some? then Min(due, d.stop.value) else due
  }

  function Left(d: Deadline, w: Wait, read: real, now: real): real {
    Bounded(d, d.due + Credit(d, w, read)) - now
  }

  function Stopped(d: Deadline, w: Wait, seconds: real, first: real, read: real, now: real): Deadline {
    d.(stop := Some(first + Positive(Min(seconds, Left(d, w, read, now)))))
  }

  /**
   * A stop leaves the seconds it gives, or what was left if that is less, and nothing for one already
   * over; whatever is waited later cannot stretch it, and the due time and credit stay as they were.
   */
  lemma StopHolds(d: Deadline, w: Wait, seconds: real, first: real, read: real, now: real, later: Wait, next: real,
                  end: real)
    ensures var after := Stopped(d, w, seconds, first, read, now);
            var given := if Left(d, w, read, now) < seconds then Left(d, w, read, now) else seconds;
            && after == d.(stop := Some(first + if given > 0.0 then given else 0.0))
            && Left(after, later, next, end) <= first - end + (if given > 0.0 then given else 0.0)
  {
  }

  /** What a deadline does to its owner: the waits before the wait clock is read, then the two readings. */
  datatype Call =
    | Remaining(waits: seq<WaitEvent>, read: real, now: real)
    | StopWithin(waits: seq<WaitEvent>, seconds: real, first: real, read: real, now: real)

  datatype State = State(deadline: Deadline, wait: Wait, read: real, now: real)

  /** Calls of one owner follow each other, while waits go on between any two readings. */
  predicate Follows(s: State, c: Call) {
    && Timely(s.read, c.waits, c.read)
    && s.now <= c.read <= c.now
    && (c.StopWithin? ==> s.now <= c.first <= c.read)
  }

  function On(s: State, c: Call): State {
    var w := OnWaits(s.wait, c.waits);
    match c
    case Remaining(_, read, now) => State(s.deadline, w, read, now)
    case StopWithin(_, seconds, first, read, now) =>
      State(Stopped(s.deadline, w, seconds, first, read, now), w, read, now)
  }

  function LeftAt(s: State): real {
    Left(s.deadline, s.wait, s.read, s.now)
  }

  predicate Ready(s: State) {
    StartedBy(s.wait, s.read) && s.read <= s.now
  }

  predicate Run(s: State, calls: seq<Call>)
    decreases |calls|
  {
    calls == [] || (Follows(s, calls[0]) && Run(On(s, calls[0]), calls[1..]))
  }

  function After(s: State, calls: seq<Call>): State
    decreases |calls|
  {
    if calls == [] then s else After(On(s, calls[0]), calls[1..])
  }

  /** Waiting time grows, and no faster than the clock. */
  lemma {:induction false} WaitsAreReal(w: Wait, from: real, events: seq<WaitEvent>, to: real)
    requires StartedBy(w, from) && Timely(from, events, to)
    ensures StartedBy(OnWaits(w, events), to) && from <= to
    ensures 0.0 <= Total(OnWaits(w, events), to) - Total(w, from) <= to - from
    decreases |events|
  {
    if events != [] {
      WaitsAreReal(OnWait(w, events[0]), events[0].at, events[1..], to);
    }
  }

  /** What a later call could still report: the time that passed inside the last call may yet turn out to be waiting. */
  function Potential(s: State): real {
    var waited := Total(s.wait, s.read) + (s.now - s.read) - s.deadline.initial;
    var late := if s.deadline.credited then Min(WEEK, Positive(waited)) else 0.0;
    Bounded(s.deadline, s.deadline.due + late) - s.now
  }

  lemma StepLowersPotential(s: State, c: Call)
    requires Ready(s) && Follows(s, c)
    ensures Ready(On(s, c))
    ensures LeftAt(On(s, c)) <= Potential(On(s, c))
    ensures Positive(Potential(On(s, c))) <= Positive(Potential(s))
  {
    WaitsAreReal(s.wait, s.read, c.waits, c.read);
  }

  lemma {:induction false} RunLowersPotential(s: State, calls: seq<Call>)
    requires Ready(s) && Run(s, calls)
    ensures Ready(After(s, calls)) && Positive(Potential(After(s, calls))) <= Positive(Potential(s))
    ensures LeftAt(After(s, calls)) <= Potential(After(s, calls))
    decreases |calls|
  {
    if calls != [] {
      StepLowersPotential(s, calls[0]);
      RunLowersPotential(On(s, calls[0]), calls[1..]);
    }
  }

  /** Whether a reading is final: no time passed inside the call, or none of it can count any more. */
  predicate Settled(s: State) {
    || !s.deadline.credited
    || s.read == s.now
    || Total(s.wait, s.read) + (s.now - s.read) <= s.deadline.initial
    || Credit(s.deadline, s.wait, s.read) == WEEK
    || (s.deadline.stop.Some? && s.deadline.stop.value <= s.deadline.due + Credit(s.deadline, s.wait, s.read))
    || Potential(s) <= 0.0
  }

  /** A settled reading is never exceeded, and an expired one stays expired, whatever waits and stops follow. */
  lemma SettledNeverRises(s: State, calls: seq<Call>)
    requires Ready(s) && Settled(s) && Run(s, calls)
    ensures Positive(LeftAt(After(s, calls))) <= Positive(LeftAt(s))
  {
    RunLowersPotential(s, calls);
    assert Positive(Potential(s)) <= Positive(LeftAt(s));
  }

  lemma OneCall(s: State, c: Call)
    requires Follows(s, c)
    ensures Run(s, [c]) && After(s, [c]) == On(s, c)
  {
    assert [c][1..] == [];
    assert After(On(s, c), []) == On(s, c);
  }

  lemma WaitsThroughout(w: Wait, from: real, to: real) returns (waits: seq<WaitEvent>)
    requires from <= to
    ensures Timely(from, waits, to)
    ensures Total(OnWaits(w, waits), to) == Total(w, from) + (to - from)
  {
    if w.started.Some? {
      waits := [];
    } else {
      waits := [Begin(from)];
      assert waits[1..] == [];
      assert Timely(from, [], to);
      assert OnWaits(OnWait(w, waits[0]), []) == OnWait(w, waits[0]);
    }
  }

  /** An unsettled reading can be exceeded by the very next one. */
  lemma UnsettledCanRise(s: State) returns (c: Call)
    requires Ready(s) && !Settled(s)
    ensures Run(s, [c]) && c.Remaining?
    ensures Positive(LeftAt(After(s, [c]))) > Positive(LeftAt(s))
  {
    var waits := WaitsThroughout(s.wait, s.read, s.now);
    c := Remaining(waits, s.now, s.now);
    OneCall(s, c);
  }

  ghost predicate NeverRises(s: State) {
    forall calls :: Run(s, calls) ==> Positive(LeftAt(After(s, calls))) <= Positive(LeftAt(s))
  }

  /** Exactly when a reported remainder bounds every later one. */
  lemma NeverRisesIffSettled(s: State)
    requires Ready(s)
    ensures NeverRises(s) <==> Settled(s)
  {
    if Settled(s) {
      forall calls | Run(s, calls)
        ensures Positive(LeftAt(After(s, calls))) <= Positive(LeftAt(s))
      {
        SettledNeverRises(s, calls);
      }
    } else {
      var c := UnsettledCanRise(s);
      assert Run(s, [c]);
    }
  }

  /** The start of a launch: the constructor reads the wait clock, then its own. */
  function Opened(seconds: real, credited: bool, w: Wait, read: real, now: real): State {
    State(Deadline(credited, if credited then Total(w, read) else 0.0, now + seconds, None), w, read, now)
  }

  /**
   * A ten-second launch whose deadline is seen expired and then reports one
   * second again: a wait began at nine, and the clock moved on to ten between
   * the two readings of the call that saw it expired.
   */
  lemma ExpiredCanRevive() returns (launch: State, seen: Call, next: Call)
    ensures launch == Opened(10.0, true, Wait(None, 0.0), 0.0, 0.0) && Run(launch, [seen, next])
    ensures LeftAt(After(launch, [seen])) == 0.0 && LeftAt(After(launch, [seen, next])) == 1.0
  {
    launch := Opened(10.0, true, Wait(None, 0.0), 0.0, 0.0);
    seen, next := Remaining([Begin(9.0)], 9.0, 10.0), Remaining([], 10.0, 10.0);
    FirstWait(launch.wait, 0.0, 9.0);
    OneCall(launch, seen);
    var expired := On(launch, seen);
    LateCredit(10.0, 9.0, 10.0, expired, next);
    OneCall(expired, next);
    TwoCalls(launch, seen, next);
  }

  /** A wait that began at the first reading becomes credit only at the next call. */
  lemma LateCredit(due: real, start: real, at: real, seen: State, next: Call)
    requires start <= at <= start + WEEK
    requires seen == State(Deadline(true, 0.0, due, None), Wait(Some(start), 0.0), start, at)
    requires next == Remaining([], at, at)
    ensures LeftAt(seen) == due - at && Follows(seen, next) && LeftAt(On(seen, next)) == due - start
  {
  }

  lemma FirstWait(w: Wait, from: real, at: real)
    requires from <= at && w.started.None?
    ensures Timely(from, [Begin(at)], at) && OnWaits(w, [Begin(at)]) == w.(started := Some(at))
  {
    assert [Begin(at)][1..] == [];
    assert Timely(at, [], at);
    assert OnWaits(w.(started := Some(at)), []) == w.(started := Some(at));
  }

  lemma TwoCalls(s: State, a: Call, b: Call)
    requires Follows(s, a) && Run(On(s, a), [b])
    ensures Run(s, [a, b]) && After(s, [a, b]) == After(On(s, a), [b])
  {
    assert [a, b][1..] == [b];
  }

  lemma {:induction false} CreditIsElapsedTime(s: State, calls: seq<Call>)
    requires Ready(s) && Run(s, calls)
    ensures var e := After(s, calls);
            && e.deadline == s.deadline.(stop := e.deadline.stop)
            && s.read <= e.read && e.read <= e.now
            && 0.0 <= Total(e.wait, e.read) - Total(s.wait, s.read) <= e.read - s.read
    decreases |calls|
  {
    if calls != [] {
      WaitsAreReal(s.wait, s.read, calls[0].waits, calls[0].read);
      CreditIsElapsedTime(On(s, calls[0]), calls[1..]);
    }
  }

  /** No launch outlives its seconds by more than the waits it really had, nor by more than a week. */
  lemma LifetimeIsBounded(seconds: real, credited: bool, w: Wait, read: real, now: real, calls: seq<Call>)
    requires StartedBy(w, read) && read <= now
    requires Run(Opened(seconds, credited, w, read, now), calls)
    ensures var e := After(Opened(seconds, credited, w, read, now), calls);
            && (LeftAt(e) > 0.0 ==> e.now - now < seconds + WEEK)
            && LeftAt(e) <= seconds - (e.now - now) + (if credited then Total(e.wait, e.read) - Total(w, read) else 0.0)
            && (!credited ==> LeftAt(e) <= seconds - (e.now - now))
  {
    CreditIsElapsedTime(Opened(seconds, credited, w, read, now), calls);
  }

  /** Below the week and before any stop, an open wait costs a launch nothing. */
  lemma WaitingCostsNothing(s: State, c: Call)
    requires Ready(s) && c.Remaining? && c.waits == [] && Follows(s, c)
    requires s.deadline.credited && s.deadline.stop.None? && s.wait.started.Some?
    requires s.read == s.now && c.read == c.now
    requires 0.0 <= Total(s.wait, s.read) - s.deadline.initial
    requires Total(s.wait, c.read) - s.deadline.initial <= WEEK
    ensures LeftAt(On(s, c)) == LeftAt(s)
  {
    assert OnWaits(s.wait, c.waits) == s.wait;
  }

  class PermissionWaitClock {
    var started: Option<real>
    var elapsed: real

    constructor ()
      ensures Contents() == Wait(None, 0.0)
    {
      started, elapsed := None, 0.0;
    }

    function Contents(): Wait
      reads this
    {
      Wait(started, elapsed)
    }

    method BeginWaiting(now: real) returns (ok: bool)
      modifies this
      ensures ok == old(started).None?
      ensures Contents() == OnWait(old(Contents()), Begin(now))
    {
      ok := started.None?;
      if ok {
        started := Some(now);
      }
    }

    method EndWaiting(now: real)
      requires started.Some?
      modifies this
      ensures Contents() == OnWait(old(Contents()), End(now))
    {
      elapsed := elapsed + (now - started.value);
      started := None;
    }

    method Elapsed(now: real) returns (r: real)
      ensures r == Total(Contents(), now)
    {
      var current := if started.None? then 0.0 else now - started.value;
      r := elapsed + current;
    }
  }

  class ProductiveDeadline {
    const clock: PermissionWaitClock?
    const initial: real
    const due: real
    var stop: Option<real>

    function Terms(): Deadline
      reads this
    {
      Deadline(clock != null, initial, due, stop)
    }

    function Waited(): Wait
      reads this, clock
    {
      if clock == null then Wait(None, 0.0) else clock.Contents()
    }

    constructor (seconds: real, clock: PermissionWaitClock?, read: real, now: real)
      ensures this.clock == clock
      ensures Terms() == Opened(seconds, clock != null, Waited(), read, now).deadline
    {
      var initial := 0.0;
      if clock != null {
        initial := clock.Elapsed(read);
      }
      this.clock, this.initial, due, stop := clock, initial, now + seconds, None;
    }

    method TimeLeft(read: real, now: real) returns (r: real)
      ensures r == Left(Terms(), Waited(), read, now)
    {
      var waiting := 0.0;
      if clock != null {
        var total := clock.Elapsed(read);
        waiting := total - initial;
      }
      var bound := due + Min(WEEK, Max(0.0, waiting));
      if stop.Some? {
        bound := Min(bound, stop.value);
      }
      r := bound - now;
    }

    method Stop(seconds: real, first: real, read: real, now: real)
      modifies this
      ensures Terms() == Stopped(old(Terms()), old(Waited()), seconds, first, read, now)
    {
      var left := TimeLeft(read, now);
      stop := Some(first + Max(0.0, Min(seconds, left)));
    }
  }
}
