/**
 * The bounded inbox, the threads that park on its condition, and the
 * WebSocket receiver that sleeps on an event of its own loop.
 */
module Inbox {
  import opened Wrappers

  datatype Limits = Limits(frames: int, bytes: int, frame: int)

  predicate LimitsOk(l: Limits) {
    1 <= l.frames <= 1024 && 1 <= l.frame <= l.bytes
  }

  datatype Box<T> = Box(limits: Limits, frames: seq<(T, int)>, bytes: int, terminal: Option<string>)

  datatype Put = Oversized | Refused(error: string) | Full | Accepted
  datatype Get<T> = Frame(value: T) | Ended(error: string) | Nothing

  function Sizes<T>(frames: seq<(T, int)>): int
    decreases |frames|
  {
    if frames == [] then 0 else frames[0].1 + Sizes(frames[1..])
  }

  predicate Bounded<T>(b: Box<T>) {
    && LimitsOk(b.limits)
    && b.bytes == Sizes(b.frames)
    && |b.frames| <= b.limits.frames
    && b.bytes <= b.limits.bytes
    && forall i :: 0 <= i < |b.frames| ==> 0 <= b.frames[i].1 <= b.limits.frame
  }

  predicate Fits<T>(b: Box<T>, size: int) {
    |b.frames| < b.limits.frames && b.bytes + size <= b.limits.bytes
  }

  function Offered<T>(b: Box<T>, value: T, size: int): (Put, Box<T>) {
    if !(0 <= size <= b.limits.frame) then (Oversized, b)
    else if b.terminal.Some? then (Refused(b.terminal.value), b)
    else if !Fits(b, size) then (Full, b)
    else (Accepted, b.(frames := b.frames + [(value, size)], bytes := b.bytes + size))
  }

  function Taken<T>(b: Box<T>): (Get<T>, Box<T>) {
    if b.frames != [] then (Frame(b.frames[0].0), b.(frames := b.frames[1..], bytes := b.bytes - b.frames[0].1))
    else if b.terminal.Some? then (Ended(b.terminal.value), b)
    else (Nothing, b)
  }

  function Finished<T>(b: Box<T>, error: string): Box<T> {
    if b.terminal.Some? then b else b.(terminal := Some(error))
  }

  lemma {:induction false} SizesAppend<T>(frames: seq<(T, int)>, f: (T, int))
    ensures Sizes(frames + [f]) == Sizes(frames) + f.1
    decreases |frames|
  {
    if frames == [] {
      assert [f][1..] == [];
    } else {
      assert (frames + [f])[1..] == frames[1..] + [f];
      SizesAppend(frames[1..], f);
    }
  }

  lemma StaysBounded<T>(b: Box<T>, value: T, size: int, error: string)
    requires Bounded(b)
    ensures Bounded(Offered(b, value, size).1) && Bounded(Taken(b).1) && Bounded(Finished(b, error))
  {
    SizesAppend(b.frames, (value, size));
  }

  /** A producer turned away for capacity always leaves something for a consumer to take. */
  lemma FullMeansNonempty<T>(b: Box<T>, size: int)
    requires Bounded(b) && size <= b.limits.frame && !Fits(b, size)
    ensures b.frames != [] && Taken(b).0.Frame?
  {
  }

  // Threads.

  datatype Waiter = Producer(size: int) | Consumer

  /** Where the WebSocket receiver is with the frame in its hand. */
  datatype Receiver<T> =
    | Reading
    | Clearing(value: T, size: int)
    | Trying(value: T, size: int)
    | Sleeping(value: T, size: int)
    | Gone

  /**
   * `owed` counts threads that have changed the box and released its lock but
   * not yet called back; `wakes` counts event settings queued on the loop.
   */
  datatype World<T> = World(
    box: Box<T>,
    accepted: seq<T>,
    delivered: seq<T>,
    parked: map<nat, Waiter>,
    receiver: Receiver<T>,
    event: bool,
    owed: nat,
    wakes: nat)

  datatype Action<T> =
    | OfferFrom(thread: nat, value: T, size: int)
    | TakeBy(thread: nat)
    | TimeOut(thread: nat)
    | Finish(error: string)
    | CallBack
    | RunWake
    | Arrive(value: T, size: int)
    | Clear
    | TryPut
    | Awake

  /** The condition's notify_all: every parked thread looks again. */
  function Notified<T>(w: World<T>, box: Box<T>): World<T> {
    w.(box := box, parked := map[])
  }

  predicate Enabled<T>(w: World<T>, a: Action<T>) {
    match a
    case OfferFrom(t, _, _) => t !in w.parked
    case TakeBy(t) => t !in w.parked
    case TimeOut(t) => t in w.parked && w.parked[t].Consumer?
    case Finish(_) => true
    case CallBack => w.owed > 0
    case RunWake => w.wakes > 0
    case Arrive(_, _) => w.receiver.Reading?
    case Clear => w.receiver.Clearing?
    case TryPut => w.receiver.Trying?
    case Awake => w.receiver.Sleeping? && w.event
  }

  function OfferStep<T>(w: World<T>, t: nat, value: T, size: int): World<T> {
    var (result, box) := Offered(w.box, value, size);
    match result
    case Accepted => Notified(w, box).(accepted := w.accepted + [value])
    case Full => w.(parked := w.parked[t := Producer(size)])
    case _ => w
  }

  function TakeStep<T>(w: World<T>, t: nat): World<T> {
    var (result, box) := Taken(w.box);
    match result
    case Frame(value) => Notified(w, box).(delivered := w.delivered + [value], owed := w.owed + 1)
    case Nothing => w.(parked := w.parked[t := Consumer])
    case Ended(_) => w
  }

  /** The receiver's attempt; a refusal or an oversized frame ends it, which finishes the box. */
  function TryStep<T>(w: World<T>): World<T>
    requires w.receiver.Trying?
  {
    var (result, box) := Offered(w.box, w.receiver.value, w.receiver.size);
    match result
    case Accepted => Notified(w, box).(accepted := w.accepted + [w.receiver.value], receiver := Reading)
    case Full => w.(receiver := Sleeping(w.receiver.value, w.receiver.size))
    case Oversized => Ending(w, "Codex inbound frame exceeded its bound").(receiver := Gone)
    case Refused(error) => Ending(w, error).(receiver := Gone)
  }

  function Ending<T>(w: World<T>, error: string): World<T> {
    Notified(w, Finished(w.box, error)).(owed := w.owed + 1)
  }

  function Next<T>(w: World<T>, a: Action<T>): World<T>
    requires Enabled(w, a)
  {
    match a
    case OfferFrom(t, value, size) => OfferStep(w, t, value, size)
    case TakeBy(t) => TakeStep(w, t)
    case TimeOut(t) => w.(parked := w.parked - {t})
    case Finish(error) => Ending(w, error)
    case CallBack => w.(owed := w.owed - 1, wakes := w.wakes + 1)
    case RunWake => w.(wakes := w.wakes - 1, event := true)
    case Arrive(value, size) => w.(receiver := Clearing(value, size))
    case Clear => w.(event := false, receiver := Trying(w.receiver.value, w.receiver.size))
    case TryPut => TryStep(w)
    case Awake => w.(receiver := Clearing(w.receiver.value, w.receiver.size))
  }

  function Values<T>(frames: seq<(T, int)>): seq<T> {
    seq(|frames|, i requires 0 <= i < |frames| => frames[i].0)
  }

  /** Every parked thread is parked for a reason that still holds. */
  predicate ParkedForCause<T>(w: World<T>) {
    forall t :: t in w.parked ==>
      && w.box.terminal.None?
      && match w.parked[t]
         case Producer(size) => 0 <= size <= w.box.limits.frame && !Fits(w.box, size)
         case Consumer => w.box.frames == []
  }

  predicate WakePending<T>(w: World<T>) {
    w.event || w.wakes > 0 || w.owed > 0
  }

  /** A sleeping receiver that nothing is about to wake has a frame that does not fit. */
  predicate SleepsForCause<T>(w: World<T>) {
    w.receiver.Sleeping? ==>
      && 0 <= w.receiver.size <= w.box.limits.frame
      && (!WakePending(w) ==> w.box.terminal.None? && !Fits(w.box, w.receiver.size))
  }

  ghost predicate Inv<T>(w: World<T>) {
    Bounded(w.box) && w.delivered + Values(w.box.frames) == w.accepted && ParkedForCause(w) && SleepsForCause(w)
  }

  function Start<T>(limits: Limits): World<T> {
    World(Box(limits, [], 0, None), [], [], map[], Reading, false, 0, 0)
  }

  lemma OrderKept<T>(w: World<T>, a: Action<T>)
    requires Enabled(w, a) && w.delivered + Values(w.box.frames) == w.accepted
    ensures Next(w, a).delivered + Values(Next(w, a).box.frames) == Next(w, a).accepted
  {
    var before, after := w.box.frames, Next(w, a).box.frames;
    if |after| == |before| + 1 {
      assert Values(after) == Values(before) + [after[|before|].0];
    } else if |after| < |before| {
      assert Values(before) == [before[0].0] + Values(after);
    }
  }

  lemma CausesKept<T>(w: World<T>, a: Action<T>)
    requires Enabled(w, a) && Bounded(w.box) && ParkedForCause(w) && SleepsForCause(w)
    ensures ParkedForCause(Next(w, a)) && SleepsForCause(Next(w, a))
  {
  }

  lemma BoundsKept<T>(w: World<T>, a: Action<T>)
    requires Enabled(w, a) && Bounded(w.box)
    ensures Bounded(Next(w, a).box) && Next(w, a).box.limits == w.box.limits
  {
    match a
    case OfferFrom(_, value, size) => StaysBounded(w.box, value, size, "");
    case TakeBy(_) => if w.box.frames != [] { StaysBounded(w.box, w.box.frames[0].0, 0, ""); }
    case TryPut => StaysBounded(w.box, w.receiver.value, w.receiver.size, "");
    case _ =>
  }

  predicate Run<T>(w: World<T>, actions: seq<Action<T>>)
    decreases |actions|
  {
    actions == [] || (Enabled(w, actions[0]) && Run(Next(w, actions[0]), actions[1..]))
  }

  function After<T>(w: World<T>, actions: seq<Action<T>>): World<T>
    requires Run(w, actions)
    decreases |actions|
  {
    if actions == [] then w else After(Next(w, actions[0]), actions[1..])
  }

  lemma {:induction false} RunKeepsInv<T>(w: World<T>, actions: seq<Action<T>>)
    requires Inv(w) && Run(w, actions)
    ensures Inv(After(w, actions)) && After(w, actions).box.limits == w.box.limits
    decreases |actions|
  {
    if actions != [] {
      BoundsKept(w, actions[0]);
      OrderKept(w, actions[0]);
      CausesKept(w, actions[0]);
      RunKeepsInv(Next(w, actions[0]), actions[1..]);
    }
  }

  /** Frames come out once each, in the order they were accepted, and the byte bound is the true sum. */
  lemma DeliveredThenQueuedIsAccepted<T>(limits: Limits, actions: seq<Action<T>>)
    requires LimitsOk(limits) && Run(Start<T>(limits), actions)
    ensures var w := After(Start<T>(limits), actions);
            && w.accepted == w.delivered + Values(w.box.frames)
            && w.box.bytes == Sizes(w.box.frames) <= limits.bytes
            && |w.box.frames| <= limits.frames
  {
    assert Values<T>([]) == [];
    RunKeepsInv(Start<T>(limits), actions);
  }

  /** No wake-up is lost: asleep with nothing pending means the frame does not fit, and then a consumer finds one. */
  lemma NoWakeUpIsLost<T>(limits: Limits, actions: seq<Action<T>>)
    requires LimitsOk(limits) && Run(Start<T>(limits), actions)
    ensures var w := After(Start<T>(limits), actions);
            w.receiver.Sleeping? && !WakePending(w) ==>
              && w.box.terminal.None? && !Fits(w.box, w.receiver.size)
              && w.box.frames != []
              && forall t :: t in w.parked ==> w.parked[t].Producer?
  {
    assert Values<T>([]) == [];
    RunKeepsInv(Start<T>(limits), actions);
    var w := After(Start<T>(limits), actions);
    if w.receiver.Sleeping? && !WakePending(w) {
      FullMeansNonempty(w.box, w.receiver.size);
    }
  }

  /** A blocked producer and a blocked consumer never face each other, and nobody stays parked after the end. */
  lemma NoMutualBlocking<T>(limits: Limits, actions: seq<Action<T>>, p: nat, c: nat)
    requires LimitsOk(limits) && Run(Start<T>(limits), actions)
    requires var w := After(Start<T>(limits), actions); p in w.parked && c in w.parked && w.parked[p].Producer?
    ensures var w := After(Start<T>(limits), actions);
            w.box.terminal.None? && w.box.frames != [] && w.parked[c].Producer?
  {
    assert Values<T>([]) == [];
    RunKeepsInv(Start<T>(limits), actions);
    var w := After(Start<T>(limits), actions);
    FullMeansNonempty(w.box, w.parked[p].size);
  }

  /**
   * Once terminal: the first error stays, nothing more is accepted, and it is raised only when all
   * else is delivered.
   */
  lemma {:induction false} FirstTerminalWins<T>(w: World<T>, actions: seq<Action<T>>)
    requires Inv(w) && Run(w, actions) && w.box.terminal.Some?
    ensures var e := After(w, actions);
            && e.box.terminal == w.box.terminal && e.accepted == w.accepted
            && (Taken(e.box).0.Ended? <==> e.delivered == e.accepted)
            && (Taken(e.box).0.Ended? ==> Taken(e.box).0.error == w.box.terminal.value)
    decreases |actions|
  {
    if actions == [] {
      assert |w.accepted| == |w.delivered| + |w.box.frames|;
      assert w.box.frames == [] ==> w.delivered + Values(w.box.frames) == w.delivered;
    } else {
      assert Inv(Next(w, actions[0])) by {
        BoundsKept(w, actions[0]);
        OrderKept(w, actions[0]);
        CausesKept(w, actions[0]);
      }
      FirstTerminalWins(Next(w, actions[0]), actions[1..]);
    }
  }

  class BoundedInbox<T> {
    const limits: Limits
    var frames: seq<(T, int)>
    var bytes: int
    var terminal: Option<string>

    function Contents(): Box<T>
      reads this
    {
      Box(limits, frames, bytes, terminal)
    }

    ghost predicate Valid()
      reads this
    {
      Bounded(Contents())
    }

    constructor (limits: Limits)
      requires LimitsOk(limits)
      ensures Valid() && Contents() == Start<T>(limits).box
    {
      this.limits, frames, bytes, terminal := limits, [], 0, None;
    }

    static method Create(limits: Limits) returns (inbox: Option<BoundedInbox<T>>)
      ensures inbox.Some? <==> LimitsOk(limits)
      ensures inbox.Some? ==>
          fresh(inbox.value) && inbox.value.Valid() && inbox.value.Contents() == Start<T>(limits).box
    {
      if !(1 <= limits.frames <= 1024) || !(1 <= limits.frame <= limits.bytes) {
        return None;
      }
      var box := new BoundedInbox<T>(limits);
      inbox := Some(box);
    }

    method TryPut(value: T, size: int) returns (result: Put)
      requires Valid()
      modifies this
      ensures Valid() && (result, Contents()) == Offered(old(Contents()), value, size)
    {
      StaysBounded(Contents(), value, size, "");
      if size < 0 || size > limits.frame {
        return Oversized;
      }
      if terminal.Some? {
        return Refused(terminal.value);
      }
      if |frames| >= limits.frames || bytes + size > limits.bytes {
        return Full;
      }
      frames := frames + [(value, size)];
      bytes := bytes + size;
      result := Accepted;
    }

    method Finish(error: string)
      requires Valid()
      modifies this
      ensures Valid() && Contents() == Finished(old(Contents()), error)
    {
      if terminal.None? {
        terminal := Some(error);
      }
    }

    /** One look of get's waiting loop: Nothing means wait on. */
    method Take() returns (result: Get<T>)
      requires Valid()
      modifies this
      ensures Valid() && (result, Contents()) == Taken(old(Contents()))
    {
      if frames == [] {
        return if terminal.Some? then Ended(terminal.value) else Nothing;
      }
      StaysBounded(Contents(), frames[0].0, 0, "");
      var (value, size) := frames[0];
      frames := frames[1..];
      bytes := bytes - size;
      result := Frame(value);
    }
  }
}
