/** What each step of the inbox, its parked threads and its receiver does, over the frames and bounds themselves. */
module InboxRules {
  import opened Wrappers
  import opened Inbox

  /** There is room for one more frame of this size. */
  predicate Room<T>(b: Box<T>, size: int) {
    |b.frames| + 1 <= b.limits.frames && b.bytes + size <= b.limits.bytes
  }

  lemma UsableLimits(l: Limits)
    ensures LimitsOk(l) <==> 1 <= l.frames <= 1024 && 1 <= l.frame && l.frame <= l.bytes
  {
  }

  /** A frame within its bound is taken while the inbox is open and has room; nothing else changes the box. */
  lemma OfferedIff<T>(b: Box<T>, value: T, size: int)
    ensures var (result, after) := Offered(b, value, size);
            && (result.Accepted? <==> 0 <= size <= b.limits.frame && b.terminal.None? && Room(b, size))
            && (result.Oversized? <==> size < 0 || size > b.limits.frame)
            && (result.Full? <==> 0 <= size <= b.limits.frame && b.terminal.None? && !Room(b, size))
            && (result.Refused? ==> b.terminal == Some(result.error))
            && after == if result.Accepted? then Box(b.limits, b.frames + [(value, size)], b.bytes + size, None) else b
  {
  }

  /** The oldest frame comes out first, and the end is told only once none is left. */
  lemma TakenIff<T>(b: Box<T>)
    ensures var (result, after) := Taken(b);
            if |b.frames| > 0 then
              && result == Frame(b.frames[0].0)
              && after == Box(b.limits, b.frames[1..], b.bytes - b.frames[0].1, b.terminal)
            else
              after == b && (if b.terminal.Some? then result == Ended(b.terminal.value) else result == Nothing)
  {
  }

  lemma FirstErrorStays<T>(b: Box<T>, error: string)
    ensures var after := Finished(b, error);
            && after.limits == b.limits && after.frames == b.frames && after.bytes == b.bytes
            && after.terminal == Some(if b.terminal.Some? then b.terminal.value else error)
  {
  }

  // ----- threads -----

  /** A producer that finds no room waits; an accepted frame lets everybody look again. */
  lemma ProducerSteps<T>(w: World<T>, t: nat, value: T, size: int)
    requires Enabled(w, OfferFrom(t, value, size))
    ensures var after := Next(w, OfferFrom(t, value, size)); var result := Offered(w.box, value, size).0;
            && t !in w.parked
            && after == if result.Accepted? then
                          World(Offered(w.box, value, size).1, w.accepted + [value], w.delivered, map[], w.receiver,
                                w.event, w.owed, w.wakes)
                        else if result.Full? then w.(parked := w.parked[t := Producer(size)])
                        else w
  {
  }

  /** A consumer of an open empty inbox waits; taking a frame lets everybody look again and owes a wake. */
  lemma ConsumerSteps<T>(w: World<T>, t: nat)
    requires Enabled(w, TakeBy(t))
    ensures var after := Next(w, TakeBy(t));
            && t !in w.parked
            && after == if |w.box.frames| > 0 then
                          World(Taken(w.box).1, w.accepted, w.delivered + [w.box.frames[0].0], map[], w.receiver,
                                w.event, w.owed + 1, w.wakes)
                        else if w.box.terminal.None? then w.(parked := w.parked[t := Consumer])
                        else w
  {
  }

  /** Only a waiting consumer times out; finishing lets everybody look again and owes a wake. */
  lemma EndingSteps<T>(w: World<T>, t: nat, error: string)
    ensures Enabled(w, TimeOut(t)) <==> t in w.parked && w.parked[t] == Consumer
    ensures Enabled(w, TimeOut(t)) ==> Next(w, TimeOut(t)) == w.(parked := w.parked - {t})
    ensures Next(w, Finish(error)) == w.(box := Finished(w.box, error), parked := map[], owed := w.owed + 1)
  {
  }

  /** A wake owed is called back, queued on the loop, and sets the event there. */
  lemma WakeSteps<T>(w: World<T>)
    ensures Enabled(w, CallBack) <==> w.owed >= 1
    ensures Enabled(w, CallBack) ==> Next(w, CallBack) == w.(owed := w.owed - 1, wakes := w.wakes + 1)
    ensures Enabled(w, RunWake) <==> w.wakes >= 1
    ensures Enabled(w, RunWake) ==> Next(w, RunWake) == w.(wakes := w.wakes - 1, event := true)
  {
  }

  /**
   * The receiver clears its event before every attempt, sleeps exactly when there is no room and wakes
   * only on the event; a frame it cannot place ends it and finishes the inbox.
   */
  lemma ReceiverSteps<T>(w: World<T>, value: T, size: int)
    ensures Enabled(w, Arrive(value, size)) <==> w.receiver.Reading?
    ensures w.receiver.Reading? ==> Next(w, Arrive(value, size)) == w.(receiver := Clearing(value, size))
    ensures Enabled(w, Clear) <==> w.receiver.Clearing?
    ensures w.receiver == Clearing(value, size) ==>
        Next(w, Clear) == w.(event := false, receiver := Trying(value, size))
    ensures Enabled(w, Awake) <==> w.receiver.Sleeping? && w.event
    ensures w.receiver == Sleeping(value, size) && w.event ==> Next(w, Awake) == w.(receiver := Clearing(value, size))
    ensures Enabled(w, TryPut) <==> w.receiver.Trying?
    ensures w.receiver == Trying(value, size) ==>
              var (result, box) := Offered(w.box, value, size);
              Next(w, TryPut)
              == match result
                 case Accepted =>
                   w.(box := box, parked := map[], accepted := w.accepted + [value], receiver := Reading)
                 case Full => w.(receiver := Sleeping(value, size))
                 case Oversized =>
                   w.(box := Finished(w.box, "Codex inbound frame exceeded its bound"), parked := map[],
                      owed := w.owed + 1, receiver := Gone)
                 case Refused(error) =>
                   w.(box := Finished(w.box, error), parked := map[], owed := w.owed + 1, receiver := Gone)
  {
  }
}
