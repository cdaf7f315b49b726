/** Client shutdown deferred across one fenced control send. */
module SendPath {

  datatype Path = Path(sending: bool, closeRequested: bool, closed: bool)

  const OPEN := Path(false, false, false)

  /** The client is never closed while a send is open, and no requested close is forgotten. */
  predicate Sound(p: Path) {
    && !(p.sending && p.closed)
    && (p.closed ==> p.closeRequested)
    && (p.closeRequested && !p.sending ==> p.closed)
  }

  function AfterRequest(p: Path): Path {
    Path(p.sending, true, p.closed || !p.sending)
  }

  function AfterEnter(p: Path): Path {
    if p.closeRequested || p.sending then p else p.(sending := true)
  }

  function AfterLeave(p: Path): Path {
    Path(false, p.closeRequested, p.closed || p.closeRequested)
  }

  datatype Event = Request | Enter | Leave

  function After(p: Path, e: Event): Path {
    match e
    case Request => AfterRequest(p)
    case Enter => AfterEnter(p)
    case Leave => if p.sending then AfterLeave(p) else p
  }

  function AfterAll(p: Path, es: seq<Event>): Path {
    if es == [] then p else After(AfterAll(p, es[..|es| - 1]), es[|es| - 1])
  }

  /** How often the close callback is invoked along a run of events. */
  function Closes(p: Path, es: seq<Event>): nat {
    if es == [] then 0
    else
      var before := AfterAll(p, es[..|es| - 1]);
      Closes(p, es[..|es| - 1]) + if After(before, es[|es| - 1]).closed && !before.closed then 1 else 0
  }

  /** In every run the callback fires at most once, and has fired exactly if a close was requested outside a send. */
  lemma {:induction false} ClosesAtMostOnce(es: seq<Event>)
    ensures var p := AfterAll(OPEN, es);
            Sound(p) && Closes(OPEN, es) == if p.closeRequested && !p.sending then 1 else 0
  {
    if es != [] {
      ClosesAtMostOnce(es[..|es| - 1]);
    }
  }

  class ControlSendPath {
    var sending: bool
    var closeRequested: bool
    var closed: bool
    var closeCalls: nat

    ghost predicate Valid()
      reads this
    {
      Sound(State()) && closeCalls == if closed then 1 else 0
    }

    ghost function State(): Path
      reads this
    {
      Path(sending, closeRequested, closed)
    }

    constructor ()
      ensures Valid() && State() == OPEN
    {
      sending, closeRequested, closed, closeCalls := false, false, false, 0;
    }

    method RequestClose()
      requires Valid()
      modifies this
      ensures Valid() && State() == AfterRequest(old(State()))
    {
      closeRequested := true;
      var close := !sending && !closed;
      if close {
        closed := true;
        closeCalls := closeCalls + 1;
      }
    }

    method EnterScope() returns (permitted: bool)
      requires Valid()
      modifies this
      ensures Valid() && State() == AfterEnter(old(State()))
      ensures permitted == (!old(closeRequested) && !old(sending))
      ensures permitted ==> sending && !closed
    {
      permitted := !closeRequested && !sending;
      if permitted {
        sending := true;
      }
    }

    method LeaveScope(permitted: bool)
      requires Valid() && (permitted ==> sending)
      modifies this
      ensures Valid() && State() == if permitted then AfterLeave(old(State())) else old(State())
    {
      if permitted {
        sending := false;
        var close := closeRequested && !closed;
        if close {
          closed := true;
          closeCalls := closeCalls + 1;
        }
      }
    }
  }
}
