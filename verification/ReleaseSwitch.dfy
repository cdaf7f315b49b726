/**
 * The release switcher: links flip group by group under a durable record.
 * Every effect may raise before or after it happens, or the process may die
 * on either side of it.
 */
module ReleaseSwitch {
  import opened Wrappers
  import opened ReleaseManifest

  datatype Entry = Entry(component: Component, before: Path, after: Path)
  datatype Plan = Plan(manifest: Manifest, entries: seq<Entry>)

  datatype Status = Applying | Applied | RollingBack | RolledBack | RecoveryFailed
  datatype Record = Record(status: Status, plan: Plan)

  datatype Fault = Fine | RaiseBefore | RaiseAfter | DieBefore | DieAfter
  datatype Exit = Done | Raised | Died
  datatype Direction = ToBefore | ToAfter

  predicate Finished(s: Status) {
    s == Applied || s == RolledBack
  }

  /** What read_record demands of a stored plan and build_plan puts in a new one. */
  ghost predicate PlanOk(p: Plan) {
    && WellFormed(p.manifest)
    && |p.entries| == |p.manifest.components|
    && forall i :: 0 <= i < |p.entries| ==>
         && p.entries[i].component == p.manifest.components[i]
         && p.entries[i].after == p.entries[i].component.releases + [p.entries[i].component.target]
         && |p.entries[i].before| == |p.entries[i].component.releases| + 1
         && p.entries[i].component.releases <= p.entries[i].before
  }

  function Side(e: Entry, d: Direction): Path {
    if d == ToBefore then e.before else e.after
  }

  predicate AtSide(links: map<Path, Path>, e: Entry, d: Direction) {
    e.component.link in links && links[e.component.link] == Side(e, d)
  }

  predicate AtEither(links: map<Path, Path>, e: Entry) {
    AtSide(links, e, ToBefore) || AtSide(links, e, ToAfter)
  }

  predicate AllAt(links: map<Path, Path>, p: Plan, d: Direction) {
    forall i :: 0 <= i < |p.entries| ==> AtSide(links, p.entries[i], d)
  }

  predicate AllEither(links: map<Path, Path>, p: Plan) {
    forall i :: 0 <= i < |p.entries| ==> AtEither(links, p.entries[i])
  }

  predicate OwnedBy(p: Plan, link: Path) {
    exists i :: 0 <= i < |p.entries| && p.entries[i].component.link == link
  }

  /** Links of other releases are never touched. */
  predicate OthersUnchanged(before: map<Path, Path>, after: map<Path, Path>, p: Plan) {
    && after.Keys == before.Keys
    && forall l :: l in before && !OwnedBy(p, l) ==> after[l] == before[l]
  }

  /** What the durable record promises about the links, whenever the process may be looked at. */
  predicate RecordTells(links: map<Path, Path>, record: Option<Record>) {
    record.Some? ==>
      && AllEither(links, record.value.plan)
      && (record.value.status == Applied ==> AllAt(links, record.value.plan, ToAfter))
      && (record.value.status == RolledBack ==> AllAt(links, record.value.plan, ToBefore))
  }

  /** What moving links needs of a plan: no two entries share a link and every entry's group is listed. */
  ghost predicate Movable(p: Plan) {
    && (forall i, j :: 0 <= i < j < |p.entries| ==> p.entries[i].component.link != p.entries[j].component.link)
    && (forall i :: 0 <= i < |p.entries| ==>
          exists g :: 0 <= g < |p.manifest.groups| && p.manifest.groups[g].id == p.entries[i].component.group)
  }

  lemma PlansAreMovable(p: Plan)
    requires PlanOk(p)
    ensures Movable(p)
  {
    var c := p.manifest.components;
    var groups := p.manifest.groups;
    forall i, j | 0 <= i < j < |p.entries|
      ensures p.entries[i].component.link != p.entries[j].component.link
    {
      assert Links(c)[i] == c[i].link && Links(c)[j] == c[j].link;
    }
    forall i | 0 <= i < |p.entries|
      ensures exists g :: 0 <= g < |groups| && groups[g].id == p.entries[i].component.group
    {
      assert p.entries[i].component.group in GroupIds(groups);
      var g :| 0 <= g < |groups| && GroupIds(groups)[g] == p.entries[i].component.group;
      assert groups[g].id == p.entries[i].component.group;
    }
  }

  /** The order activate takes the groups in. */
  function Order(groups: seq<Group>, d: Direction): (r: seq<Group>)
    ensures |r| == |groups|
    ensures forall m :: 0 <= m < |r| ==> r[m] == groups[if d == ToBefore then |groups| - 1 - m else m]
  {
    if d == ToBefore then seq(|groups|, m requires 0 <= m < |groups| => groups[|groups| - 1 - m]) else groups
  }

  predicate GroupAt(links: map<Path, Path>, p: Plan, group: string, d: Direction) {
    forall i :: 0 <= i < |p.entries| && p.entries[i].component.group == group ==> AtSide(links, p.entries[i], d)
  }

  /** Every component is in some group, so once each group has moved every link has. */
  lemma EveryGroupEveryEntry(links: map<Path, Path>, p: Plan, d: Direction)
    requires Movable(p)
    requires var order := Order(p.manifest.groups, d);
             forall m :: 0 <= m < |order| ==> GroupAt(links, p, order[m].id, d)
    ensures AllAt(links, p, d)
  {
    var groups := p.manifest.groups;
    var order := Order(groups, d);
    forall i | 0 <= i < |p.entries|
      ensures AtSide(links, p.entries[i], d)
    {
      var g :| 0 <= g < |groups| && groups[g].id == p.entries[i].component.group;
      var m := if d == ToBefore then |groups| - 1 - g else g;
      assert order[m] == groups[g];
      assert GroupAt(links, p, order[m].id, d);
    }
  }

  /** The plan of the current links: before is where each link points, after its target release. */
  function PlanFor(links: map<Path, Path>, m: Manifest): (p: Plan)
    requires Current(links, m)
    ensures AllAt(links, p, ToBefore)
  {
    Plan(m, seq(|m.components|, i requires 0 <= i < |m.components| =>
      Entry(m.components[i], links[m.components[i].link], m.components[i].releases + [m.components[i].target])))
  }

  /** Every link points at a release directly inside its component's release directory. */
  predicate Current(links: map<Path, Path>, m: Manifest) {
    forall i :: 0 <= i < |m.components| ==> Inside(links, m.components[i])
  }

  predicate Inside(links: map<Path, Path>, c: Component) {
    && c.link in links
    && |links[c.link]| == |c.releases| + 1
    && c.releases <= links[c.link]
  }

  lemma PlanForOk(links: map<Path, Path>, m: Manifest)
    requires WellFormed(m) && Current(links, m)
    ensures PlanOk(PlanFor(links, m)) && AllEither(links, PlanFor(links, m))
  {
    var p := PlanFor(links, m);
    forall i | 0 <= i < |p.entries|
      ensures AtEither(links, p.entries[i])
      ensures |p.entries[i].before| == |p.entries[i].component.releases| + 1
      ensures p.entries[i].component.releases <= p.entries[i].before
    {
      assert AtSide(links, p.entries[i], ToBefore);
      assert Inside(links, m.components[i]);
    }
  }

  /** Flipping one entry's link leaves every other entry where it was. */
  lemma FlipLocal(links: map<Path, Path>, p: Plan, i: int, d: Direction)
    requires Movable(p) && 0 <= i < |p.entries| && AllEither(links, p)
    ensures var after := links[p.entries[i].component.link := Side(p.entries[i], d)];
            && AllEither(after, p) && AtSide(after, p.entries[i], d)
            && OthersUnchanged(links, after, p)
            && forall j, s :: 0 <= j < |p.entries| && j != i && AtSide(links, p.entries[j], s) ==>
                AtSide(after, p.entries[j], s)
  {
    var after := links[p.entries[i].component.link := Side(p.entries[i], d)];
    forall j | 0 <= j < |p.entries| && j != i
      ensures after[p.entries[j].component.link] == links[p.entries[j].component.link]
    {
      assert AtEither(links, p.entries[j]);
    }
    assert AtEither(links, p.entries[i]);
  }

  /** Before and after of every entry come from the links a plan was built on, so restoring them restores the map. */
  lemma RestoredLinks(origin: map<Path, Path>, links: map<Path, Path>, p: Plan)
    requires AllAt(origin, p, ToBefore) && AllAt(links, p, ToBefore) && OthersUnchanged(origin, links, p)
    ensures links == origin
  {
    forall l | l in origin
      ensures links[l] == origin[l]
    {
      if OwnedBy(p, l) {
        var i :| 0 <= i < |p.entries| && p.entries[i].component.link == l;
        assert AtSide(origin, p.entries[i], ToBefore) && AtSide(links, p.entries[i], ToBefore);
      }
    }
  }

  /** The links still give the confirmed plan, and it moves something. */
  predicate Confirmable(links: map<Path, Path>, m: Manifest, confirmed: Plan) {
    && Current(links, m) && confirmed == PlanFor(links, m)
    && exists i :: 0 <= i < |confirmed.entries| && confirmed.entries[i].before != confirmed.entries[i].after
  }

  lemma ConfirmableMeans(links: map<Path, Path>, m: Manifest, confirmed: Plan)
    ensures Confirmable(links, m, confirmed) ==> Current(links, m) && confirmed == PlanFor(links, m)
    ensures Current(links, m) && confirmed == PlanFor(links, m) ==> AllAt(links, confirmed, ToBefore)
  {
  }

  // ----- what a switch does, in order -----

  datatype Phase = Preflight | Check | Health

  /** What reached the outside: units stopped and started, a link moved, a group's gates passed, a record written. */
  datatype Effect =
    | Stopped(group: string, units: seq<string>)
    | Moved(link: Path, target: Path)
    | Started(group: string, units: seq<string>)
    | Passed(phase: Phase, direction: Direction, group: string)
    | Recorded(status: Status)

  function Reversed(units: seq<string>): (r: seq<string>)
    ensures |r| == |units| && forall i :: 0 <= i < |r| ==> r[i] == units[|units| - 1 - i]
  {
    seq(|units|, i requires 0 <= i < |units| => units[|units| - 1 - i])
  }

  /** The links of one group among the first n entries, each to its own side. */
  function Moves(p: Plan, group: string, d: Direction, n: nat): seq<Effect>
    requires n <= |p.entries|
  {
    if n == 0 then []
    else
      var e := p.entries[n - 1];
      Moves(p, group, d, n - 1)
      + if e.component.group == group then [Moved(e.component.link, if d == ToBefore then e.before else e.after)]
        else []
  }

  /** A group's services are down while its links move, and up before its health is asked for. */
  function GroupSteps(p: Plan, g: Group, d: Direction): seq<Effect> {
    [Stopped(g.id, Reversed(g.units))] + Moves(p, g.id, d, |p.entries|)
    + [Started(g.id, g.units), Passed(Health, d, g.id)]
  }

  function Activation(p: Plan, d: Direction, n: nat): seq<Effect>
    requires n <= |p.manifest.groups|
  {
    if n == 0 then []
    else
      Activation(p, d, n - 1)
      + GroupSteps(p, p.manifest.groups[if d == ToBefore then |p.manifest.groups| - n else n - 1], d)
  }

  function Gates(p: Plan, phase: Phase, d: Direction, n: nat): seq<Effect>
    requires n <= |p.manifest.groups|
  {
    if n == 0 then [] else Gates(p, phase, d, n - 1) + [Passed(phase, d, p.manifest.groups[n - 1].id)]
  }

  function Approval(p: Plan): seq<Effect> {
    var n := |p.manifest.groups|;
    Gates(p, Preflight, ToBefore, n) + Gates(p, Check, ToAfter, n) + Gates(p, Preflight, ToBefore, n)
  }

  /** A whole apply: old release fit to return to, new one checked, and the record around the moves. */
  function ApplySteps(p: Plan): seq<Effect> {
    Approval(p) + [Recorded(Applying)] + Activation(p, ToAfter, |p.manifest.groups|) + [Recorded(Applied)]
  }

  function RollbackSteps(p: Plan): seq<Effect> {
    var n := |p.manifest.groups|;
    Gates(p, Preflight, ToBefore, n) + Gates(p, Check, ToBefore, n)
    + [Recorded(RollingBack)] + Activation(p, ToBefore, n) + [Recorded(RolledBack)]
  }

  /** So far exactly a beginning of what was to be done. */
  predicate Along(before: seq<Effect>, now: seq<Effect>, expected: seq<Effect>) {
    before <= now <= before + expected
  }

  lemma AlongFurther(before: seq<Effect>, mid: seq<Effect>, now: seq<Effect>, first: seq<Effect>, next: seq<Effect>,
                     expected: seq<Effect>)
    requires mid == before + first && Along(mid, now, next) && first + next <= expected
    ensures Along(before, now, expected)
    ensures now == mid + next ==> now == before + (first + next)
  {
    assert mid + next == before + (first + next);
    assert before + (first + next) <= before + expected;
  }

  lemma OthersChain(a: map<Path, Path>, b: map<Path, Path>, c: map<Path, Path>, p: Plan)
    requires OthersUnchanged(a, b, p) && OthersUnchanged(b, c, p)
    ensures OthersUnchanged(a, c, p)
  {
  }

  lemma GroupsStay(before: map<Path, Path>, after: map<Path, Path>, p: Plan, d: Direction)
    requires forall j :: 0 <= j < |p.entries| && AtSide(before, p.entries[j], d) ==> AtSide(after, p.entries[j], d)
    ensures forall g :: GroupAt(before, p, g, d) ==> GroupAt(after, p, g, d)
  {
    hide AtSide;
  }

  lemma OthersStay(links: map<Path, Path>, p: Plan)
    ensures OthersUnchanged(links, links, p)
  {
  }

  lemma {:induction false} ActivationGrows(p: Plan, d: Direction, n: nat, all: nat)
    requires n <= all <= |p.manifest.groups|
    ensures Activation(p, d, n) <= Activation(p, d, all)
  {
    if n < all {
      ActivationGrows(p, d, n, all - 1);
    }
  }

  lemma {:induction false} MovesGrow(p: Plan, group: string, d: Direction, n: nat, all: nat)
    requires n <= all <= |p.entries|
    ensures Moves(p, group, d, n) <= Moves(p, group, d, all)
  {
    if n < all {
      MovesGrow(p, group, d, n, all - 1);
    }
  }

  lemma NoMoves(p: Plan, group: string, d: Direction)
    ensures Moves(p, group, d, 0) == []
  {
  }

  lemma MovesNext(p: Plan, group: string, d: Direction, i: nat)
    requires i < |p.entries|
    ensures var e := p.entries[i];
            Moves(p, group, d, i + 1)
            == Moves(p, group, d, i) + if e.component.group == group
                                       then [Moved(e.component.link, if d == ToBefore then e.before else e.after)]
                                       else []
    ensures Moves(p, group, d, i + 1) <= Moves(p, group, d, |p.entries|)
  {
    MovesGrow(p, group, d, i + 1, |p.entries|);
  }

  lemma {:induction false} GatesGrow(p: Plan, phase: Phase, d: Direction, n: nat, all: nat)
    requires n <= all <= |p.manifest.groups|
    ensures Gates(p, phase, d, n) <= Gates(p, phase, d, all)
  {
    if n < all {
      GatesGrow(p, phase, d, n, all - 1);
    }
  }

  function FirstNames(order: seq<Group>, n: nat): set<string>
    requires n <= |order|
  {
    set m | 0 <= m < n :: order[m].id
  }

  lemma OrderedNames(p: Plan, d: Direction)
    ensures var order := Order(p.manifest.groups, d); GroupNames(p) == FirstNames(order, |order|)
  {
    var groups := p.manifest.groups;
    var order := Order(groups, d);
    forall i | 0 <= i < |groups|
      ensures exists m :: 0 <= m < |order| && order[m].id == groups[i].id
    {
      var m := if d == ToBefore then |groups| - 1 - i else i;
      assert order[m] == groups[i];
    }
  }

  lemma NamesSoFar(p: Plan, d: Direction, n: nat)
    requires n < |p.manifest.groups|
    ensures var order := Order(p.manifest.groups, d);
            && FirstNames(order, n + 1) == FirstNames(order, n) + {order[n].id}
            && FirstNames(order, n) <= GroupNames(p) && order[n].id in GroupNames(p)
  {
    var order := Order(p.manifest.groups, d);
    assert forall m :: 0 <= m < |order| ==> order[m] in p.manifest.groups;
  }

  lemma StoppedElsewhere(before: set<string>, now: set<string>, some: set<string>, name: string, names: set<string>)
    requires now - {name} == (before - some) - {name} && some <= names && name in names
    ensures now - names == before - names
  {
    forall g
      ensures g in now - names <==> g in before - names
    {
      assert g in now - {name} <==> g in (before - some) - {name};
    }
  }

  function GroupNames(p: Plan): set<string> {
    set i | 0 <= i < |p.manifest.groups| :: p.manifest.groups[i].id
  }

  /** Attempts made one after the other, ending so: after a death there are none. */
  ghost predicate Ended(before: seq<Exit>, now: seq<Exit>, exit: Exit) {
    && before <= now
    && (exit == Died ==> |before| < |now| && now[|now| - 1] == Died)
    && forall k :: |before| <= k < |now| - (if exit == Died then 1 else 0) ==> now[k] != Died
  }

  lemma NothingTried(tried: seq<Exit>, exit: Exit)
    requires exit != Died
    ensures Ended(tried, tried, exit)
  {
  }

  lemma TriedOnce(tried: seq<Exit>, exit: Exit)
    ensures Ended(tried, tried + [exit], exit)
  {
  }

  lemma TriedThen(first: seq<Exit>, mid: seq<Exit>, last: seq<Exit>, one: Exit, other: Exit)
    requires Ended(first, mid, one) && one != Died && Ended(mid, last, other)
    ensures Ended(first, last, other)
  {
    forall k | |first| <= k < |last| - (if other == Died then 1 else 0)
      ensures last[k] != Died
    {
      assert k < |mid| ==> last[k] == mid[k];
    }
  }

  lemma EndedAlike(before: seq<Exit>, now: seq<Exit>, one: Exit, other: Exit)
    requires Ended(before, now, one) && (one == Died <==> other == Died)
    ensures Ended(before, now, other)
  {
  }

  /** Whatever gives no result died or failed at its very last attempt; whatever gives one did not die. */
  ghost predicate Interrupted(before: seq<Exit>, now: seq<Exit>, interrupted: bool) {
    if !interrupted then Ended(before, now, Done)
    else Ended(before, now, Died) || (Ended(before, now, Raised) && now != [] && now[|now| - 1] == Raised)
  }

  lemma OutOfApply(before: seq<Exit>, now: seq<Exit>, exit: Exit)
    requires Ended(before, now, exit)
    ensures Interrupted(before, now, exit == Died)
  {
  }

  lemma InterruptedThen(first: seq<Exit>, mid: seq<Exit>, last: seq<Exit>, interrupted: bool)
    requires Ended(first, mid, Done) && Interrupted(mid, last, interrupted)
    ensures Interrupted(first, last, interrupted)
  {
    hide Ended;
    if !interrupted {
      TriedThen(first, mid, last, Done, Done);
    } else if Ended(mid, last, Died) {
      TriedThen(first, mid, last, Done, Died);
    } else {
      TriedThen(first, mid, last, Done, Raised);
    }
  }

  /** What the next attempt meets. */
  function FaultIn(faults: seq<Fault>): Fault {
    if faults == [] then Fine else faults[0]
  }

  /** One attempt: it ends as its fault says, and leaves the others. */
  predicate Meets(before: seq<Fault>, now: seq<Fault>, exit: Exit) {
    && now == (if before == [] then [] else before[1..])
    && (exit == Done <==> FaultIn(before) == Fine)
    && (exit == Raised <==> FaultIn(before) in {RaiseBefore, RaiseAfter})
    && (exit == Died <==> FaultIn(before) in {DieBefore, DieAfter})
  }

  /** An effect happens unless its fault strikes before it. */
  predicate Takes(before: seq<Fault>) {
    FaultIn(before) != RaiseBefore && FaultIn(before) != DieBefore
  }

  class Host {
    var links: map<Path, Path>
    var record: Option<Record>
    var stopped: set<string>
    var faults: seq<Fault>
    ghost var log: seq<Effect>
    ghost var tried: seq<Exit>

    ghost predicate Valid()
      reads this
    {
      RecordTells(links, record) && (record.Some? ==> PlanOk(record.value.plan))
    }

    constructor (links: map<Path, Path>, faults: seq<Fault>)
      ensures Valid() && this.links == links && record.None? && stopped == {} && log == []
    {
      this.links, this.faults, record, stopped := links, faults, None, {};
      log, tried := [], [];
    }

    method NextFault() returns (f: Fault)
      modifies this`faults
      ensures f == FaultIn(old(faults)) && faults == if old(faults) == [] then [] else old(faults)[1..]
    {
      f := Fine;
      if faults != [] {
        f := faults[0];
        faults := faults[1..];
      }
    }

    static function ExitOf(f: Fault): Exit {
      if f == Fine then Done else if f == RaiseBefore || f == RaiseAfter then Raised else Died
    }

    static predicate Happens(f: Fault) {
      f == Fine || f == RaiseAfter || f == DieAfter
    }

    /** An artifact check. */
    method Run() returns (exit: Exit)
      modifies this`faults, this`tried
      ensures Meets(old(faults), faults, exit) && tried == old(tried) + [exit]
    {
      var f := NextFault();
      exit := ExitOf(f);
      tried := tried + [exit];
    }

    /** The gates of one group, all of which must pass. */
    method Gate(phase: Phase, d: Direction, group: string) returns (exit: Exit)
      modifies this`faults, this`tried, this`log
      ensures Meets(old(faults), faults, exit) && tried == old(tried) + [exit]
      ensures log == if Takes(old(faults)) then old(log) + [Passed(phase, d, group)] else old(log)
    {
      var f := NextFault();
      if Happens(f) {
        log := log + [Passed(phase, d, group)];
      }
      exit := ExitOf(f);
      tried := tried + [exit];
    }

    method WriteRecord(r: Record) returns (exit: Exit)
      modifies this`record, this`faults, this`tried, this`log
      ensures Meets(old(faults), faults, exit) && tried == old(tried) + [exit]
      ensures if Takes(old(faults)) then record == Some(r) && log == old(log) + [Recorded(r.status)]
              else record == old(record) && log == old(log)
    {
      var f := NextFault();
      if Happens(f) {
        record := Some(r);
        log := log + [Recorded(r.status)];
      }
      exit := ExitOf(f);
      tried := tried + [exit];
    }

    /** Stop the units of one group in reverse, or start them. */
    method Service(group: Group, stop: bool) returns (exit: Exit)
      modifies this`stopped, this`faults, this`tried, this`log
      ensures Meets(old(faults), faults, exit) && tried == old(tried) + [exit]
      ensures if !Takes(old(faults)) then log == old(log) && stopped == old(stopped)
              else if stop then
                log == old(log) + [Stopped(group.id, Reversed(group.units))] && stopped == old(stopped) + {group.id}
              else log == old(log) + [Started(group.id, group.units)] && stopped == old(stopped) - {group.id}
    {
      var f := NextFault();
      if Happens(f) {
        if stop {
          stopped := stopped + {group.id};
          log := log + [Stopped(group.id, Reversed(group.units))];
        } else {
          stopped := stopped - {group.id};
          log := log + [Started(group.id, group.units)];
        }
      }
      exit := ExitOf(f);
      tried := tried + [exit];
    }

    /** A link only ever moves while its group's services are stopped. */
    method Flip(group: string, link: Path, target: Path) returns (exit: Exit)
      requires group in stopped
      modifies this`links, this`faults, this`tried, this`log
      ensures Meets(old(faults), faults, exit) && tried == old(tried) + [exit]
      ensures if Takes(old(faults)) then links == old(links)[link := target] && log == old(log) + [Moved(link, target)]
              else links == old(links) && log == old(log)
    {
      var f := NextFault();
      if Happens(f) {
        links := links[link := target];
        log := log + [Moved(link, target)];
      }
      exit := ExitOf(f);
      tried := tried + [exit];
    }

    method FlipEntry(p: Plan, i: nat, d: Direction) returns (exit: Exit)
      requires Movable(p) && AllEither(links, p) && i < |p.entries| && p.entries[i].component.group in stopped
      modifies this`links, this`faults, this`tried, this`log
      ensures AllEither(links, p) && OthersUnchanged(old(links), links, p)
      ensures exit == Done ==> AtSide(links, p.entries[i], d)
      ensures forall j :: 0 <= j < |p.entries| && AtSide(old(links), p.entries[j], d) ==>
          AtSide(links, p.entries[j], d)
      ensures var moved := Moved(p.entries[i].component.link, if d == ToBefore then p.entries[i].before
                                                              else p.entries[i].after);
              log == old(log) + [moved] || (log == old(log) && exit != Done)
      ensures old(faults) == [] ==> exit == Done && faults == []
      ensures Ended(old(tried), tried, exit)
    {
      hide Movable, Ended;
      FlipLocal(links, p, i, d);
      exit := Flip(p.entries[i].component.group, p.entries[i].component.link, Side(p.entries[i], d));
      TriedOnce(old(tried), exit);
    }

    method FlipGroup(p: Plan, group: string, d: Direction) returns (exit: Exit)
      requires Movable(p) && AllEither(links, p) && group in stopped
      modifies this`links, this`faults, this`tried, this`log
      ensures AllEither(links, p) && OthersUnchanged(old(links), links, p)
      ensures exit == Done ==> GroupAt(links, p, group, d)
      ensures forall j :: 0 <= j < |p.entries| && AtSide(old(links), p.entries[j], d) ==>
          AtSide(links, p.entries[j], d)
      ensures Along(old(log), log, Moves(p, group, d, |p.entries|))
      ensures exit == Done ==> log == old(log) + Moves(p, group, d, |p.entries|)
      ensures old(faults) == [] ==> exit == Done && faults == []
      ensures Ended(old(tried), tried, exit)
    {
      hide Movable, AllEither, OthersUnchanged, AtSide, AtEither, Side, Moves, Ended;
      OthersStay(links, p);
      NothingTried(tried, Done);
      NoMoves(p, group, d);
      for i := 0 to |p.entries|
        invariant AllEither(links, p) && OthersUnchanged(old(links), links, p)
        invariant forall j :: 0 <= j < i && p.entries[j].component.group == group ==> AtSide(links, p.entries[j], d)
        invariant forall j :: 0 <= j < |p.entries| && AtSide(old(links), p.entries[j], d) ==>
            AtSide(links, p.entries[j], d)
        invariant old(faults) == [] ==> faults == []
        invariant log == old(log) + Moves(p, group, d, i)
        invariant Ended(old(tried), tried, Done)
      {
        MovesNext(p, group, d, i);
        if p.entries[i].component.group == group {
          ghost var before, tries := links, tried;
          exit := FlipEntry(p, i, d);
          OthersChain(old(links), before, links, p);
          TriedThen(old(tried), tries, tried, Done, exit);
          if exit != Done {
            return;
          }
        }
      }
      exit := Done;
    }

    /** One group's part of a switch. */
    method SwitchGroup(p: Plan, g: Group, d: Direction) returns (exit: Exit)
      requires Movable(p) && AllEither(links, p)
      modifies this`links, this`stopped, this`faults, this`tried, this`log
      ensures AllEither(links, p) && OthersUnchanged(old(links), links, p)
      ensures exit == Done ==> GroupAt(links, p, g.id, d)
      ensures forall h :: GroupAt(old(links), p, h, d) ==> GroupAt(links, p, h, d)
      ensures Along(old(log), log, GroupSteps(p, g, d))
      ensures exit == Done ==> log == old(log) + GroupSteps(p, g, d) && stopped == old(stopped) - {g.id}
      ensures stopped - {g.id} == old(stopped) - {g.id}
      ensures old(faults) == [] ==> exit == Done && faults == []
      ensures Ended(old(tried), tried, exit)
    {
      hide Movable, AllEither, OthersUnchanged, GroupAt, Moves, Ended;
      OthersStay(links, p);
      ghost var start, moves := [Stopped(g.id, Reversed(g.units))], Moves(p, g.id, d, |p.entries|);
      ghost var last := [Started(g.id, g.units), Passed(Health, d, g.id)];
      assert GroupSteps(p, g, d) == start + moves + last;
      exit := Service(g, true);
      TriedOnce(old(tried), exit);
      if exit != Done {
        return;
      }
      ghost var before, tries := links, tried;
      exit := FlipGroup(p, g.id, d);
      GroupsStay(before, links, p, d);
      AlongFurther(old(log), old(log) + start, log, start, moves, GroupSteps(p, g, d));
      TriedThen(old(tried), tries, tried, Done, exit);
      if exit != Done {
        return;
      }
      tries := tried;
      exit := Service(g, false);
      TriedOnce(tries, exit);
      TriedThen(old(tried), tries, tried, Done, exit);
      if exit != Done {
        return;
      }
      tries := tried;
      exit := Gate(Health, d, g.id);
      TriedOnce(tries, exit);
      TriedThen(old(tried), tries, tried, Done, exit);
    }

    /** Groups in manifest order towards the new releases, in reverse towards the old ones. */
    method Activate(p: Plan, d: Direction) returns (exit: Exit)
      requires Movable(p) && AllEither(links, p)
      modifies this`links, this`stopped, this`faults, this`tried, this`log
      ensures AllEither(links, p) && OthersUnchanged(old(links), links, p)
      ensures exit == Done ==> AllAt(links, p, d)
      ensures Along(old(log), log, Activation(p, d, |p.manifest.groups|))
      ensures exit == Done ==> log == old(log) + Activation(p, d, |p.manifest.groups|)
      ensures exit == Done ==> stopped == old(stopped) - GroupNames(p)
      ensures stopped - GroupNames(p) == old(stopped) - GroupNames(p)
      ensures old(faults) == [] ==> exit == Done && faults == []
      ensures Ended(old(tried), tried, exit)
    {
      hide Movable, AllEither, OthersUnchanged, GroupAt, AllAt, GroupSteps, GroupNames, Ended;
      NothingTried(tried, Done);
      OthersStay(links, p);
      var order := Order(p.manifest.groups, d);
      ghost var all := Activation(p, d, |order|);
      for n := 0 to |order|
        invariant AllEither(links, p) && OthersUnchanged(old(links), links, p)
        invariant forall m :: 0 <= m < n ==> GroupAt(links, p, order[m].id, d)
        invariant old(faults) == [] ==> faults == []
        invariant log == old(log) + Activation(p, d, n)
        invariant Ended(old(tried), tried, Done)
        invariant stopped == old(stopped) - FirstNames(order, n)
      {
        ghost var before, so, tries := links, log, tried;
        ActivationGrows(p, d, n + 1, |order|);
        assert Activation(p, d, n + 1) == Activation(p, d, n) + GroupSteps(p, order[n], d);
        NamesSoFar(p, d, n);
        exit := SwitchGroup(p, order[n], d);
        TriedThen(old(tried), tries, tried, Done, exit);
        OthersChain(old(links), before, links, p);
        AlongFurther(old(log), so, log, Activation(p, d, n), GroupSteps(p, order[n], d), all);
        if exit != Done {
          StoppedElsewhere(old(stopped), stopped, FirstNames(order, n), order[n].id, GroupNames(p));
          return;
        }
      }
      EveryGroupEveryEntry(links, p, d);
      OrderedNames(p, d);
      exit := Done;
    }

    /** Outside changes and altered rollback artifacts are refused before anything moves. */
    method ValidateRecovery(p: Plan) returns (exit: Exit)
      modifies this`faults, this`tried
      ensures exit == Done ==> AllEither(links, p)
      ensures old(faults) == [] ==> faults == [] && (exit == Done <==> AllEither(links, p))
      ensures Ended(old(tried), tried, exit)
    {
      hide AllEither, Ended;
      if !AllEither(links, p) {
        NothingTried(tried, Raised);
        return Raised;
      }
      exit := Run();
      TriedOnce(old(tried), exit);
    }

    /** gates() over every group of the plan. */
    method PassGates(p: Plan, phase: Phase, d: Direction) returns (exit: Exit)
      modifies this`faults, this`tried, this`log
      ensures Along(old(log), log, Gates(p, phase, d, |p.manifest.groups|))
      ensures exit == Done ==> log == old(log) + Gates(p, phase, d, |p.manifest.groups|)
      ensures old(faults) == [] ==> exit == Done && faults == []
      ensures Ended(old(tried), tried, exit)
    {
      hide Ended;
      NothingTried(tried, Done);
      for n := 0 to |p.manifest.groups|
        invariant old(faults) == [] ==> faults == []
        invariant log == old(log) + Gates(p, phase, d, n)
        invariant Ended(old(tried), tried, Done)
      {
        ghost var tries := tried;
        GatesGrow(p, phase, d, n + 1, |p.manifest.groups|);
        GatesGrow(p, phase, d, n, |p.manifest.groups|);
        exit := Gate(phase, d, p.manifest.groups[n].id);
        TriedOnce(tries, exit);
        TriedThen(old(tried), tries, tried, Done, exit);
        if exit != Done {
          return;
        }
      }
      exit := Done;
    }

    /** What a rollback asks before it writes anything. */
    method MayRollBack(p: Plan) returns (exit: Exit)
      modifies this`faults, this`tried, this`log
      ensures exit == Done ==>
                && AllEither(links, p)
                && log == old(log) + Gates(p, Preflight, ToBefore, |p.manifest.groups|)
                                   + Gates(p, Check, ToBefore, |p.manifest.groups|)
      ensures old(faults) == [] && AllEither(links, p) ==> exit == Done && faults == []
      ensures Ended(old(tried), tried, exit)
    {
      hide AllEither, Gates, Ended;
      exit := ValidateRecovery(p);
      if exit == Done {
        ghost var tries := tried;
        exit := PassGates(p, Preflight, ToBefore);
        TriedThen(old(tried), tries, tried, Done, exit);
      }
      if exit == Done {
        ghost var tries := tried;
        exit := PassGates(p, Check, ToBefore);
        TriedThen(old(tried), tries, tried, Done, exit);
      }
      if exit == Done {
        ghost var tries := tried;
        exit := ValidateRecovery(p);
        TriedThen(old(tried), tries, tried, Done, exit);
      }
    }

    /** The guarded part of a rollback: what fails in it is recorded as failed recovery. */
    method Restore(p: Plan) returns (exit: Exit)
      requires Valid() && record == Some(Record(RollingBack, p)) && AllEither(links, p)
      modifies this
      ensures Valid() && record.Some? && record.value.plan == p
      ensures OthersUnchanged(old(links), links, p)
      ensures exit == Done ==>
                && AllAt(links, p, ToBefore) && record.value.status == RolledBack
                && log == old(log) + Activation(p, ToBefore, |p.manifest.groups|) + [Recorded(RolledBack)]
      ensures exit == Done ==> stopped == old(stopped) - GroupNames(p)
      ensures stopped - GroupNames(p) == old(stopped) - GroupNames(p)
      ensures old(faults) == [] ==> exit == Done && faults == []
      ensures Ended(old(tried), tried, exit)
      ensures exit == Raised ==>
          tried != [] && (record.value.status == RecoveryFailed || tried[|tried| - 1] == Raised)
    {
      hide Movable, AllEither, AllAt, OthersUnchanged, PlanOk, Activation, GroupNames, Ended;
      PlansAreMovable(p);
      exit := Activate(p, ToBefore);
      if exit == Done {
        ghost var tries := tried;
        exit := WriteRecord(Record(RolledBack, p));
        TriedOnce(tries, exit);
        TriedThen(old(tried), tries, tried, Done, exit);
      }
      if exit == Raised {
        ghost var tries := tried;
        var written := WriteRecord(Record(RecoveryFailed, p));
        TriedOnce(tries, written);
        TriedThen(old(tried), tries, tried, Raised, written);
        exit := if written == Died then Died else Raised;
        EndedAlike(old(tried), tried, written, exit);
      }
    }

    /** Rollback of the plan in hand, whose in-memory status may be ahead of the durable record. */
    method Rollback(p: Plan, status: Status) returns (exit: Exit, after: Status)
      requires Valid() && record.Some? && record.value.plan == p
      requires status == RolledBack || status == RecoveryFailed ==> record.value.status == status
      modifies this
      ensures Valid() && record.Some? && record.value.plan == p
      ensures OthersUnchanged(old(links), links, p)
      ensures exit == Done ==> AllAt(links, p, ToBefore) && record.value.status == RolledBack && after == RolledBack
      ensures exit == Done ==>
                if status == RolledBack then log == old(log) && stopped == old(stopped)
                else log == old(log) + RollbackSteps(p) && stopped == old(stopped) - GroupNames(p)
      ensures stopped - GroupNames(p) == old(stopped) - GroupNames(p)
      ensures old(faults) == [] ==> exit == Done && faults == []
      ensures Ended(old(tried), tried, exit)
      ensures exit == Raised && after != RecoveryFailed ==>
                && links == old(links) && stopped == old(stopped)
                && (record == old(record) || record.value.status == RollingBack)
      ensures exit == Raised && after == RecoveryFailed ==>
                record.value.status == RecoveryFailed || (tried != [] && tried[|tried| - 1] == Raised)
    {
      hide AllEither, AllAt, OthersUnchanged, PlanOk, Activation, Gates, GroupNames, Ended;
      OthersStay(links, p);
      after := status;
      if status == RolledBack {
        exit := ValidateRecovery(p);
        return;
      }
      exit := MayRollBack(p);
      if exit != Done {
        return;
      }
      after := RollingBack;
      ghost var tries := tried;
      exit := WriteRecord(Record(RollingBack, p));
      TriedOnce(tries, exit);
      TriedThen(old(tried), tries, tried, Done, exit);
      if exit != Done {
        return;
      }
      tries := tried;
      exit := Restore(p);
      TriedThen(old(tried), tries, tried, Done, exit);
      after := if exit == Done then RolledBack else RecoveryFailed;
    }

    /**
     * What an apply may leave: nothing moved and the old record, or a record of the plan that began
     * where it found things.
     */
    twostate predicate Began(p: Plan)
      reads this
    {
      && record.Some? && record.value.plan == p
      && AllAt(old(links), p, ToBefore)
      && OthersUnchanged(old(links), links, p)
    }

    /** The release to return to must pass, and the new one, and the old one again after that. */
    method Approve(p: Plan) returns (exit: Exit)
      modifies this`faults, this`tried, this`log
      ensures exit == Done ==> log == old(log) + Approval(p)
      ensures old(faults) == [] ==> exit == Done && faults == []
      ensures Ended(old(tried), tried, exit)
    {
      hide Gates, Ended;
      exit := PassGates(p, Preflight, ToBefore);
      if exit == Done {
        ghost var tries := tried;
        exit := PassGates(p, Check, ToAfter);
        TriedThen(old(tried), tries, tried, Done, exit);
      }
      if exit == Done {
        ghost var tries := tried;
        exit := PassGates(p, Preflight, ToBefore);
        TriedThen(old(tried), tries, tried, Done, exit);
      }
    }

    /** Everything apply checks before its first write: the links still give the confirmed plan and something moves. */
    method Confirm(m: Manifest, confirmed: Plan) returns (exit: Exit, why: string)
      modifies this`faults, this`tried, this`log
      ensures exit == Done ==> Current(links, m) && confirmed == PlanFor(links, m)
      ensures exit == Done ==> log == old(log) + Approval(confirmed)
      ensures exit == Done ==>
          exists i :: 0 <= i < |confirmed.entries| && confirmed.entries[i].before != confirmed.entries[i].after
      ensures old(faults) == [] && Confirmable(links, m, confirmed) ==> exit == Done && faults == []
      ensures !Confirmable(links, m, confirmed) ==> exit == Raised && log == old(log) && tried == old(tried)
      ensures !Current(links, m) ==> why == "current link escapes version directory"
      ensures Current(links, m) && confirmed != PlanFor(links, m) ==> why == "plan changed; inspect a new plan"
      ensures Current(links, m) && confirmed == PlanFor(links, m) && !Confirmable(links, m, confirmed) ==>
          why == "no versions to switch"
      ensures Confirmable(links, m, confirmed) ==>
          why == "release gate failed before switching; links and services unchanged"
      ensures Ended(old(tried), tried, exit)
    {
      hide Ended;
      NothingTried(tried, Raised);
      if !Current(links, m) {
        return Raised, "current link escapes version directory";
      }
      if PlanFor(links, m) != confirmed {
        return Raised, "plan changed; inspect a new plan";
      }
      if forall i :: 0 <= i < |confirmed.entries| ==> confirmed.entries[i].before == confirmed.entries[i].after {
        return Raised, "no versions to switch";
      }
      exit := Approve(confirmed);
      why := "release gate failed before switching; links and services unchanged";
    }

    /** Confirm, and write the record that everything after it is recovered by. */
    method Commence(m: Manifest, confirmed: Plan) returns (exit: Exit, why: string)
      requires Valid() && WellFormed(m)
      modifies this`record, this`faults, this`tried, this`log
      ensures Valid() && (record == old(record) || record == Some(Record(Applying, confirmed)))
      ensures record != old(record) || exit == Done ==> AllAt(links, confirmed, ToBefore)
      ensures exit == Done ==>
          record == Some(Record(Applying, confirmed)) && log == old(log) + Approval(confirmed) + [Recorded(Applying)]
      ensures old(faults) == [] && Confirmable(links, m, confirmed) ==> exit == Done && faults == []
      ensures Ended(old(tried), tried, exit)
    {
      hide AllEither, AllAt, PlanOk, Current, WellFormed, Ended, Confirmable, PlanFor, Approval;
      ConfirmableMeans(links, m, confirmed);
      exit, why := Confirm(m, confirmed);
      if exit == Done {
        PlanForOk(links, m);
        ghost var tries := tried;
        exit := WriteRecord(Record(Applying, confirmed));
        TriedOnce(tries, exit);
        TriedThen(old(tried), tries, tried, Done, exit);
        why := "switch record could not be written";
      }
    }

    /**
     * Ok(true) applied, Ok(false) not; Err refused before any link moved; None when the process
     * died or a last write failed.
     */
    method Apply(m: Manifest, confirmed: Plan) returns (result: Option<Result<bool>>)
      requires Valid() && WellFormed(m)
      modifies this
      ensures Valid()
      ensures old(record).Some? && !Finished(old(record).value.status) ==>
                && result == Some(Err("unfinished switch: rollback its recorded plan first"))
                && links == old(links) && record == old(record) && log == old(log) && tried == old(tried)
      ensures result == Some(Ok(true)) ==>
                && record == Some(Record(Applied, confirmed)) && AllAt(links, confirmed, ToAfter)
                && log == old(log) + ApplySteps(confirmed) && stopped == old(stopped) - GroupNames(confirmed)
      ensures stopped - GroupNames(confirmed) == old(stopped) - GroupNames(confirmed)
      ensures result == Some(Ok(false)) ==>
                || record == Some(Record(RecoveryFailed, confirmed))
                || (record == Some(Record(RolledBack, confirmed)) && AllAt(links, confirmed, ToBefore)
                    && stopped == old(stopped) - GroupNames(confirmed))
      ensures result.Some? && result.value.Err? ==>
                && links == old(links) && stopped == old(stopped)
                && (record == old(record) || record == Some(Record(Applying, confirmed)))
      ensures (links == old(links) && record == old(record)) || Began(confirmed)
      ensures (old(faults) == [] && (old(record).None? || Finished(old(record).value.status))
               && Confirmable(old(links), m, confirmed)) ==> result == Some(Ok(true)) && faults == []
      ensures Interrupted(old(tried), tried, result.None?)
    {
      hide AllEither, AllAt, OthersUnchanged, PlanOk, Activation, Gates, GroupNames, Current, WellFormed, Ended,
        Confirmable, PlanFor, Approval, Interrupted;
      NothingTried(tried, Done);
      OthersStay(links, confirmed);
      OutOfApply(tried, tried, Done);
      if record.Some? && !Finished(record.value.status) {
        return Some(Err("unfinished switch: rollback its recorded plan first"));
      }
      var exit, why := Commence(m, confirmed);
      OutOfApply(old(tried), tried, exit);
      if exit != Done {
        return if exit == Died then None else Some(Err(why));
      }
      ghost var tries := tried;
      var ok := Switch(confirmed);
      InterruptedThen(old(tried), tries, tried, ok.None?);
      result := if ok.Some? then Some(Ok(ok.value)) else None;
    }

    /** The guarded part of apply: move every group, record it, and roll back on any refusal. */
    method Switch(p: Plan) returns (ok: Option<bool>)
      requires Valid() && record == Some(Record(Applying, p)) && AllAt(links, p, ToBefore)
      modifies this
      ensures Valid() && Began(p)
      ensures ok == Some(true) ==>
                && record == Some(Record(Applied, p)) && AllAt(links, p, ToAfter)
                && log == old(log) + Activation(p, ToAfter, |p.manifest.groups|) + [Recorded(Applied)]
      ensures ok == Some(true) ==> stopped == old(stopped) - GroupNames(p)
      ensures stopped - GroupNames(p) == old(stopped) - GroupNames(p)
      ensures ok == Some(false) ==>
                || record == Some(Record(RecoveryFailed, p))
                || (record == Some(Record(RolledBack, p)) && AllAt(links, p, ToBefore)
                    && stopped == old(stopped) - GroupNames(p))
      ensures old(faults) == [] ==> ok == Some(true) && faults == []
      ensures Interrupted(old(tried), tried, ok.None?)
    {
      hide Movable, AllEither, AllAt, OthersUnchanged, PlanOk, Activation, Gates, GroupNames, Ended;
      PlansAreMovable(p);
      ghost var origin, down := links, stopped;
      var exit := Activate(p, ToAfter);
      ghost var moved := links;
      var status := Applying;
      if exit == Done {
        status := Applied;
        ghost var tries := tried;
        exit := WriteRecord(Record(Applied, p));
        TriedOnce(tries, exit);
        TriedThen(old(tried), tries, tried, Done, exit);
        if exit == Done {
          return Some(true);
        }
      }
      if exit == Died {
        return None;
      }
      ghost var tries := tried;
      exit, status := Rollback(p, status);
      TriedThen(old(tried), tries, tried, Raised, exit);
      OthersChain(origin, moved, links, p);
      if exit == Raised {
        tries := tried;
        exit := WriteRecord(Record(RecoveryFailed, p));
        TriedOnce(tries, exit);
        TriedThen(old(tried), tries, tried, Raised, exit);
      }
      ok := if exit == Done then Some(false) else None;
    }

    method RollbackRecorded() returns (exit: Exit)
      requires Valid()
      modifies this
      ensures Valid()
      ensures old(record).None? ==> exit == Raised && links == old(links) && record.None?
      ensures old(record).Some? ==> record.Some? && record.value.plan == old(record).value.plan
                                    && OthersUnchanged(old(links), links, record.value.plan)
      ensures exit == Done ==> record.value.status == RolledBack && AllAt(links, record.value.plan, ToBefore)
      ensures exit == Done && old(record).value.status != RolledBack ==>
                && log == old(log) + RollbackSteps(record.value.plan)
                && stopped == old(stopped) - GroupNames(record.value.plan)
      ensures old(faults) == [] && old(record).Some? ==> exit == Done
    {
      if record.None? {
        return Raised;
      }
      var after;
      exit, after := Rollback(record.value.plan, record.value.status);
    }

    /** However an apply ended, a rollback that finishes puts every link back where the apply found it. */
    method ApplyThenRecover(m: Manifest, confirmed: Plan) returns (recovered: bool)
      requires Valid() && WellFormed(m)
      modifies this
      ensures Valid()
      ensures recovered ==> links == old(links)
      ensures (old(faults) == [] && Confirmable(old(links), m, confirmed)
               && (old(record).None? || (Finished(old(record).value.status) && old(record).value.plan != confirmed)))
              ==> recovered
    {
      hide AllEither, AllAt, OthersUnchanged, PlanOk, Activation, Gates, GroupNames, Ended, Interrupted, WellFormed,
        Current, RecordTells, Approval, ApplySteps, RollbackSteps;
      ghost var origin := links;
      var earlier := record;
      var result := Apply(m, confirmed);
      if record == earlier {
        return false;
      }
      ghost var moved := links;
      var exit := RollbackRecorded();
      if exit == Done {
        OthersChain(origin, moved, links, confirmed);
        RestoredLinks(origin, links, confirmed);
      }
      recovered := exit == Done;
    }

    /** Any sequence of applies and rollbacks, each of which may die anywhere, keeps the record truthful. */
    method Operate(requests: seq<Option<(Manifest, Plan)>>)
      requires Valid()
      modifies this
      ensures Valid()
    {
      for i := 0 to |requests|
        invariant Valid()
      {
        if requests[i].None? {
          var exit := RollbackRecorded();
        } else {
          var ok := ValidateManifest(requests[i].value.0);
          if ok {
            var result := Apply(requests[i].value.0, requests[i].value.1);
          }
        }
      }
    }
  }
}
