/** The one-pass scan of a native rollout log for completed turns. */
module RolloutScan {
  import opened Wrappers

  const MAX_LOG_BYTES: nat := 268435456
  const MAX_RECORD_BYTES: nat := 4194304
  const MAX_TURNS: nat := 4096

  datatype Event = TaskStarted | TaskComplete | TurnAborted

  /** A decoded record; a member that is absent or not text is None. */
  datatype Record =
    | Malformed
    | SessionMeta(id: Option<string>, cwd: Option<string>)
    | TurnContext(turn: Option<string>, cwd: Option<string>)
    | Lifecycle(event: Event, turn: Option<string>)
    | Other

  type Size = n: nat | n > 0 witness 1

  /** One readline result, never empty. */
  datatype Line = Line(size: Size, ended: bool, record: Record)

  function Bytes(log: seq<Line>): nat {
    if log == [] then 0 else Bytes(log[..|log| - 1]) + log[|log| - 1].size
  }

  /** The turn lifecycle events, in log order. */
  function Lifecycles(log: seq<Line>): seq<Record> {
    if log == [] then [] else
      var last := log[|log| - 1].record;
      Lifecycles(log[..|log| - 1]) + if last.Lifecycle? then [last] else []
  }

  predicate LineOk(line: Line, thread: string, root: string) {
    && line.ended && line.size <= MAX_RECORD_BYTES
    && !line.record.Malformed?
    && (line.record.SessionMeta? ==> line.record.id == Some(thread) && line.record.cwd == Some(root))
    && (line.record.TurnContext? ==> line.record.turn.Some? && line.record.cwd.Some?)
    && (line.record.Lifecycle? ==> line.record.turn.Some? && line.record.turn.value != "")
  }

  predicate LinesOk(log: seq<Line>, thread: string, root: string) {
    && (forall i :: 0 <= i < |log| ==> LineOk(log[i], thread, root))
    && Bytes(log) <= MAX_LOG_BYTES
    && (log != [] ==> log[0].record.SessionMeta?)
  }

  function ContextTurns(log: seq<Line>): set<string> {
    set i | 0 <= i < |log| && log[i].record.TurnContext? && log[i].record.turn.Some? :: log[i].record.turn.value
  }

  predicate SameRoot(a: Record, b: Record) {
    a.TurnContext? && b.TurnContext? && a.turn == b.turn ==> a.cwd == b.cwd
  }

  function TurnIn(record: Record): set<string> {
    if record.TurnContext? && record.turn.Some? then {record.turn.value} else {}
  }

  /** A turn never changes its root, and there are not too many turns. */
  predicate ContextsOk(log: seq<Line>) {
    && (forall i, j :: 0 <= i < j < |log| ==> SameRoot(log[i].record, log[j].record))
    && |ContextTurns(log)| <= MAX_TURNS
  }

  predicate IsStart(e: Record) {
    e.Lifecycle? && e.event.TaskStarted? && e.turn.Some?
  }

  function Starts(events: seq<Record>): set<string> {
    set k | 0 <= k < |events| && IsStart(events[k]) :: events[k].turn.value
  }

  predicate EventOk(events: seq<Record>, k: nat)
    requires k < |events|
  {
    && events[k].Lifecycle? && events[k].turn.Some?
    && (k % 2 == 0 <==> events[k].event.TaskStarted?)
    && (k % 2 == 1 ==> events[k - 1].Lifecycle? && events[k].turn == events[k - 1].turn)
  }

  /** Starts and ends alternate, each end closes the start before it, and no turn starts twice. */
  predicate Bracketed(events: seq<Record>) {
    && (forall k :: 0 <= k < |events| ==> EventOk(events, k))
    && (forall j, k :: 0 <= j < k < |events| && IsStart(events[j]) && IsStart(events[k]) ==>
        events[j].turn != events[k].turn)
    && |Starts(events)| <= MAX_TURNS
  }

  predicate Sound(log: seq<Line>, thread: string, root: string) {
    LinesOk(log, thread, root) && ContextsOk(log) && Bracketed(Lifecycles(log))
  }

  predicate TurnOpen(log: seq<Line>) {
    |Lifecycles(log)| % 2 == 1
  }

  predicate Complete(log: seq<Line>, thread: string, root: string) {
    Sound(log, thread, root) && !TurnOpen(log)
  }

  /** Turns that completed after a context under the project root. */
  ghost function CompletedTurns(log: seq<Line>, root: string): iset<string> {
    iset t | CompletedIn(log, root, t)
  }

  ghost predicate CompletedIn(log: seq<Line>, root: string, t: string) {
    exists i, j :: 0 <= i < j < |log|
                   && log[i].record == TurnContext(Some(t), Some(root))
                   && log[j].record == Lifecycle(TaskComplete, Some(t))
  }

  /** Whole lines only, of this thread under this root, with what their kind must say. */
  lemma LineOkIff(line: Line, thread: string, root: string)
    ensures LineOk(line, thread, root) <==>
            && line.ended && line.size <= 4_194_304
            && match line.record
               case Malformed => false
               case SessionMeta(id, cwd) => id == Some(thread) && cwd == Some(root)
               case TurnContext(turn, cwd) => turn.Some? && cwd.Some?
               case Lifecycle(_, turn) => turn.Some? && turn.value != ""
               case Other => true
  {
  }

  /** A sound log begins with its session and stays within 256 megabytes and 4096 turns. */
  lemma SoundBounds(log: seq<Line>, thread: string, root: string)
    requires Sound(log, thread, root)
    ensures log != [] ==> log[0].record == SessionMeta(Some(thread), Some(root))
    ensures Bytes(log) <= 268_435_456 && |ContextTurns(log)| <= 4096 && |Starts(Lifecycles(log))| <= 4096
    ensures forall i :: 0 <= i < |log| ==> LineOk(log[i], thread, root)
  {
  }

  // Growing a log by one line.

  lemma Grown(log: seq<Line>, line: Line)
    ensures (log + [line])[..|log|] == log
    ensures Bytes(log + [line]) == Bytes(log) + line.size
    ensures Lifecycles(log + [line]) == Lifecycles(log) + if line.record.Lifecycle? then [line.record] else []
  {
    assert (log + [line])[..|log|] == log;
  }

  lemma GrownLines(log: seq<Line>, line: Line, thread: string, root: string)
    ensures LinesOk(log + [line], thread, root) <==>
            LinesOk(log, thread, root) && LineOk(line, thread, root) && Bytes(log) + line.size <= MAX_LOG_BYTES
            && (log == [] ==> line.record.SessionMeta?)
  {
    Grown(log, line);
    var more := log + [line];
    assert more[|log|] == line;
    assert forall i :: 0 <= i < |log| ==> more[i] == log[i];
  }

  lemma GrownContexts(log: seq<Line>, line: Line)
    ensures ContextTurns(log + [line]) == ContextTurns(log) + TurnIn(line.record)
    ensures |ContextTurns(log)| <= |ContextTurns(log + [line])|
    ensures ContextsOk(log + [line]) <==>
            ContextsOk(log) && |ContextTurns(log + [line])| <= MAX_TURNS
            && forall i :: 0 <= i < |log| ==> SameRoot(log[i].record, line.record)
  {
    var more := log + [line];
    assert more[|log|] == line;
    assert forall i :: 0 <= i < |log| ==> more[i] == log[i];
    forall t | t in ContextTurns(log)
      ensures t in ContextTurns(more)
    {
      var i :| 0 <= i < |log| && log[i].record.TurnContext? && log[i].record.turn == Some(t);
      assert more[i].record.turn == Some(t);
    }
    SmallerSet(ContextTurns(log), ContextTurns(more));
  }

  lemma SmallerSet<T>(a: set<T>, b: set<T>)
    requires a <= b
    ensures |a| <= |b|
  {
    assert b == a + (b - a);
  }

  lemma GrownStarts(events: seq<Record>, e: Record)
    ensures Starts(events + [e]) == Starts(events) + if IsStart(e) then {e.turn.value} else {}
    ensures |Starts(events)| <= |Starts(events + [e])|
  {
    var more := events + [e];
    assert more[|events|] == e;
    assert forall k :: 0 <= k < |events| ==> more[k] == events[k];
    forall t | t in Starts(events)
      ensures t in Starts(more)
    {
      var k :| 0 <= k < |events| && IsStart(events[k]) && events[k].turn == Some(t);
      assert IsStart(more[k]);
    }
    SmallerSet(Starts(events), Starts(more));
  }

  lemma StartedAlready(events: seq<Record>, e: Record)
    requires IsStart(e)
    ensures e.turn.value in Starts(events) <==>
            exists k :: 0 <= k < |events| && IsStart(events[k]) && events[k].turn == e.turn
  {
  }

  lemma GrownEvents(events: seq<Record>, e: Record)
    ensures Starts(events + [e]) == Starts(events) + if IsStart(e) then {e.turn.value} else {}
    ensures Bracketed(events + [e]) <==>
            Bracketed(events) && EventOk(events + [e], |events|) && |Starts(events + [e])| <= MAX_TURNS
            && (IsStart(e) ==> e.turn.value !in Starts(events))
  {
    hide Starts;
    var more := events + [e];
    GrownStarts(events, e);
    if IsStart(e) {
      StartedAlready(events, e);
    }
    assert more[|events|] == e;
    assert forall k :: 0 <= k < |events| ==> more[k] == events[k];
    forall k | 0 <= k < |events|
      ensures EventOk(more, k) <==> EventOk(events, k)
    {
      assert k > 0 ==> more[k - 1] == events[k - 1];
    }
  }

  lemma GrownCompleted(log: seq<Line>, line: Line, root: string, t: string)
    ensures CompletedIn(log + [line], root, t) <==>
            CompletedIn(log, root, t)
            || (line.record == Lifecycle(TaskComplete, Some(t))
                && exists i :: 0 <= i < |log| && log[i].record == TurnContext(Some(t), Some(root)))
  {
    var more := log + [line];
    assert more[|log|] == line;
    assert forall i :: 0 <= i < |log| ==> more[i] == log[i];
  }

  /** A log that goes wrong stays wrong: every cut of a sound log is sound. */
  lemma {:induction false} CutIsSound(log: seq<Line>, cut: nat, thread: string, root: string)
    requires cut <= |log| && Sound(log, thread, root)
    ensures Sound(log[..cut], thread, root)
  {
    if cut == |log| {
      assert log[..cut] == log;
    } else {
      var init, line := log[..|log| - 1], log[|log| - 1];
      assert log == init + [line];
      Grown(init, line);
      GrownLines(init, line, thread, root);
      GrownContexts(init, line);
      if line.record.Lifecycle? {
        GrownEvents(Lifecycles(init), line.record);
      } else {
        assert Lifecycles(log) == Lifecycles(init);
      }
      CutIsSound(init, cut, thread, root);
      assert init[..cut] == log[..cut];
    }
  }

  /**
   * A cut of a good log is itself good exactly when no turn is open there, and it never reports a
   * turn the whole log denies.
   */
  lemma CutsAreSafe(log: seq<Line>, cut: nat, thread: string, root: string)
    requires cut <= |log| && Complete(log, thread, root)
    ensures Complete(log[..cut], thread, root) <==> !TurnOpen(log[..cut])
    ensures CompletedTurns(log[..cut], root) <= CompletedTurns(log, root)
  {
    CutIsSound(log, cut, thread, root);
    forall t | CompletedIn(log[..cut], root, t)
      ensures CompletedIn(log, root, t)
    {
      var i, j :| 0 <= i < j < cut
                  && log[..cut][i].record == TurnContext(Some(t), Some(root))
                  && log[..cut][j].record == Lifecycle(TaskComplete, Some(t));
      assert log[i].record == TurnContext(Some(t), Some(root)) && log[j].record == Lifecycle(TaskComplete, Some(t));
    }
  }

  /** An aborted turn is never reported. */
  lemma AbortedIsNotCompleted(log: seq<Line>, thread: string, root: string, a: nat, t: string)
    requires Sound(log, thread, root) && a < |log| && log[a].record == Lifecycle(TurnAborted, Some(t))
    ensures t !in CompletedTurns(log, root)
  {
    if CompletedIn(log, root, t) {
      var i, j :| 0 <= i < j < |log|
                  && log[i].record == TurnContext(Some(t), Some(root))
                  && log[j].record == Lifecycle(TaskComplete, Some(t));
      var events := Lifecycles(log);
      var m := EventAt(log, a);
      var n := EventAt(log, j);
      EndsDiffer(events, m, n);
      assert false;
    }
  }

  /** A turn ends once. */
  lemma EndsDiffer(events: seq<Record>, m: nat, n: nat)
    requires Bracketed(events) && m < |events| && n < |events| && events[m].Lifecycle? && events[n].Lifecycle?
    requires !events[m].event.TaskStarted? && !events[n].event.TaskStarted? && events[m].turn == events[n].turn
    ensures m == n
  {
    assert EventOk(events, m) && EventOk(events, n);
    assert EventOk(events, m - 1) && EventOk(events, n - 1);
  }

  lemma {:induction false} EventAt(log: seq<Line>, i: nat) returns (k: nat)
    requires i < |log| && log[i].record.Lifecycle?
    ensures k < |Lifecycles(log)| && Lifecycles(log)[k] == log[i].record
  {
    if i == |log| - 1 {
      k := |Lifecycles(log[..i])|;
    } else {
      k := EventAt(log[..|log| - 1], i);
    }
  }

  /** The scan's variables describe the lines read so far. */
  ghost predicate ContextsSeen(contexts: map<string, string>, log: seq<Line>) {
    && contexts.Keys == ContextTurns(log)
    && forall i :: 0 <= i < |log| && log[i].record.TurnContext? ==>
         log[i].record.turn.Some? && log[i].record.turn.value in contexts
         && log[i].record.cwd == Some(contexts[log[i].record.turn.value])
  }

  predicate OpenIs(active: Option<string>, events: seq<Record>) {
    if |events| % 2 == 1 then IsStart(events[|events| - 1]) && active == events[|events| - 1].turn else active.None?
  }

  /** A turn has a root context in the log exactly when the scan's map holds that root for it. */
  lemma RootSeen(contexts: map<string, string>, log: seq<Line>, t: string, root: string)
    requires ContextsSeen(contexts, log)
    ensures (t in contexts && contexts[t] == root) <==>
            exists i :: 0 <= i < |log| && log[i].record == TurnContext(Some(t), Some(root))
  {
    if t in contexts && contexts[t] == root {
      var i :| 0 <= i < |log| && log[i].record.TurnContext? && log[i].record.turn == Some(t);
      assert log[i].record == TurnContext(Some(t), Some(root));
    }
  }

  /** The map lookup decides whether a context agrees with all earlier ones. */
  lemma LookupDecides(contexts: map<string, string>, log: seq<Line>, e: Record)
    requires ContextsSeen(contexts, log) && e.TurnContext? && e.turn.Some? && e.cwd.Some?
    ensures (e.turn.value in contexts && contexts[e.turn.value] != e.cwd.value) <==>
            exists i :: 0 <= i < |log| && !SameRoot(log[i].record, e)
  {
    if e.turn.value in contexts && contexts[e.turn.value] != e.cwd.value {
      assert e.turn.value in ContextTurns(log);
      var i :| 0 <= i < |log| && log[i].record.TurnContext? && log[i].record.turn == e.turn;
      assert !SameRoot(log[i].record, e);
    }
  }

  lemma SeenGrows(contexts: map<string, string>, log: seq<Line>, line: Line)
    requires ContextsSeen(contexts, log)
    requires var e := line.record;
             e.TurnContext? ==>
               && e.turn.Some? && e.cwd.Some?
               && (e.turn.value in contexts ==> contexts[e.turn.value] == e.cwd.value)
    ensures var e := line.record;
            var after := if e.TurnContext? then contexts[e.turn.value := e.cwd.value] else contexts;
            ContextsSeen(after, log + [line])
  {
    hide ContextTurns, ContextsOk;
    GrownContexts(log, line);
    var more := log + [line];
    assert more[|log|] == line;
    assert forall i :: 0 <= i < |log| ==> more[i] == log[i];
  }

  /** A line completes its turn exactly when it is a completion and the map already holds the project root for it. */
  lemma CompletedGrows(contexts: map<string, string>, log: seq<Line>, line: Line, root: string)
    requires ContextsSeen(contexts, log)
    ensures forall t :: CompletedIn(log + [line], root, t) <==>
              CompletedIn(log, root, t)
                  || (line.record == Lifecycle(TaskComplete, Some(t)) && t in contexts && contexts[t] == root)
  {
    forall t
      ensures CompletedIn(log + [line], root, t) <==>
              CompletedIn(log, root, t)
                  || (line.record == Lifecycle(TaskComplete, Some(t)) && t in contexts && contexts[t] == root)
    {
      GrownCompleted(log, line, root, t);
      RootSeen(contexts, log, t, root);
    }
  }

  /** The context part of one line: whether it is refused, and the map after it. */
  method ReadContext(contexts: map<string, string>, ghost log: seq<Line>, line: Line)
      returns (ok: bool, after: map<string, string>)
    requires ContextsOk(log) && ContextsSeen(contexts, log)
    requires line.record.TurnContext? ==> line.record.turn.Some? && line.record.cwd.Some?
    ensures ok <==> ContextsOk(log + [line])
    ensures ok ==> ContextsSeen(after, log + [line])
    ensures !line.record.TurnContext? ==> ok && after == contexts
  {
    GrownContexts(log, line);
    after := contexts;
    if !line.record.TurnContext? {
      SeenGrows(contexts, log, line);
      return true, after;
    }
    var turn, cwd := line.record.turn.value, line.record.cwd.value;
    LookupDecides(contexts, log, line.record);
    if turn in contexts && contexts[turn] != cwd {
      return false, contexts;
    }
    after := contexts[turn := cwd];
    SeenGrows(contexts, log, line);
    assert |after| == |after.Keys|;
    ok := |after| <= MAX_TURNS;
  }

  /** One lifecycle line: whether it is refused, and the open turn and started turns after it. */
  method ReadLifecycle(active: Option<string>, started: set<string>, ghost events: seq<Record>, e: Record)
    returns (ok: bool, open: Option<string>, known: set<string>)
    requires e.Lifecycle? && e.turn.Some?
    requires Bracketed(events) && OpenIs(active, events) && started == Starts(events)
    ensures ok <==> Bracketed(events + [e])
    ensures ok ==> OpenIs(open, events + [e]) && known == Starts(events + [e])
    ensures ok && !e.event.TaskStarted? ==> active == e.turn
  {
    GrownEvents(events, e);
    ghost var more := events + [e];
    assert more[|events|] == e;
    assert |events| > 0 ==> more[|events| - 1] == events[|events| - 1] && EventOk(events, |events| - 1);
    open, known := active, started;
    if e.event.TaskStarted? {
      if e.turn.value in started || active.Some? {
        return false, open, known;
      }
      known := started + {e.turn.value};
      if |known| > MAX_TURNS {
        return false, open, known;
      }
      open := e.turn;
    } else {
      if active != e.turn {
        return false, open, known;
      }
      open := None;
    }
    ok := true;
  }

  /**
   * The record loop: nothing for a log that is damaged, foreign, too long, badly bracketed, cut
   * inside a turn or replaced meanwhile.
   */
  method ReadCompletion(log: seq<Line>, thread: string, root: string, untouched: bool) returns (completed: set<string>)
    ensures untouched && Complete(log, thread, root) ==> forall t :: t in completed <==> CompletedIn(log, root, t)
    ensures !(untouched && Complete(log, thread, root)) ==> completed == {}
  {
    completed := {};
    var contexts: map<string, string> := map[];
    var started: set<string> := {};
    var active: Option<string> := None;
    var total := 0;
    for i := 0 to |log|
      invariant Sound(log[..i], thread, root) && total == Bytes(log[..i])
      invariant Described(contexts, started, active, log[..i])
      invariant forall t :: t in completed <==> CompletedIn(log[..i], root, t)
    {
      ghost var read := log[..i];
      assert log[..i + 1] == read + [log[i]];
      completed := ReadCompleted(completed, contexts, read, log[i], root);
      var ok;
      ok, contexts, started, active := ReadLine(contexts, started, active, total, read, log[i], thread, root);
      if !ok {
        StaysUnsound(log, i + 1, thread, root);
        return {};
      }
      Grown(read, log[i]);
      total := total + log[i].size;
    }
    assert log[..|log|] == log;
    if active.Some? || !untouched {
      completed := {};
    }
  }

  lemma StaysUnsound(log: seq<Line>, cut: nat, thread: string, root: string)
    requires cut <= |log| && !Sound(log[..cut], thread, root)
    ensures !Sound(log, thread, root)
  {
    if Sound(log, thread, root) {
      CutIsSound(log, cut, thread, root);
    }
  }

  ghost predicate Described(contexts: map<string, string>, started: set<string>, active: Option<string>,
                            log: seq<Line>) {
    ContextsSeen(contexts, log) && started == Starts(Lifecycles(log)) && OpenIs(active, Lifecycles(log))
  }

  /** A completion counts once the map holds the project root for its turn. */
  method ReadCompleted(completed: set<string>, contexts: map<string, string>, ghost log: seq<Line>, line: Line,
                       root: string)
    returns (completed': set<string>)
    requires ContextsSeen(contexts, log)
    requires forall t :: t in completed <==> CompletedIn(log, root, t)
    ensures forall t :: t in completed' <==> CompletedIn(log + [line], root, t)
  {
    CompletedGrows(contexts, log, line, root);
    completed' := completed;
    if line.record.Lifecycle? && line.record.event.TaskComplete? && line.record.turn.Some?
       && line.record.turn.value in contexts && contexts[line.record.turn.value] == root {
      completed' := completed + {line.record.turn.value};
    }
  }

  method ReadLine(contexts: map<string, string>, started: set<string>, active: Option<string>,
                  total: nat, ghost log: seq<Line>, line: Line, thread: string, root: string)
    returns (ok: bool, contexts': map<string, string>, started': set<string>, active': Option<string>)
    requires Sound(log, thread, root) && total == Bytes(log) && Described(contexts, started, active, log)
    ensures ok <==> Sound(log + [line], thread, root)
    ensures ok ==> Described(contexts', started', active', log + [line])
  {
    contexts', started', active' := contexts, started, active;
    GrownLines(log, line, thread, root);
    assert total == 0 <==> log == [];
    if !LineOk(line, thread, root) || total + line.size > MAX_LOG_BYTES || (total == 0 && !line.record.SessionMeta?) {
      return false, contexts, started, active;
    }
    Grown(log, line);
    assert Lifecycles(log + [line]) == Lifecycles(log) + EventIn(line.record);
    ok, contexts' := ReadContext(contexts, log, line);
    if ok {
      ok, active', started' := ReadEvent(active, started, Lifecycles(log), line.record);
    }
  }

  function EventIn(record: Record): seq<Record> {
    if record.Lifecycle? then [record] else []
  }

  method ReadEvent(active: Option<string>, started: set<string>, ghost events: seq<Record>, record: Record)
    returns (ok: bool, open: Option<string>, known: set<string>)
    requires record.Lifecycle? ==> record.turn.Some?
    requires Bracketed(events) && OpenIs(active, events) && started == Starts(events)
    ensures ok <==> Bracketed(events + EventIn(record))
    ensures ok ==> OpenIs(open, events + EventIn(record)) && known == Starts(events + EventIn(record))
  {
    ok, open, known := true, active, started;
    if record.Lifecycle? {
      ok, open, known := ReadLifecycle(active, started, events, record);
    } else {
      assert events + [] == events;
    }
  }
}
