/**
 * The scope gate in its two forms: a three-valued SQL expression used to pick
 * eligible work, and the Python resolver used inside transactions.
 */
module ControlScope {
  import opened Wrappers
  import opened Identifiers
  import opened ControlRows
  import opened Texts

  /** An explicit owner resolution of exactly this terminal turn retires its blocker. */
  predicate OwnerClosed(job: JobId, c: Control, hub: Hub) {
    && c.claim.None?
    && job in hub.jobs && job in hub.resolutions && job in hub.checkpoints && job in hub.terminals
    && hub.jobs[job].status == Indeterminate
    && hub.jobs[job].session == c.target.session
    && hub.jobs[job].generation == c.target.generation
    && hub.resolutions[job]
    && hub.terminals[job].closed
    && hub.terminals[job].nativeThread == c.target.nativeThread
    && hub.terminals[job].nativeTurn == c.target.nativeTurn
    && hub.terminals[job].root == c.target.root
    && hub.checkpoints[job].nativeThread == hub.terminals[job].nativeThread
    && hub.checkpoints[job].nativeTurn == Some(hub.terminals[job].nativeTurn)
    && hub.checkpoints[job].root == hub.terminals[job].root
  }

  /** A started send whose owner has not quiesced. */
  predicate Unsettled(job: JobId, c: Control, hub: Hub) {
    c.send.Some? && c.quiescedAt.None? && !OwnerClosed(job, c, hub)
  }

  predicate AnyUnsettled(rows: Controls, hub: Hub) {
    exists j :: j in rows && Unsettled(j, rows[j], hub)
  }

  predicate BlocksRoot(rows: Controls, hub: Hub, root: string) {
    exists j :: j in rows && Unsettled(j, rows[j], hub) && rows[j].target.root == root
  }

  /** The UNION of every root saved for a topic; all three columns are NOT NULL. */
  function SavedRoots(rows: Controls, hub: Hub, topic: TopicId): set<string> {
    (set j | j in rows && rows[j].target.topic == topic :: rows[j].target.root)
    + (set j | j in hub.checkpoints && j in hub.jobs && hub.jobs[j].topic == topic :: hub.checkpoints[j].root)
    + (set s | s in hub.origins && s in hub.sessions && hub.sessions[s].topic == topic :: hub.origins[s])
  }

  // ----- Python form -----

  lemma OneElement<T>(s: set<T>)
    requires |s| == 1
    ensures exists e :: s == {e}
  {
    var e :| e in s;
    assert |s - {e}| == 0;
    assert s == {e};
  }

  function TheElement<T(==)>(s: set<T>): (e: T)
    requires |s| == 1
    ensures s == {e}
  {
    OneElement(s);
    var e :| e in s && s == {e};
    e
  }

  predicate IsRootScope(scope: string) {
    StartsWith(scope, "root:/")
  }

  function ResolvedScope(rows: Controls, hub: Hub, topic: TopicId): Result<string> {
    if topic !in hub.topics then Err("unknown control topic") else
    var scope := hub.topics[topic].scope;
    if scope.Some? && IsRootScope(scope.value) then Ok(scope.value)
    else if scope.Some? && scope.value != "project:" + hub.topics[topic].project then Err("unresolved")
    else
      var roots := SavedRoots(rows, hub, topic);
      if |roots| > 1 then Err("ambiguous")
      else if |roots| == 0 || !StartsWith(TheElement(roots), "/") then Err("unresolved")
      else Ok("root:" + TheElement(roots))
  }

  /** Ok(true) when some unsettled sender owns the topic's scope. */
  function ControlOwnerForTopic(rows: Controls, hub: Hub, topic: TopicId): Result<bool> {
    if !AnyUnsettled(rows, hub) then Ok(false)
    else
      var scope :- ResolvedScope(rows, hub, topic);
      Ok(BlocksRoot(rows, hub, if StartsWith(scope, "root:") then scope[5..] else scope))
  }

  // ----- SQL form, three-valued -----

  datatype Tri = True | False | Null

  function And(a: Tri, b: Tri): Tri {
    if a == False || b == False then False else if a == True && b == True then True else Null
  }

  function Or(a: Tri, b: Tri): Tri {
    if a == True || b == True then True else if a == False && b == False then False else Null
  }

  function Not(a: Tri): Tri {
    match a case True => False case False => True case Null => Null
  }

  function Known(b: bool): Tri {
    if b then True else False
  }

  /** SQL text equality: NULL unless both sides are present. */
  function TextEquals(a: Option<string>, b: Option<string>): Tri {
    if a.None? || b.None? then Null else Known(a.value == b.value)
  }

  /** SQL substr(text, start, 6) and substr(text, start) with one-based positions. */
  function Head6(s: Option<string>): Option<string> {
    if s.None? then None else Some(if |s.value| <= 6 then s.value else s.value[..6])
  }

  function From6(s: Option<string>): Option<string> {
    if s.None? then None else Some(if |s.value| <= 5 then "" else s.value[5..])
  }

  /** CASE WHEN COUNT(*)=1 AND MIN(root) LIKE '/%' THEN 'root:' || MIN(root) END; MIN of one root is that root. */
  function SqlSavedRoot(saved: set<string>): Option<string> {
    if |saved| != 1 then None
    else
      var least := TheElement(saved);
      if StartsWith(least, "/") then Some("root:" + least) else None
  }

  function SqlResolved(rows: Controls, hub: Hub, topic: TopicId, scope: Option<string>): Option<string> {
    var project := if topic in hub.topics then Some("project:" + hub.topics[topic].project) else None;
    if TextEquals(Head6(scope), Some("root:/")) == True then scope
    else if Or(Known(scope.None?), TextEquals(scope, project)) == True
    then SqlSavedRoot(SavedRoots(rows, hub, topic))
    else None
  }

  function SqlBlocks(rows: Controls, hub: Hub, scope: Option<string>): Tri {
    Known(exists j :: j in rows && And(Known(Unsettled(j, rows[j], hub)),
                                       TextEquals(Some(rows[j].target.root), From6(scope))) == True)
  }

  /** A WHERE clause admits a row only when the expression is true, not NULL. */
  predicate SqlScopeClear(rows: Controls, hub: Hub, topic: TopicId, scope: Option<string>) {
    var resolved := SqlResolved(rows, hub, topic, scope);
    Or(Not(Known(AnyUnsettled(rows, hub))),
       And(TextEquals(Head6(resolved), Some("root:/")), Not(SqlBlocks(rows, hub, resolved)))) == True
  }

  // ----- the two forms agree, and exactly when -----

  lemma RootScopeText(scope: string, root: string)
    ensures TextEquals(Head6(Some(scope)), Some("root:/")) == Known(IsRootScope(scope))
    ensures IsRootScope("root:" + root) <==> StartsWith(root, "/")
    ensures IsRootScope(scope) ==> StartsWith(scope, "root:") && From6(Some(scope)) == Some(scope[5..])
  {
    var s := "root:" + root;
    assert s[..5] == "root:";
    if |root| > 0 {
      assert s[..6] == "root:" + root[..1];
      assert s[5] == root[0];
      assert root[..1] == [root[0]];
    }
    if IsRootScope(scope) {
      assert scope[..5] == scope[..6][..5];
    }
  }

  /** Both forms resolve every topic alike: to the same root, or not at all. */
  lemma SqlAndPythonResolveAlike(rows: Controls, hub: Hub, topic: TopicId)
    requires topic in hub.topics
    ensures var sql := SqlResolved(rows, hub, topic, hub.topics[topic].scope);
            var py := ResolvedScope(rows, hub, topic);
            && (py.Ok? ==> IsRootScope(py.value))
            && sql == if py.Ok? then Some(py.value) else None
  {
    var saved := SavedRoots(rows, hub, topic);
    var scope := hub.topics[topic].scope;
    RootScopeText(if scope.Some? then scope.value else "", if |saved| == 1 then TheElement(saved) else "");
  }

  /**
   * For every table the schema admits, the SQL gate lets a topic's own scope
   * through exactly when Python finds no owner for the topic without raising.
   */
  lemma SqlGateIffPythonClear(rows: Controls, hub: Hub, topic: TopicId)
    requires topic in hub.topics
    ensures SqlScopeClear(rows, hub, topic, hub.topics[topic].scope) <==>
        ControlOwnerForTopic(rows, hub, topic) == Ok(false)
  {
    SqlAndPythonResolveAlike(rows, hub, topic);
    var sql := SqlResolved(rows, hub, topic, hub.topics[topic].scope);
    if sql.Some? {
      RootScopeText(sql.value, "");
      assert (SqlBlocks(rows, hub, sql) == True) == BlocksRoot(rows, hub, sql.value[5..]);
    }
  }

  // ----- what the gate asks, over the tables alone -----

  /** Some row, checkpoint or session origin of the topic saved this root. */
  predicate SavedFor(rows: Controls, hub: Hub, topic: TopicId, root: string) {
    || (exists j :: j in rows && rows[j].target.topic == topic && rows[j].target.root == root)
    || (exists j :: j in hub.checkpoints && j in hub.jobs && hub.jobs[j].topic == topic
                    && hub.checkpoints[j].root == root)
    || (exists s :: s in hub.origins && s in hub.sessions && hub.sessions[s].topic == topic && hub.origins[s] == root)
  }

  /** The topic is bound to an absolute root, or its project saved that one and no other. */
  ghost predicate TopicRoot(rows: Controls, hub: Hub, topic: TopicId, root: string) {
    && topic in hub.topics && root != "" && root[0] == '/'
    && var scope := hub.topics[topic].scope;
    || scope == Some("root:" + root)
    || ((scope.None? || scope == Some("project:" + hub.topics[topic].project))
        && forall other :: SavedFor(rows, hub, topic, other) <==> other == root)
  }

  lemma SavedRootsAreSaved(rows: Controls, hub: Hub, topic: TopicId)
    ensures forall root :: root in SavedRoots(rows, hub, topic) <==> SavedFor(rows, hub, topic, root)
  {
  }

  lemma OneOf<T>(s: set<T>, e: T)
    ensures (|s| == 1 && TheElement(s) == e) <==> forall x :: x in s <==> x == e
  {
    if forall x :: x in s <==> x == e {
      assert s == {e};
    }
  }

  lemma RootedText(root: string)
    ensures IsRootScope("root:" + root) <==> root != "" && root[0] == '/'
    ensures StartsWith(root, "/") <==> root != "" && root[0] == '/'
    ensures ("root:" + root)[0] == 'r'
    ensures forall other :: "root:" + root == "root:" + other ==> root == other
  {
    RootScopeText("", root);
    forall other | "root:" + root == "root:" + other
      ensures root == other
    {
      assert root == ("root:" + root)[5..] && other == ("root:" + other)[5..];
    }
  }

  lemma ResolvedIffTopicRoot(rows: Controls, hub: Hub, topic: TopicId, root: string)
    ensures ResolvedScope(rows, hub, topic) == Ok("root:" + root) <==> TopicRoot(rows, hub, topic, root)
  {
    hide StartsWith, IsRootScope, SavedRoots, SavedFor;
    RootedText(root);
    if topic in hub.topics {
      var scope, roots := hub.topics[topic].scope, SavedRoots(rows, hub, topic);
      SavedRootsAreSaved(rows, hub, topic);
      OneOf(roots, root);
      if scope.Some? {
        ScopeTexts(scope.value, hub.topics[topic].project, root);
      }
      if |roots| == 1 {
        RootedText(TheElement(roots));
        assert "root:" + TheElement(roots) == "root:" + root ==> TheElement(roots) == root;
      }
    }
  }

  lemma ScopeTexts(scope: string, project: string, root: string)
    ensures scope == "root:" + root && root != "" && root[0] == '/' ==> IsRootScope(scope)
    ensures scope == "project:" + project ==> !IsRootScope(scope) && scope != "root:" + root
    ensures IsRootScope(scope) && scope == "root:" + root ==> root != "" && root[0] == '/'
  {
    RootedText(root);
    assert ("project:" + project)[0] == 'p';
    assert IsRootScope(scope) ==> scope[..6][0] == scope[0];
  }

  /** The owner resolved exactly this turn: no read is open and every table names the row's own turn. */
  predicate TurnResolved(rows: Controls, hub: Hub, j: JobId)
    requires j in rows
  {
    var t := rows[j].target;
    && rows[j].claim.None?
    && j in hub.jobs && hub.jobs[j].(topic := 0, agent := "", chat := 0, profile := None, leaseToken := None,
                                     leaseExpires := None)
                        == Job(t.session, t.generation, 0, "", 0, None, Indeterminate, None, None)
    && j in hub.resolutions && hub.resolutions[j]
    && j in hub.terminals && hub.terminals[j] == Terminal(true, t.nativeThread, t.nativeTurn, t.root)
    && j in hub.checkpoints && hub.checkpoints[j].nativeThread == t.nativeThread
    && hub.checkpoints[j].nativeTurn == Some(t.nativeTurn) && hub.checkpoints[j].root == t.root
  }

  /** A sender that started and neither quiesced nor had its turn resolved by the owner. */
  predicate SenderOpen(rows: Controls, hub: Hub, j: JobId) {
    j in rows && rows[j].send.Some? && rows[j].quiescedAt.None? && !TurnResolved(rows, hub, j)
  }

  lemma UnsettledIffOpen(rows: Controls, hub: Hub, j: JobId)
    ensures (j in rows && Unsettled(j, rows[j], hub)) <==> SenderOpen(rows, hub, j)
  {
  }

  /**
   * The gate over the tables: a topic is owned exactly if an open sender holds its root, and clear
   * exactly if no sender is open at all, or its root is known and none holds it.
   */
  lemma GateAsksForOpenSenders(rows: Controls, hub: Hub, topic: TopicId)
    ensures ControlOwnerForTopic(rows, hub, topic) == Ok(true) <==>
            exists root, j :: TopicRoot(rows, hub, topic, root) && SenderOpen(rows, hub, j)
                              && rows[j].target.root == root
    ensures ControlOwnerForTopic(rows, hub, topic) == Ok(false) <==>
            || (forall j :: !SenderOpen(rows, hub, j))
            || exists root :: TopicRoot(rows, hub, topic, root)
                              && forall j :: SenderOpen(rows, hub, j) ==> rows[j].target.root != root
  {
    hide ResolvedScope, TopicRoot, Unsettled, SenderOpen;
    forall j
      ensures (j in rows && Unsettled(j, rows[j], hub)) <==> SenderOpen(rows, hub, j)
    {
      UnsettledIffOpen(rows, hub, j);
    }
    forall root
      ensures ResolvedScope(rows, hub, topic) == Ok("root:" + root) <==> TopicRoot(rows, hub, topic, root)
    {
      ResolvedIffTopicRoot(rows, hub, topic, root);
    }
    OpenHas(rows, hub);
    var scope := ResolvedScope(rows, hub, topic);
    if scope.Ok? {
      ResolvedHasRoot(rows, hub, topic);
      var root := scope.value[5..];
      assert scope.value == "root:" + root;
      RootedText(root);
    }
  }

  lemma OpenHas(rows: Controls, hub: Hub)
    ensures forall j :: SenderOpen(rows, hub, j) ==> j in rows
  {
  }

  lemma ResolvedHasRoot(rows: Controls, hub: Hub, topic: TopicId)
    ensures var scope := ResolvedScope(rows, hub, topic);
            scope.Ok? ==> StartsWith(scope.value, "root:") && scope.value == "root:" + scope.value[5..]
  {
    var scope := ResolvedScope(rows, hub, topic);
    if scope.Ok? {
      SqlAndPythonResolveAlike(rows, hub, topic);
      RootScopeText(scope.value, "");
    }
  }
}
