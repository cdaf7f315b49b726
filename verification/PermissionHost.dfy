/**
 * The permission servers of one worker: native hooks, the durable journal and
 * the in-memory Bash consent interleave; a reply follows its commit.
 */
module PermissionHost {
  import opened Wrappers
  import opened PermissionJournal
  import opened BashGrants

  datatype Receipt = Allowed | Denied | AllowedUntilRestart

  /** What a cached consent is for; configuration and tlive transport are fixed for the process. */
  datatype Scope = Scope(root: string, session: string, generation: int, owner: string)

  datatype Stage =
    | Preparing
    | Asking(payload: Payload)
    | Deciding(payload: Payload)
    | Committed
    | Failing
    | Answering(allow: bool)

  datatype Hook = Hook(
    launch: Launch, nonce: string, event: string, tool: string, input: string,
    owner: string, tlive: string, granted: bool, receipt: Option<Receipt>, stage: Stage)

  /** The requests whose consent may come from, or go into, the cache. */
  predicate Cacheable(h: Hook) {
    h.tool == "Bash" && h.launch.profile == Developer
  }

  function ScopeOf(h: Hook): Scope {
    Scope(h.launch.root, h.launch.session, h.launch.generation, h.owner)
  }

  /** File tools are for every profile, Bash for the two that may run commands. */
  predicate MayUse(p: Profile, tool: string) {
    || tool == "Read" || tool == "Glob" || tool == "Grep" || tool == "Write" || tool == "Edit"
    || (tool == "Bash" && (p == Developer || p == Workstation))
  }

  predicate Decision(h: Hook) {
    h.receipt != Some(Denied)
  }

  datatype Event =
    | Heard(hook: Hook, receipt: Receipt)
    | Commit(hook: Hook, payload: Payload, row: RequestRow, launch: LaunchRow, facts: Facts, now: int)
    | Reply(hook: Hook, allow: bool)

  datatype World = World(journal: Journal, grants: seq<(Scope, string)>, hooks: map<nat, Hook>, history: seq<Event>)

  datatype Action =
    | Arrive(id: nat, launch: Launch, nonce: string, event: string, tool: string, input: string, owner: string,
             tlive: string)
    | Prepare(id: nat, facts: Facts, now: int)
    | Receive(id: nat, receipt: Receipt)
    | Consume(id: nat, facts: Facts, now: int)
    | Publish(id: nat, cancelled: bool)
    | Fail(id: nat)
    | Revoke(id: nat, written: bool)
    | Send(id: nat)
    | Vanish(id: nat)
    | OpenLaunch(facts: Facts, job: string, lease: string, session: string, root: string, profile: Profile,
                 epoch: string)
    | CloseLaunch(epoch: string)
    | Restart

  predicate At(w: World, id: nat, stage: Stage -> bool) {
    id in w.hooks && stage(w.hooks[id].stage)
  }

  predicate Enabled(w: World, a: Action) {
    match a
    case Arrive(id, launch, _, _, tool, _, _, _) => id !in w.hooks && ToolAllowed(launch.profile, tool)
    case Prepare(id, _, _) => At(w, id, (s: Stage) => s.Preparing?)
    case Receive(id, receipt) =>
      At(w, id, (s: Stage) => s.Asking?) && (receipt.AllowedUntilRestart? ==> w.hooks[id].tool == "Bash")
    case Consume(id, _, _) => At(w, id, (s: Stage) => s.Deciding?)
    case Publish(id, _) => At(w, id, (s: Stage) => s.Committed?)
    case Fail(id) => At(w, id, (s: Stage) => !s.Answering?)
    case Revoke(id, _) => At(w, id, (s: Stage) => s.Failing?)
    case Send(id) => At(w, id, (s: Stage) => s.Answering?)
    case Vanish(id) => id in w.hooks
    case OpenLaunch(_, _, _, _, _, _, _) => true
    case CloseLaunch(_) => true
    case Restart => true
  }

  function Put(w: World, id: nat, h: Hook): World {
    w.(hooks := w.hooks[id := h])
  }

  /** A workstation's Bash is preauthorized; a developer's may be, by the cache under the live tlive epoch. */
  function Arrived(w: World, id: nat, h: Hook): World {
    if h.tool == "Bash" && h.launch.profile == Workstation then Put(w, id, h.(granted := true))
    else if Cacheable(h) then
      var (granted, grants) := Looked(w.grants, ScopeOf(h), h.tlive);
      Put(w, id, h.(granted := granted)).(grants := grants)
    else Put(w, id, h)
  }

  function AfterPrepare(w: World, id: nat, f: Facts, now: int): World
    requires id in w.hooks
  {
    var h := w.hooks[id];
    var r := Prepared(w.journal, f, h.launch, h.nonce, h.event, h.tool, h.input, now, HUMAN_SECONDS);
    if r.Err? then Put(w, id, h.(stage := Failing))
    else Put(w, id, h.(stage := if h.granted then Deciding(r.value.1) else Asking(r.value.1))).(journal := r.value.0)
  }

  function AfterConsume(w: World, id: nat, f: Facts, now: int): World
    requires id in w.hooks && w.hooks[id].stage.Deciding?
  {
    var h := w.hooks[id];
    var payload := h.stage.payload;
    if !Consumable(w.journal, f, h.launch, payload, now) then Put(w, id, h.(stage := Failing))
    else
      var done := h.(stage := Committed);
      var entry := Commit(done, payload, w.journal.requests[payload.nonce], w.journal.launches[h.launch.epoch], f, now);
      Put(w, id, done).(journal := Consumed(w.journal, f, h.launch, payload, Decision(h), now).value,
                        history := w.history + [entry])
  }

  /** Consent reaches the cache only after its own decision is committed. */
  function AfterPublish(w: World, id: nat, cancelled: bool): World
    requires id in w.hooks
  {
    var h := w.hooks[id];
    if h.receipt != Some(AllowedUntilRestart) then Put(w, id, h.(stage := Answering(Decision(h))))
    else if !Cacheable(h) || cancelled then Put(w, id, h.(stage := Failing))
    else Put(w, id, h.(stage := Answering(true))).(grants := Remembered(w.grants, ScopeOf(h), h.tlive))
  }

  function Next(w: World, a: Action): World
    requires Enabled(w, a)
  {
    match a
    case Arrive(id, launch, nonce, event, tool, input, owner, tlive) =>
      Arrived(w, id, Hook(launch, nonce, event, tool, input, owner, tlive, false, None, Preparing))
    case Prepare(id, f, now) => AfterPrepare(w, id, f, now)
    case Receive(id, receipt) =>
      var h := w.hooks[id];
      Put(w, id, h.(receipt := Some(receipt), stage := Deciding(h.stage.payload)))
        .(history := w.history + [Heard(h, receipt)])
    case Consume(id, f, now) => AfterConsume(w, id, f, now)
    case Publish(id, cancelled) => AfterPublish(w, id, cancelled)
    case Fail(id) => Put(w, id, w.hooks[id].(stage := Failing))
    case Revoke(id, written) =>
      var h := w.hooks[id];
      var journal := if written then RequestRevoked(w.journal, h.launch, h.nonce) else w.journal;
      Put(w, id, h.(stage := Answering(false))).(journal := journal)
    case Send(id) =>
      w.(hooks := w.hooks - {id}, history := w.history + [Reply(w.hooks[id], w.hooks[id].stage.allow)])
    case Vanish(id) => w.(hooks := w.hooks - {id})
    case OpenLaunch(f, job, lease, session, root, profile, epoch) =>
      var r := Opened(w.journal, f, job, lease, session, root, profile, epoch);
      if r.Ok? then w.(journal := r.value.0) else w
    case CloseLaunch(epoch) => w.(journal := Closed(w.journal, epoch))
    case Restart => w.(grants := [], hooks := map[])
  }

  // What the history must show.

  /** A decision was taken from a pending, unexpired request while its launch was active and still bound. */
  predicate CommitOk(e: Event)
    requires e.Commit?
  {
    && e.row.status == Pending && e.row.expires > e.now && e.row.payload == e.payload
    && e.payload.nonce == e.hook.nonce && e.payload.tool == e.hook.tool && e.payload.input == e.hook.input
    && e.payload.epoch == e.hook.launch.epoch
    && e.launch.active
    && var l := e.hook.launch;
    && Bound(e.facts, l.job, l.lease, l.session, l.root) == Some(l.binding)
    && (!e.hook.granted ==> e.hook.receipt.Some?)
    && MayUse(l.profile, e.hook.tool)
  }

  /** A commit of exactly this hook's request and decision. */
  predicate CommitsFor(e: Event, h: Hook) {
    e.Commit? && e.hook.(stage := Committed) == h.(stage := Committed)
  }

  predicate Decided(history: seq<Event>, h: Hook) {
    exists k :: 0 <= k < |history| && CommitsFor(history[k], h)
  }

  /** The human's own answer to exactly this hook. */
  predicate HeardFor(e: Event, h: Hook) {
    e.Heard? && e.hook.(receipt := None, stage := Preparing) == h.(receipt := None, stage := Preparing)
        && h.receipt == Some(e.receipt)
  }

  predicate Answered(history: seq<Event>, h: Hook) {
    h.receipt.Some? ==> exists k :: 0 <= k < |history| && HeardFor(history[k], h)
  }

  /** A human allowed Bash until restart, for this scope and tlive epoch, and that decision was committed. */
  predicate HumanGrant(e: Event, scope: Scope, tlive: string) {
    e.Commit? && e.hook.receipt == Some(AllowedUntilRestart) && Cacheable(e.hook) && ScopeOf(e.hook) == scope
        && e.hook.tlive == tlive
  }

  predicate GrantedBefore(history: seq<Event>, scope: Scope, tlive: string) {
    exists k :: 0 <= k < |history| && HumanGrant(history[k], scope, tlive)
  }

  /** Where consent that no human just gave may come from. */
  predicate GrantOk(history: seq<Event>, h: Hook) {
    && (h.granted ==>
        h.receipt.None? && h.tool == "Bash"
        && (h.launch.profile == Workstation || (Cacheable(h) && GrantedBefore(history, ScopeOf(h), h.tlive))))
  }

  predicate PayloadOk(h: Hook, p: Payload) {
    p.nonce == h.nonce && p.tool == h.tool && p.input == h.input && p.epoch == h.launch.epoch
  }

  predicate HookOk(history: seq<Event>, h: Hook) {
    && GrantOk(history, h)
    && Answered(history, h)
    && MayUse(h.launch.profile, h.tool)
    && (h.stage.Asking? ==> !h.granted && PayloadOk(h, h.stage.payload))
    && (h.stage.Deciding? ==> (h.granted || h.receipt.Some?) && PayloadOk(h, h.stage.payload))
    && (h.stage.Committed? || h.stage == Answering(true) ==> Decided(history, h))
    && (h.stage == Answering(true) ==> h.receipt != Some(Denied))
  }

  /** A human's denial denies the request row for ever; any other committed answer allows it for ever. */
  predicate CommitStands(j: Journal, e: Event)
    requires e.Commit?
  {
    && e.hook.nonce in j.requests
    && j.requests[e.hook.nonce].status == if e.hook.receipt == Some(Denied) then Deny else Allow
  }

  predicate EventOk(w: World, k: nat)
    requires k < |w.history|
  {
    var e := w.history[k];
    match e
    case Heard(_, _) => true
    case Commit(hook, _, _, _, _, _) =>
      && CommitOk(e) && CommitStands(w.journal, e)
      && GrantOk(w.history[..k], hook) && Answered(w.history[..k], hook)
    case Reply(hook, allow) => allow ==> hook.receipt != Some(Denied) && Decided(w.history[..k], hook)
  }

  ghost predicate OneCommitEach(history: seq<Event>) {
    forall i, k :: 0 <= i < k < |history| && history[i].Commit? && history[k].Commit? ==>
        history[i].hook.nonce != history[k].hook.nonce
  }

  ghost predicate Inv(w: World) {
    && JournalOk(w.journal)
    && (forall id :: id in w.hooks ==> HookOk(w.history, w.hooks[id]))
    && (forall k :: 0 <= k < |w.history| ==> EventOk(w, k))
    && OneCommitEach(w.history)
    && (forall g :: g in w.grants ==> GrantedBefore(w.history, g.0, g.1))
  }

  lemma HistoryGrows(before: seq<Event>, after: seq<Event>, h: Hook)
    requires before <= after
    ensures Decided(before, h) ==> Decided(after, h)
    ensures Answered(before, h) ==> Answered(after, h)
    ensures GrantOk(before, h) ==> GrantOk(after, h)
    ensures forall scope, tlive :: GrantedBefore(before, scope, tlive) ==> GrantedBefore(after, scope, tlive)
  {
    forall scope, tlive | GrantedBefore(before, scope, tlive)
      ensures GrantedBefore(after, scope, tlive)
    {
      var k :| 0 <= k < |before| && HumanGrant(before[k], scope, tlive);
      assert HumanGrant(after[k], scope, tlive);
    }
    if Decided(before, h) {
      var k :| 0 <= k < |before| && CommitsFor(before[k], h);
      assert CommitsFor(after[k], h);
    }
    if Answered(before, h) && h.receipt.Some? {
      var k :| 0 <= k < |before| && HeardFor(before[k], h);
      assert HeardFor(after[k], h);
    }
  }

  lemma JournalStep(w: World, a: Action)
    requires Enabled(w, a) && JournalOk(w.journal)
    ensures JournalOk(Next(w, a).journal) && Extends(Next(w, a).journal, w.journal)
  {
    if a.OpenLaunch? {
      OpenKeeps(w.journal, a.facts, a.job, a.lease, a.session, a.root, a.profile, a.epoch);
    } else if a.CloseLaunch? {
      CloseKeeps(w.journal, a.epoch);
    } else {
      HookJournalStep(w, a);
    }
  }

  lemma HookJournalStep(w: World, a: Action)
    requires Enabled(w, a) && JournalOk(w.journal) && !a.OpenLaunch? && !a.CloseLaunch?
    ensures JournalOk(Next(w, a).journal) && Extends(Next(w, a).journal, w.journal)
  {
    hide JournalOk, Extends;
    if a.Prepare? {
      PreparedJournal(w, a.id, a.facts, a.now);
    } else if a.Consume? {
      ConsumedJournal(w, a.id, a.facts, a.now);
    } else {
      ExtendsItself(w.journal);
      if a.Revoke? {
        RevokeKeeps(w.journal, w.hooks[a.id].launch, w.hooks[a.id].nonce);
      }
    }
  }

  lemma ExtendsItself(j: Journal)
    ensures Extends(j, j)
  {
  }

  lemma PreparedJournal(w: World, id: nat, f: Facts, now: int)
    requires id in w.hooks && JournalOk(w.journal)
    ensures JournalOk(AfterPrepare(w, id, f, now).journal) && Extends(AfterPrepare(w, id, f, now).journal, w.journal)
  {
    var h := w.hooks[id];
    PrepareKeeps(w.journal, f, h.launch, h.nonce, h.event, h.tool, h.input, now, HUMAN_SECONDS);
  }

  lemma ConsumedJournal(w: World, id: nat, f: Facts, now: int)
    requires At(w, id, (s: Stage) => s.Deciding?) && JournalOk(w.journal)
    ensures JournalOk(AfterConsume(w, id, f, now).journal) && Extends(AfterConsume(w, id, f, now).journal, w.journal)
  {
    var h := w.hooks[id];
    ConsumeKeeps(w.journal, f, h.launch, h.stage.payload, Decision(h), now);
  }

  /** The hook a step moves. */
  function Moved(a: Action): Option<nat> {
    match a
    case Arrive(id, _, _, _, _, _, _, _) => Some(id)
    case Prepare(id, _, _) => Some(id)
    case Receive(id, _) => Some(id)
    case Consume(id, _, _) => Some(id)
    case Publish(id, _) => Some(id)
    case Fail(id) => Some(id)
    case Revoke(id, _) => Some(id)
    case _ => None
  }

  lemma OthersStay(w: World, a: Action)
    requires Enabled(w, a)
    ensures forall id :: id in Next(w, a).hooks && Moved(a) != Some(id) ==>
        id in w.hooks && Next(w, a).hooks[id] == w.hooks[id]
    ensures w.history <= Next(w, a).history
    ensures Next(w, a).history == w.history || Next(w, a).history == w.history + [Next(w, a).history[|w.history|]]
    ensures !a.Consume? && !a.Send? && !a.Receive? ==> Next(w, a).history == w.history
  {
  }

  lemma ArrivedHook(w: World, id: nat, h: Hook)
    requires h.stage == Preparing && !h.granted && h.receipt.None? && ToolAllowed(h.launch.profile, h.tool)
    requires forall g :: g in w.grants ==> GrantedBefore(w.history, g.0, g.1)
    ensures var after := Arrived(w, id, h);
            && HookOk(after.history, after.hooks[id])
            && forall g :: g in after.grants ==> GrantedBefore(after.history, g.0, g.1)
  {
    WithoutExactly(w.grants, ScopeOf(h));
    if Cacheable(h) && (ScopeOf(h), h.tlive) in w.grants {
      var g := (ScopeOf(h), h.tlive);
      assert GrantedBefore(w.history, g.0, g.1);
    }
  }

  lemma ConsumedHook(w: World, id: nat, f: Facts, now: int)
    requires id in w.hooks && w.hooks[id].stage.Deciding? && HookOk(w.history, w.hooks[id])
    ensures var after := AfterConsume(w, id, f, now); HookOk(after.history, after.hooks[id])
  {
    var after := AfterConsume(w, id, f, now);
    HistoryGrows(w.history, after.history, w.hooks[id]);
    if after.history != w.history {
      assert CommitsFor(after.history[|w.history|], after.hooks[id]);
    }
  }

  lemma MovedHook(w: World, a: Action)
    requires Enabled(w, a) && Moved(a).Some? && !a.Arrive? && !a.Receive? && !a.Consume? && !a.Publish?
    requires HookOk(w.history, w.hooks[Moved(a).value])
    ensures HookOk(Next(w, a).history, Next(w, a).hooks[Moved(a).value])
  {
  }

  lemma ReceivedHook(w: World, id: nat, receipt: Receipt)
    requires Enabled(w, Receive(id, receipt)) && HookOk(w.history, w.hooks[id])
    ensures var after := Next(w, Receive(id, receipt)); HookOk(after.history, after.hooks[id])
  {
    var after := Next(w, Receive(id, receipt));
    HistoryGrows(w.history, after.history, w.hooks[id]);
    assert HeardFor(after.history[|w.history|], after.hooks[id]);
  }

  lemma PublishedHook(w: World, id: nat, cancelled: bool)
    requires At(w, id, (s: Stage) => s.Committed?) && HookOk(w.history, w.hooks[id])
    ensures HookOk(w.history, AfterPublish(w, id, cancelled).hooks[id])
  {
    var k :| 0 <= k < |w.history| && CommitsFor(w.history[k], w.hooks[id]);
    assert CommitsFor(w.history[k], AfterPublish(w, id, cancelled).hooks[id]);
  }

  lemma HooksStep(w: World, a: Action)
    requires Inv(w) && Enabled(w, a)
    ensures forall id :: id in Next(w, a).hooks ==> HookOk(Next(w, a).history, Next(w, a).hooks[id])
  {
    OthersStay(w, a);
    forall id | id in Next(w, a).hooks
      ensures HookOk(Next(w, a).history, Next(w, a).hooks[id])
    {
      if Moved(a) != Some(id) {
        HistoryGrows(w.history, Next(w, a).history, w.hooks[id]);
        assert HookOk(w.history, w.hooks[id]);
      } else {
        match a
        case Arrive(_, launch, nonce, event, tool, input, owner, tlive) =>
          ArrivedHook(w, id, Hook(launch, nonce, event, tool, input, owner, tlive, false, None, Preparing));
        case Receive(_, receipt) =>
          assert HookOk(w.history, w.hooks[id]);
          ReceivedHook(w, id, receipt);
        case Consume(_, f, now) =>
          assert HookOk(w.history, w.hooks[id]);
          ConsumedHook(w, id, f, now);
        case Publish(_, cancelled) =>
          assert HookOk(w.history, w.hooks[id]);
          PublishedHook(w, id, cancelled);
        case _ =>
          assert HookOk(w.history, w.hooks[id]);
          MovedHook(w, a);
      }
    }
  }

  lemma GrantsStep(w: World, a: Action)
    requires Inv(w) && Enabled(w, a)
    ensures forall g :: g in Next(w, a).grants ==> GrantedBefore(Next(w, a).history, g.0, g.1)
  {
    OthersStay(w, a);
    match a
    case Arrive(id, launch, nonce, event, tool, input, owner, tlive) =>
      ArrivedHook(w, id, Hook(launch, nonce, event, tool, input, owner, tlive, false, None, Preparing));
    case Publish(id, cancelled) =>
      var h := w.hooks[id];
      assert HookOk(w.history, h);
      PublishedGrant(w, h);
    case Receive(id, _) =>
      HistoryGrows(w.history, Next(w, a).history, w.hooks[id]);
    case Consume(id, f, now) =>
      HistoryGrows(w.history, Next(w, a).history, w.hooks[id]);
    case Send(id) =>
      HistoryGrows(w.history, Next(w, a).history, w.hooks[id]);
    case _ =>
  }

  /** What a publish may add to the cache is already decided by a human. */
  lemma PublishedGrant(w: World, h: Hook)
    requires HookOk(w.history, h) && h.stage.Committed?
    requires forall g :: g in w.grants ==> GrantedBefore(w.history, g.0, g.1)
    ensures h.receipt == Some(AllowedUntilRestart) && Cacheable(h) ==>
              forall g :: g in Remembered(w.grants, ScopeOf(h), h.tlive) ==> GrantedBefore(w.history, g.0, g.1)
  {
    if h.receipt == Some(AllowedUntilRestart) && Cacheable(h) {
      var k :| 0 <= k < |w.history| && CommitsFor(w.history[k], h);
      assert HumanGrant(w.history[k], ScopeOf(h), h.tlive);
      WithoutExactly(w.grants, ScopeOf(h));
      forall g | g in Remembered(w.grants, ScopeOf(h), h.tlive)
        ensures GrantedBefore(w.history, g.0, g.1)
      {
        assert g in Without(w.grants, ScopeOf(h)) || g == (ScopeOf(h), h.tlive);
      }
    }
  }

  lemma OldEventsStand(w: World, a: Action, k: nat)
    requires Inv(w) && Enabled(w, a) && k < |w.history|
    requires Extends(Next(w, a).journal, w.journal) && w.history <= Next(w, a).history
    ensures EventOk(Next(w, a), k)
  {
    assert EventOk(w, k);
    assert Next(w, a).history[..k] == w.history[..k];
  }

  lemma NewCommit(w: World, id: nat, f: Facts, now: int)
    requires Inv(w) && id in w.hooks && w.hooks[id].stage.Deciding?
    requires Consumable(w.journal, f, w.hooks[id].launch, w.hooks[id].stage.payload, now)
    ensures var after := AfterConsume(w, id, f, now); EventOk(after, |w.history|) && OneCommitEach(after.history)
  {
    var h := w.hooks[id];
    var after := AfterConsume(w, id, f, now);
    assert HookOk(w.history, h);
    assert after.history[..|w.history|] == w.history;
    assert GrantOk(w.history, after.history[|w.history|].hook);
    forall i | 0 <= i < |w.history| && w.history[i].Commit?
      ensures w.history[i].hook.nonce != h.nonce
    {
      assert EventOk(w, i);
    }
  }

  lemma NewAnswer(w: World, a: Action)
    requires Inv(w) && Enabled(w, a) && (a.Receive? || a.Send?)
    ensures |Next(w, a).history| == |w.history| + 1
    ensures EventOk(Next(w, a), |w.history|) && OneCommitEach(Next(w, a).history)
  {
    hide GrantOk, Answered, CommitOk, CommitStands, JournalOk;
    assert HookOk(w.history, w.hooks[a.id]);
    assert Next(w, a).history[..|w.history|] == w.history;
  }

  lemma EventsStep(w: World, a: Action)
    requires Inv(w) && Enabled(w, a)
    ensures forall k :: 0 <= k < |Next(w, a).history| ==> EventOk(Next(w, a), k)
    ensures OneCommitEach(Next(w, a).history)
  {
    hide EventOk, HookOk, JournalOk, Consumed, Opened, Prepared, RequestRevoked, Closed;
    JournalStep(w, a);
    OthersStay(w, a);
    forall k | 0 <= k < |Next(w, a).history|
      ensures EventOk(Next(w, a), k)
    {
      if k < |w.history| {
        OldEventsStand(w, a, k);
      } else if a.Consume? {
        NewCommit(w, a.id, a.facts, a.now);
      } else {
        NewAnswer(w, a);
      }
    }
    if a.Consume? && Next(w, a).history != w.history {
      NewCommit(w, a.id, a.facts, a.now);
    } else if a.Receive? || a.Send? {
      NewAnswer(w, a);
    }
  }

  lemma StepKeepsInv(w: World, a: Action)
    requires Inv(w) && Enabled(w, a)
    ensures Inv(Next(w, a)) && Extends(Next(w, a).journal, w.journal)
  {
    JournalStep(w, a);
    HooksStep(w, a);
    EventsStep(w, a);
    GrantsStep(w, a);
  }

  predicate Run(w: World, actions: seq<Action>)
    decreases |actions|
  {
    actions == [] || (Enabled(w, actions[0]) && Run(Next(w, actions[0]), actions[1..]))
  }

  function After(w: World, actions: seq<Action>): World
    requires Run(w, actions)
    decreases |actions|
  {
    if actions == [] then w else After(Next(w, actions[0]), actions[1..])
  }

  const IDLE := World(Journal(map[], map[]), [], map[], [])

  lemma IdleIsFine()
    ensures Inv(IDLE)
  {
    forall e
      ensures |Requests(IDLE.journal, e)| <= MAX_REQUESTS
    {
      assert Requests(IDLE.journal, e) == {};
    }
  }

  lemma {:induction false} RunKeepsInv(w: World, actions: seq<Action>)
    requires Inv(w) && Run(w, actions)
    ensures Inv(After(w, actions))
    decreases |actions|
  {
    if actions != [] {
      StepKeepsInv(w, actions[0]);
      RunKeepsInv(Next(w, actions[0]), actions[1..]);
    }
  }

  /**
   * A native allow was earned: exactly one commit of that request exists, it came
   * first, it moved a pending unexpired row of an active, still bound launch, and
   * the row says allow for ever.
   */
  lemma AllowWasCommittedOnce(actions: seq<Action>, i: nat) returns (k: nat)
    requires Run(IDLE, actions)
    requires var h := After(IDLE, actions).history; i < |h| && h[i].Reply? && h[i].allow
    ensures var w := After(IDLE, actions);
            var hook := w.history[i].hook;
            && k < i && w.history[k].Commit? && CommitsFor(w.history[k], hook) && CommitOk(w.history[k])
            && (forall m :: 0 <= m < |w.history| && w.history[m].Commit? && w.history[m].hook.nonce == hook.nonce ==>
                m == k)
            && hook.nonce in w.journal.requests && w.journal.requests[hook.nonce].status == Allow
  {
    IdleIsFine();
    RunKeepsInv(IDLE, actions);
    var w := After(IDLE, actions);
    assert EventOk(w, i);
    var c :| 0 <= c < i && CommitsFor(w.history[..i][c], w.history[i].hook);
    k := c;
    assert EventOk(w, k);
  }

  /**
   * An allow no human answered is a workstation's Bash, or a developer's Bash that a human granted
   * earlier for the same scope and tlive epoch.
   */
  lemma UnaskedAllowIsGrantedBash(actions: seq<Action>, i: nat)
    requires Run(IDLE, actions)
    requires var h := After(IDLE, actions).history; i < |h| && h[i].Reply? && h[i].allow && h[i].hook.receipt.None?
    ensures var w := After(IDLE, actions);
            var hook := w.history[i].hook;
            && hook.tool == "Bash"
            && (hook.launch.profile == Workstation ||
                (hook.launch.profile == Developer && GrantedBefore(w.history[..i], ScopeOf(hook), hook.tlive)))
  {
    var k := AllowWasCommittedOnce(actions, i);
    RunKeepsInvFromIdle(actions);
    var w := After(IDLE, actions);
    var hook := w.history[i].hook;
    assert EventOk(w, k);
    assert w.history[k].hook.granted;
    if hook.launch.profile != Workstation {
      HistoryGrows(w.history[..k], w.history[..i], w.history[k].hook);
    }
  }

  /**
   * The answer is the human's: over every run, a commit carries the receipt heard for exactly that
   * hook, a denial leaves the row denied and is never answered with an allow, and any consent, or
   * a grant without a question, leaves it allowed.
   */
  lemma AnswerIsTheHumans(actions: seq<Action>, k: nat)
    requires Run(IDLE, actions)
    requires var h := After(IDLE, actions).history; k < |h| && h[k].Commit?
    ensures var w := After(IDLE, actions);
            var hook := w.history[k].hook;
            && hook.nonce in w.journal.requests
            && (hook.receipt == Some(Denied) ==>
                  && w.journal.requests[hook.nonce].status == Deny
                  && forall i :: 0 <= i < |w.history| && w.history[i].Reply? && w.history[i].hook.nonce == hook.nonce
                                 ==> !w.history[i].allow)
            && (hook.receipt == Some(Allowed) || hook.receipt == Some(AllowedUntilRestart)
                || (hook.receipt.None? && hook.granted) ==>
                  w.journal.requests[hook.nonce].status == Allow)
            && (hook.receipt.None? ==> hook.granted)
            && (hook.receipt.Some? ==> exists n :: 0 <= n < k && HeardFor(w.history[n], hook))
  {
    RunKeepsInvFromIdle(actions);
    var w := After(IDLE, actions);
    var hook := w.history[k].hook;
    assert EventOk(w, k);
    if hook.receipt.Some? {
      var n :| 0 <= n < k && HeardFor(w.history[..k][n], hook);
      assert HeardFor(w.history[n], hook);
    }
    forall i | 0 <= i < |w.history| && w.history[i].Reply? && w.history[i].hook.nonce == hook.nonce
               && w.history[i].allow
      ensures hook.receipt != Some(Denied)
    {
      assert EventOk(w, i);
      var c :| 0 <= c < i && CommitsFor(w.history[..i][c], w.history[i].hook);
      assert c == k;
    }
  }

  /** Over every run, no allow follows a human's denial. */
  lemma NoAllowAfterDenial(actions: seq<Action>, i: nat)
    requires Run(IDLE, actions)
    requires var h := After(IDLE, actions).history; i < |h| && h[i].Reply? && h[i].allow
    ensures After(IDLE, actions).history[i].hook.receipt != Some(Denied)
  {
    RunKeepsInvFromIdle(actions);
    assert EventOk(After(IDLE, actions), i);
  }

  /**
   * A committed answer reaches the native hook: consent and a grant without a question as an allow, a
   * denial as a deny; consent until restart only once the cache holds it.
   */
  lemma CommittedAnswerIsGiven(w: World, id: nat, cancelled: bool)
    requires id in w.hooks && w.hooks[id].stage.Committed?
    ensures var h, after := w.hooks[id], Next(w, Publish(id, cancelled));
            && (h.receipt == Some(Allowed) || h.receipt.None? ==>
                  after.hooks[id].stage == Answering(true) && after.grants == w.grants)
            && (h.receipt == Some(Denied) ==> after.hooks[id].stage == Answering(false) && after.grants == w.grants)
            && (h.receipt == Some(AllowedUntilRestart) ==>
                  if h.tool == "Bash" && h.launch.profile == Developer && !cancelled
                  then after.hooks[id].stage == Answering(true)
                       && (after.grants != [] ==> after.grants[|after.grants| - 1] == (ScopeOf(h), h.tlive))
                       && after.grants != []
                  else after.hooks[id].stage == Failing && after.grants == w.grants)
  {
  }

  lemma RunKeepsInvFromIdle(actions: seq<Action>)
    requires Run(IDLE, actions)
    ensures Inv(After(IDLE, actions))
  {
    IdleIsFine();
    RunKeepsInv(IDLE, actions);
  }

  lemma ExtendsChain(a: Journal, b: Journal, c: Journal)
    requires Extends(b, a) && Extends(c, b)
    ensures Extends(c, a)
  {
  }

  lemma {:induction false} RunExtends(w: World, actions: seq<Action>)
    requires Inv(w) && Run(w, actions)
    ensures Extends(After(w, actions).journal, w.journal)
    decreases |actions|
  {
    if actions != [] {
      StepKeepsInv(w, actions[0]);
      RunExtends(Next(w, actions[0]), actions[1..]);
      ExtendsChain(w.journal, Next(w, actions[0]).journal, After(w, actions).journal);
    }
  }

  /** Once a launch is closed, no run leaves it a pending request or turns one of its requests into an allow. */
  lemma ClosedLaunchGainsNothing(w: World, actions: seq<Action>, epoch: string)
    requires Inv(w) && Run(w, actions) && epoch in w.journal.launches && !w.journal.launches[epoch].active
    ensures var j := After(w, actions).journal;
            && (forall n :: n in j.requests && j.requests[n].epoch == epoch ==> j.requests[n].status != Pending)
            && (forall n :: n in j.requests && j.requests[n].epoch == epoch ==>
                  n in w.journal.requests && j.requests[n] == w.journal.requests[n])
  {
    RunExtends(w, actions);
    RunKeepsInv(w, actions);
    var j := After(w, actions).journal;
    ClosedIsFinal(w.journal, j, epoch);
  }
}
