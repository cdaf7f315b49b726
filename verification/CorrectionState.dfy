/** The durable side of one streamed input and its single correction. */
module CorrectionState {
  import opened Wrappers
  import opened Identifiers
  import opened Json
  import opened Texts

  type Uuid = string

  const MAX_CORRECTION_CHARACTERS := 20_000

  datatype Frame = Frame(uuid: Uuid, session: string, text: string)

  /** Texts are kept where the table keeps their injective digests. */
  datatype Run = Run(initial: Uuid, digest: string, session: string, root: string,
                     initialReceipt: bool, terminals: nat, validated: bool)
  datatype Child = Child(job: JobId, lease: Token, uuid: Uuid, digest: string, receipt: Option<nat>)

  datatype Status = Queued | Executing | Completed | Cancelled | Indeterminate | Other
  datatype Job = Job(status: Status, lease: Option<Token>, attempts: nat, maxAttempts: nat, expires: Option<Wall>)

  /** The parent's joined row when its lease is live, with the columns compared against it. */
  datatype Owner = Owner(
    native: string, currentNative: Option<string>, generation: nat, currentGeneration: nat,
    telegramWriter: bool, archived: bool, chat: int, currentChat: int,
    scope: Option<string>, root: string, project: string, completed: bool,
    selection: Selection, currentModel: string, currentEffort: string, expires: Wall)

  /** The columns a correction must share with its parent. */
  datatype Selection = Selection(chat: int, topic: nat, agent: string, session: nat, generation: nat,
                                 model: string, effort: string, profile: Option<string>)

  datatype Candidate = Candidate(
    job: JobId, text: string, selection: Selection, native: Option<string>, watermark: bool, handoff: bool,
    nextAttempt: Option<Wall>, sameProvenance: bool, stopPending: bool, held: bool, materials: bool, retried: bool)

  datatype Store = Store(runs: map<JobId, Run>, children: map<JobId, Child>, jobs: map<JobId, Job>)

  predicate Bound(owner: Option<Owner>) {
    && owner.Some?
    && var o := owner.value;
    && o.currentNative == Some(o.native) && o.generation == o.currentGeneration
    && o.telegramWriter && !o.archived && o.chat == o.currentChat
    && (o.scope == Some("root:" + o.root) || o.scope == Some("project:" + o.project))
    && !o.completed
  }

  function PrepareRun(s: Store, owner: Option<Owner>, parent: JobId, frame: Frame, root: string): Result<Store> {
    if !Bound(owner) then Err("Claude input owner binding changed")
    else if frame.session != owner.value.native || root != owner.value.root then Err("preparation binding changed")
    else if Blank(frame.text) then Err("claude text input is invalid")
    else if parent in s.runs || (exists p :: p in s.runs && s.runs[p].initial == frame.uuid)
    then Err("run cannot be replaced")
    else Ok(s.(runs := s.runs[parent := Run(frame.uuid, frame.text, frame.session, root, false, 0, false)]))
  }

  /** Every column and side table that keeps ordinary FIFO for the next message. */
  predicate Eligible(owner: Owner, c: Candidate, job: Job, now: Wall) {
    && job.status == Queued && 0 < |c.text| <= MAX_CORRECTION_CHARACTERS && job.attempts < job.maxAttempts
    && c.selection == owner.selection
    && (c.native.None? || c.native == Some(owner.native))
    && !c.watermark && !c.handoff
    && (c.nextAttempt.None? || c.nextAttempt.value <= now)
    && c.sameProvenance && !c.stopPending && !c.held && !c.materials && !c.retried
  }

  /** A job of some topic in its queue; `blocks` says that it keeps later messages waiting. */
  datatype Waiting = Waiting(topic: nat, sequence: int, blocks: bool, candidate: Candidate)

  predicate Follows(q: Waiting, topic: nat, after: int) {
    q.topic == topic && q.sequence > after && q.blocks
  }

  /** The first blocking successor of the parent in its topic, eligible or not. */
  predicate IsHead(queue: seq<Waiting>, topic: nat, after: int, k: nat) {
    && k < |queue| && Follows(queue[k], topic, after)
    && forall j :: 0 <= j < |queue| && Follows(queue[j], topic, after) ==> queue[k].sequence <= queue[j].sequence
  }

  /** Of the jobs after the parent in its topic that keep others waiting, the one that comes first. */
  lemma HeadIff(queue: seq<Waiting>, topic: nat, after: int, k: nat)
    ensures IsHead(queue, topic, after, k) <==>
            && k < |queue| && queue[k].topic == topic && queue[k].sequence > after && queue[k].blocks
            && forall j :: 0 <= j < |queue| && queue[j].topic == topic && queue[j].blocks ==>
                queue[j].sequence <= after || queue[k].sequence <= queue[j].sequence
  {
  }

  datatype Claimed = Claimed(store: Store, frame: Option<Frame>)

  function ClaimChild(s: Store, owner: Option<Owner>, parent: JobId, parentStopped: bool, controlOwned: bool,
                 candidate: Option<Candidate>, uuid: Uuid, lease: Token, now: Wall): Result<Claimed>
  {
    if !Bound(owner) || parent !in s.runs then Ok(Claimed(s, None))
    else
      var o := owner.value;
      if o.selection.model != o.currentModel || o.selection.effort != o.currentEffort
         || s.runs[parent].terminals != 0 || parent in s.children || parentStopped || controlOwned
         || candidate.None? || candidate.value.job !in s.jobs
         || !Eligible(o, candidate.value, s.jobs[candidate.value.job], now)
         || uuid == s.runs[parent].initial
      then Ok(Claimed(s, None))
      else
        var c := candidate.value;
        if Blank(c.text) then Err("claude text input is invalid")
        else if exists p :: p in s.children && (s.children[p].job == c.job || s.children[p].uuid == uuid)
        then Err("child cannot be replaced")
        else
          var job := s.jobs[c.job];
          Ok(Claimed(Store(s.runs, s.children[parent := Child(c.job, lease, uuid, c.text, None)],
                           s.jobs[c.job := job.(status := Executing, attempts := job.attempts + 1,
                                                lease := Some(lease), expires := Some(o.expires))]),
                     Some(Frame(uuid, o.native, c.text))))
  }

  /** The child's column admits boundaries 1 and 2 only. */
  function SealReceipt(s: Store, owner: Option<Owner>, parent: JobId, uuid: Uuid, boundary: nat): Result<Store> {
    if !Bound(owner) then Err("Claude input owner binding changed")
    else if parent !in s.runs || boundary != s.runs[parent].terminals + 1 then Err("receipt boundary changed")
    else
      var run := s.runs[parent];
      if uuid == run.initial && boundary == 1 && !run.initialReceipt
      then Ok(s.(runs := s.runs[parent := run.(initialReceipt := true)]))
      else if parent in s.children && uuid == s.children[parent].uuid && s.children[parent].receipt.None?
              && run.initialReceipt && boundary <= 2
      then Ok(s.(children := s.children[parent := s.children[parent].(receipt := Some(boundary))]))
      else Err("receipt binding changed")
  }

  function SealResult(s: Store, owner: Option<Owner>, parent: JobId, boundary: nat): Result<Store> {
    if !Bound(owner) then Err("Claude input owner binding changed")
    else if (boundary != 1 && boundary != 2) || parent !in s.runs
            || s.runs[parent].terminals + 1 != boundary || !s.runs[parent].initialReceipt
    then Err("terminal sequence changed")
    else Ok(s.(runs := s.runs[parent := s.runs[parent].(terminals := boundary)]))
  }

  predicate CompletionConfirmed(s: Store, parent: JobId)
    requires parent in s.runs
  {
    && s.runs[parent].initialReceipt && s.runs[parent].terminals > 0
    && (parent in s.children ==> s.children[parent].receipt.Some?
                                 && s.children[parent].receipt.value <= s.runs[parent].terminals)
  }

  function ConfirmCompletion(s: Store, parent: JobId): Result<Store> {
    if parent !in s.runs then Ok(s)
    else if !CompletionConfirmed(s, parent) then Err("completion is unconfirmed")
    else Ok(s.(runs := s.runs[parent := s.runs[parent].(validated := true)]))
  }

  /** `disposition` is the parent's own outcome; anything but completion or a stop leaves the child uncertain. */
  function SettleChild(s: Store, parent: JobId, disposition: Status, saved: bool): Result<Store> {
    if parent !in s.children then Ok(s)
    else
      var child := s.children[parent];
      if disposition == Completed && !(parent in s.runs && s.runs[parent].validated && saved)
      then Err("correction has no saved completion")
      else if !(child.job in s.jobs && s.jobs[child.job].status == Executing
                && s.jobs[child.job].lease == Some(child.lease))
      then Err("correction lease changed before settlement")
      else
        var final := if disposition == Completed || disposition == Cancelled then disposition else Indeterminate;
        Ok(s.(jobs := s.jobs[child.job := s.jobs[child.job].(status := final, lease := None, expires := None)]))
  }

  // ----- what schema 55 refuses -----

  predicate RunUpdateAllowed(before: Run, after: Run) {
    && after.initial == before.initial && after.digest == before.digest
    && after.session == before.session && after.root == before.root
    && (before.initialReceipt ==> after.initialReceipt)
    && before.terminals <= after.terminals <= before.terminals + 1
    && (before.validated ==> after.validated)
  }

  predicate ChildUpdateAllowed(before: Child, after: Child) {
    && after.(receipt := before.receipt) == before
    && (before.receipt.Some? ==> after.receipt == before.receipt)
  }

  /** No run or child is replaced, rebound or deleted. */
  ghost predicate Retained(before: Store, after: Store) {
    && (forall p :: p in before.runs ==> p in after.runs && RunUpdateAllowed(before.runs[p], after.runs[p]))
    && (forall p :: p in before.children ==> p in after.children
                                              && ChildUpdateAllowed(before.children[p], after.children[p]))
  }

  /** The table CHECKs, and one child per correction job. */
  ghost predicate Sound(s: Store) {
    && (forall p :: p in s.runs ==> s.runs[p].terminals <= 2)
    && (forall p :: p in s.children ==> p in s.runs && s.children[p].uuid != s.runs[p].initial
                                        && (s.children[p].receipt.Some? ==> 1 <= s.children[p].receipt.value <= 2))
    && (forall p, q :: p in s.children && q in s.children && s.children[p].job == s.children[q].job ==> p == q)
  }

  datatype Change =
    | DoPrepare(frame: Frame, root: string)
    | DoClaim(parentStopped: bool, controlOwned: bool, candidate: Option<Candidate>, uuid: Uuid, lease: Token,
              now: Wall)
    | DoReceipt(uuid: Uuid, boundary: nat)
    | DoResult(boundary: nat)
    | DoValidate
    | DoSettle(disposition: Status, saved: bool)

  function Perform(s: Store, owner: Option<Owner>, parent: JobId, c: Change): Result<Store> {
    match c
    case DoPrepare(frame, root) => PrepareRun(s, owner, parent, frame, root)
    case DoClaim(stopped, owned, candidate, uuid, lease, now) =>
      var r :- ClaimChild(s, owner, parent, stopped, owned, candidate, uuid, lease, now);
      Ok(r.store)
    case DoReceipt(uuid, boundary) => SealReceipt(s, owner, parent, uuid, boundary)
    case DoResult(boundary) => SealResult(s, owner, parent, boundary)
    case DoValidate => ConfirmCompletion(s, parent)
    case DoSettle(disposition, saved) => SettleChild(s, parent, disposition, saved)
  }

  lemma ClaimPassesTheSchema(s: Store, owner: Option<Owner>, parent: JobId, stopped: bool, owned: bool,
                             candidate: Option<Candidate>, uuid: Uuid, lease: Token, now: Wall)
    requires Sound(s) && ClaimChild(s, owner, parent, stopped, owned, candidate, uuid, lease, now).Ok?
    ensures var after := ClaimChild(s, owner, parent, stopped, owned, candidate, uuid, lease, now).value.store;
            Sound(after) && Retained(s, after)
  {
  }

  lemma RunChangePasses(s: Store, parent: JobId, run: Run)
    requires Sound(s) && parent in s.runs && run.terminals <= 2 && RunUpdateAllowed(s.runs[parent], run)
    ensures Sound(s.(runs := s.runs[parent := run])) && Retained(s, s.(runs := s.runs[parent := run]))
  {
  }

  lemma ChildChangePasses(s: Store, parent: JobId, child: Child)
    requires Sound(s) && parent in s.children && ChildUpdateAllowed(s.children[parent], child)
    requires child.receipt.Some? ==> 1 <= child.receipt.value <= 2
    ensures Sound(s.(children := s.children[parent := child]))
        && Retained(s, s.(children := s.children[parent := child]))
  {
  }

  lemma PreparePasses(s: Store, owner: Option<Owner>, parent: JobId, frame: Frame, root: string)
    requires Sound(s) && PrepareRun(s, owner, parent, frame, root).Ok?
    ensures var after := PrepareRun(s, owner, parent, frame, root).value; Sound(after) && Retained(s, after)
  {
  }

  lemma ReceiptPasses(s: Store, owner: Option<Owner>, parent: JobId, uuid: Uuid, boundary: nat)
    requires Sound(s) && SealReceipt(s, owner, parent, uuid, boundary).Ok?
    ensures var after := SealReceipt(s, owner, parent, uuid, boundary).value; Sound(after) && Retained(s, after)
  {
    var after := SealReceipt(s, owner, parent, uuid, boundary).value;
    if after.runs != s.runs {
      RunChangePasses(s, parent, after.runs[parent]);
    } else {
      ChildChangePasses(s, parent, after.children[parent]);
    }
  }

  lemma ResultPasses(s: Store, owner: Option<Owner>, parent: JobId, boundary: nat)
    requires Sound(s) && SealResult(s, owner, parent, boundary).Ok?
    ensures var after := SealResult(s, owner, parent, boundary).value; Sound(after) && Retained(s, after)
  {
    RunChangePasses(s, parent, SealResult(s, owner, parent, boundary).value.runs[parent]);
  }

  lemma ConfirmPasses(s: Store, parent: JobId)
    requires Sound(s) && ConfirmCompletion(s, parent).Ok?
    ensures var after := ConfirmCompletion(s, parent).value; Sound(after) && Retained(s, after)
  {
    if parent in s.runs {
      RunChangePasses(s, parent, ConfirmCompletion(s, parent).value.runs[parent]);
    }
  }

  /** No transaction of this store is one the schema would abort. */
  lemma ChangesPassTheSchema(s: Store, owner: Option<Owner>, parent: JobId, c: Change)
    requires Sound(s) && Perform(s, owner, parent, c).Ok?
    ensures Sound(Perform(s, owner, parent, c).value) && Retained(s, Perform(s, owner, parent, c).value)
  {
    match c
    case DoPrepare(frame, root) => PreparePasses(s, owner, parent, frame, root);
    case DoClaim(stopped, owned, candidate, uuid, lease, now) =>
      ClaimPassesTheSchema(s, owner, parent, stopped, owned, candidate, uuid, lease, now);
    case DoReceipt(uuid, boundary) => ReceiptPasses(s, owner, parent, uuid, boundary);
    case DoResult(boundary) => ResultPasses(s, owner, parent, boundary);
    case DoValidate => ConfirmPasses(s, parent);
    case DoSettle(disposition, saved) =>
      var after := SettleChild(s, parent, disposition, saved).value;
      assert after.runs == s.runs && after.children == s.children;
  }

  /** A claimed correction ends exactly once, and as completed only after a validated, saved parent completion. */
  lemma SettledExactlyOnce(s: Store, parent: JobId, disposition: Status, saved: bool)
    requires parent in s.children && SettleChild(s, parent, disposition, saved).Ok?
    ensures var after := SettleChild(s, parent, disposition, saved).value; var job := s.children[parent].job;
            && after.jobs[job].status in {Completed, Cancelled, Indeterminate} && after.jobs[job].lease.None?
            && (after.jobs[job].status == Completed ==> parent in s.runs && s.runs[parent].validated && saved)
            && (forall d, v :: SettleChild(after, parent, d, v).Err?)
            && (forall j :: j in s.jobs && j != job ==> after.jobs[j] == s.jobs[j])
  {
  }

  // ----- what each transaction needs and leaves, over the columns -----

  /** The parent is executing for the native session, writer, chat and scope it started under. */
  predicate StillOwns(o: Owner) {
    && o == o.(currentNative := Some(o.native), currentGeneration := o.generation, currentChat := o.chat,
               telegramWriter := true, archived := false, completed := false)
    && o.scope in {Some("root:" + o.root), Some("project:" + o.project)}
  }

  lemma BoundIffOwns(owner: Option<Owner>)
    ensures Bound(owner) <==> owner.Some? && StillOwns(owner.value)
  {
  }

  /** A run is prepared once, for the owner's own session and root, and starts with nothing received. */
  lemma PreparedIff(s: Store, owner: Option<Owner>, parent: JobId, frame: Frame, root: string)
    ensures var r := PrepareRun(s, owner, parent, frame, root);
            && (r.Ok? <==>
                && owner.Some? && StillOwns(owner.value)
                && frame.session == owner.value.native && root == owner.value.root
                && (exists i :: 0 <= i < |frame.text| && !IsSpace(frame.text[i]))
                && parent !in s.runs && forall p :: p in s.runs ==> s.runs[p].initial != frame.uuid)
            && (r.Ok? ==>
                  r.value == Store(s.runs[parent := Run(frame.uuid, frame.text, frame.session, root, false, 0, false)],
                                   s.children, s.jobs))
  {
  }

  /** The next message can join the parent's turn: same selection and provenance, and nothing holds it back. */
  predicate MayJoin(o: Owner, c: Candidate, job: Job, now: Wall) {
    && job.status == Queued && job.attempts < job.maxAttempts
    && 1 <= |c.text| <= 20_000
    && c.selection == o.selection.(model := o.currentModel, effort := o.currentEffort) == o.selection
    && c.native in {None, Some(o.native)}
    && (c.nextAttempt.Some? ==> c.nextAttempt.value <= now)
    && c == c.(watermark := false, handoff := false, sameProvenance := true, stopPending := false, held := false,
               materials := false, retried := false)
  }

  lemma EligibleIffMayJoin(o: Owner, c: Candidate, job: Job, now: Wall)
    ensures o.selection.model == o.currentModel && o.selection.effort == o.currentEffort && Eligible(o, c, job, now)
            <==> MayJoin(o, c, job, now)
  {
  }

  /** When a claim hands a frame out, and when it finds a child it may not replace. */
  ghost predicate Claimable(s: Store, owner: Option<Owner>, parent: JobId, stopped: bool, owned: bool,
                            candidate: Option<Candidate>, uuid: Uuid, now: Wall) {
    && owner.Some? && StillOwns(owner.value)
    && parent in s.runs && s.runs[parent].terminals == 0 && s.runs[parent].initial != uuid
    && parent !in s.children && !stopped && !owned
    && candidate.Some? && candidate.value.job in s.jobs
    && MayJoin(owner.value, candidate.value, s.jobs[candidate.value.job], now)
  }

  ghost predicate Joinable(s: Store, c: Candidate, uuid: Uuid) {
    && (exists i :: 0 <= i < |c.text| && !IsSpace(c.text[i]))
    && forall p :: p in s.children ==> s.children[p].job != c.job && s.children[p].uuid != uuid
  }

  /**
   * A claim hands out a frame if and only if the queue's head may join the parent: then its job,
   * queued before, executes under the child's own new lease for as long as the parent's, one attempt
   * later, and no other job changes.
   */
  lemma ClaimedJobExecutes(s: Store, owner: Option<Owner>, parent: JobId, stopped: bool, owned: bool,
                           candidate: Option<Candidate>, uuid: Uuid, lease: Token, now: Wall)
    ensures var r := ClaimChild(s, owner, parent, stopped, owned, candidate, uuid, lease, now);
            var may := Claimable(s, owner, parent, stopped, owned, candidate, uuid, now);
            && (r.Err? <==> may && !Joinable(s, candidate.value, uuid))
            && (r.Ok? ==> (r.value.frame.Some? <==> may))
            && (r.Ok? && r.value.frame.None? ==> r.value.store == s)
            && (r.Ok? && r.value.frame.Some? ==>
                  var c, o, after := candidate.value, owner.value, r.value.store;
                  && r.value.frame == Some(Frame(uuid, o.native, c.text))
                  && after.runs == s.runs
                  && after.children == s.children[parent := Child(c.job, lease, uuid, c.text, None)]
                  && s.jobs[c.job].status == Queued
                  && after.jobs == s.jobs[c.job := after.jobs[c.job]]
                  && after.jobs[c.job] == Job(Executing, Some(lease), s.jobs[c.job].attempts + 1,
                                              s.jobs[c.job].maxAttempts, Some(o.expires)))
  {
    hide Eligible, MayJoin, Bound, StillOwns;
    BoundIffOwns(owner);
    if owner.Some? && candidate.Some? && candidate.value.job in s.jobs {
      EligibleIffMayJoin(owner.value, candidate.value, s.jobs[candidate.value.job], now);
      MayJoinMeans(owner.value, candidate.value, s.jobs[candidate.value.job], now);
    }
  }

  lemma MayJoinMeans(o: Owner, c: Candidate, job: Job, now: Wall)
    ensures MayJoin(o, c, job, now) ==>
              job.status == Queued && o.selection.model == o.currentModel && o.selection.effort == o.currentEffort
  {
  }

  /** A child whose job still executes under the child's own lease. */
  predicate Held(s: Store, parent: JobId) {
    && parent in s.children && s.children[parent].job in s.jobs
    && s.jobs[s.children[parent].job].status == Executing
    && s.jobs[s.children[parent].job].lease == Some(s.children[parent].lease)
  }

  /**
   * A held child always settles, as completed only with a validated run and a saved text, as
   * cancelled with its parent, and as indeterminate with any other end; its lease is gone, no other
   * job changes, and a child that is not held is refused.
   */
  lemma HeldChildSettles(s: Store, parent: JobId, disposition: Status, saved: bool)
    requires parent in s.children
    ensures var r := SettleChild(s, parent, disposition, saved); var id := s.children[parent].job;
            && (r.Ok? <==> Held(s, parent) && (disposition == Completed ==>
                                               saved && parent in s.runs && s.runs[parent].validated))
            && (r.Ok? ==>
                  && r.value.runs == s.runs && r.value.children == s.children
                  && r.value.jobs == s.jobs[id := r.value.jobs[id]]
                  && var before, after := s.jobs[id], r.value.jobs[id];
                  && after == Job(after.status, None, before.attempts, before.maxAttempts, None)
                  && (disposition == Completed ==> after.status == Completed)
                  && (disposition == Cancelled ==> after.status == Cancelled)
                  && (disposition != Completed && disposition != Cancelled ==> after.status == Indeterminate))
  {
  }

  /** Validation marks the run, and only it, exactly if everything sent was received and answered. */
  lemma ValidatedIff(s: Store, parent: JobId)
    requires parent in s.runs
    ensures var r, run := ConfirmCompletion(s, parent), s.runs[parent];
            && (r.Ok? <==>
                && run.initialReceipt && run.terminals >= 1
                && (parent in s.children ==> exists n :: s.children[parent].receipt == Some(n) && n <= run.terminals))
            && (r.Ok? ==> r.value == Store(s.runs[parent := run.(validated := true)], s.children, s.jobs))
  {
  }

  // ----- any sequence of transactions, of any parents -----

  datatype Act = Act(owner: Option<Owner>, parent: JobId, change: Change)

  /** A refused transaction rolls back. */
  function Acted(s: Store, a: Act): Store {
    var r := Perform(s, a.owner, a.parent, a.change);
    if r.Ok? then r.value else s
  }

  function ActedAll(s: Store, acts: seq<Act>): Store {
    if acts == [] then s else Acted(ActedAll(s, acts[..|acts| - 1]), acts[|acts| - 1])
  }

  /** The parents whose child a transaction of the sequence settled. */
  function SettledIn(s: Store, acts: seq<Act>): set<JobId> {
    if acts == [] then {}
    else
      var before, last := ActedAll(s, acts[..|acts| - 1]), acts[|acts| - 1];
      SettledIn(s, acts[..|acts| - 1])
      + if last.change.DoSettle? && last.parent in before.children
           && Perform(before, last.owner, last.parent, last.change).Ok? then {last.parent} else {}
  }

  ghost predicate JobsOk(s: Store, settled: set<JobId>) {
    && Sound(s)
    && forall p :: p in s.children ==>
        if p !in settled then Held(s, p)
        else s.children[p].job in s.jobs && s.jobs[s.children[p].job].lease.None?
             && s.jobs[s.children[p].job].status in {Completed, Cancelled, Indeterminate}
  }

  lemma ActKeepsJobs(s: Store, settled: set<JobId>, a: Act)
    requires JobsOk(s, settled) && settled <= s.children.Keys
    ensures var done := a.change.DoSettle? && a.parent in s.children
                        && Perform(s, a.owner, a.parent, a.change).Ok?;
            JobsOk(Acted(s, a), settled + if done then {a.parent} else {})
    ensures s.children.Keys <= Acted(s, a).children.Keys
  {
    hide Eligible, Bound, MayJoin, StillOwns, Sound;
    var r := Perform(s, a.owner, a.parent, a.change);
    if r.Ok? {
      ChangesPassTheSchema(s, a.owner, a.parent, a.change);
      match a.change
      case DoClaim(stopped, owned, candidate, uuid, lease, now) =>
        ClaimKeepsJobs(s, settled, a.owner, a.parent, stopped, owned, candidate, uuid, lease, now);
      case DoSettle(disposition, saved) =>
        if a.parent in s.children {
          SettleKeepsJobs(s, settled, a.parent, disposition, saved);
        }
      case DoReceipt(uuid, boundary) => ReceiptLeavesJobs(s, a.owner, a.parent, uuid, boundary);
      case _ =>
    }
    if !(a.change.DoSettle? && a.parent in s.children && r.Ok?) {
      assert settled + {} == settled;
    }
  }

  lemma ReceiptLeavesJobs(s: Store, owner: Option<Owner>, parent: JobId, uuid: Uuid, boundary: nat)
    requires SealReceipt(s, owner, parent, uuid, boundary).Ok?
    ensures var after := SealReceipt(s, owner, parent, uuid, boundary).value;
            && after.jobs == s.jobs && after.children.Keys == s.children.Keys
            && forall p :: p in s.children ==> after.children[p].(receipt := None) == s.children[p].(receipt := None)
  {
  }

  lemma ClaimKeepsJobs(s: Store, settled: set<JobId>, owner: Option<Owner>, parent: JobId, stopped: bool, owned: bool,
                       candidate: Option<Candidate>, uuid: Uuid, lease: Token, now: Wall)
    requires JobsOk(s, settled) && settled <= s.children.Keys
    requires ClaimChild(s, owner, parent, stopped, owned, candidate, uuid, lease, now).Ok?
    ensures var after := ClaimChild(s, owner, parent, stopped, owned, candidate, uuid, lease, now).value.store;
            JobsOk(after, settled) && s.children.Keys <= after.children.Keys
  {
    hide ClaimChild, Bound, MayJoin, StillOwns;
    ClaimedJobExecutes(s, owner, parent, stopped, owned, candidate, uuid, lease, now);
    ClaimPassesTheSchema(s, owner, parent, stopped, owned, candidate, uuid, lease, now);
  }

  lemma SettleKeepsJobs(s: Store, settled: set<JobId>, parent: JobId, disposition: Status, saved: bool)
    requires JobsOk(s, settled) && settled <= s.children.Keys && parent in s.children
    requires SettleChild(s, parent, disposition, saved).Ok?
    ensures JobsOk(SettleChild(s, parent, disposition, saved).value, settled + {parent})
  {
    HeldChildSettles(s, parent, disposition, saved);
  }

  lemma {:induction false} ChildrenStayHeld(s: Store, acts: seq<Act>)
    requires Sound(s) && s.children == map[]
    ensures JobsOk(ActedAll(s, acts), SettledIn(s, acts))
    ensures SettledIn(s, acts) <= ActedAll(s, acts).children.Keys
  {
    hide Acted;
    if acts != [] {
      ChildrenStayHeld(s, acts[..|acts| - 1]);
      ActKeepsJobs(ActedAll(s, acts[..|acts| - 1]), SettledIn(s, acts[..|acts| - 1]), acts[|acts| - 1]);
    }
  }

  /**
   * After any sequence of transactions every child not yet settled executes under its own lease, so
   * it can always be given up with its parent or left uncertain, and completed once its run is
   * validated and saved; and a settled one never settles again.
   */
  lemma EveryChildCanSettle(s: Store, acts: seq<Act>, parent: JobId)
    requires Sound(s) && s.children == map[]
    requires parent in ActedAll(s, acts).children
    ensures var after := ActedAll(s, acts); var job := after.children[parent].job;
            if parent in SettledIn(s, acts) then forall d, saved :: SettleChild(after, parent, d, saved).Err?
            else
              && Held(after, parent)
              && SettleChild(after, parent, Cancelled, false).Ok?
              && SettleChild(after, parent, Cancelled, false).value.jobs[job].status == Cancelled
              && SettleChild(after, parent, Other, false).Ok?
              && SettleChild(after, parent, Other, false).value.jobs[job].status == Indeterminate
              && (ConfirmCompletion(after, parent).Ok? && parent in after.runs ==>
                    var validated := ConfirmCompletion(after, parent).value;
                    && SettleChild(validated, parent, Completed, true).Ok?
                    && SettleChild(validated, parent, Completed, true).value.jobs[job].status == Completed)
  {
    hide ActedAll, SettledIn, Sound;
    ChildrenStayHeld(s, acts);
    var after := ActedAll(s, acts);
    if parent !in SettledIn(s, acts) {
      HeldChildSettles(after, parent, Cancelled, false);
      HeldChildSettles(after, parent, Other, false);
      if parent in after.runs && ConfirmCompletion(after, parent).Ok? {
        ValidatedIff(after, parent);
        HeldChildSettles(ConfirmCompletion(after, parent).value, parent, Completed, true);
      }
    }
  }

  class ClaudeCorrectionState {
    var store: Store

    constructor (store: Store)
      ensures this.store == store
    {
      this.store := store;
    }

    method Prepare(owner: Option<Owner>, parent: JobId, frame: Frame, root: string) returns (ok: bool)
      modifies this
      ensures var r := Perform(old(store), owner, parent, DoPrepare(frame, root));
              ok == r.Ok? && store == if ok then r.value else old(store)
    {
      ok := Bound(owner) && frame.session == owner.value.native && root == owner.value.root
            && !Blank(frame.text) && parent !in store.runs
            && !exists p :: p in store.runs && store.runs[p].initial == frame.uuid;
      if ok {
        var run := Run(frame.uuid, frame.text, frame.session, root, false, 0, false);
        store := store.(runs := store.runs[parent := run]);
      }
    }

    method Receipt(owner: Option<Owner>, parent: JobId, uuid: Uuid, boundary: nat) returns (ok: bool)
      modifies this
      ensures var r := Perform(old(store), owner, parent, DoReceipt(uuid, boundary));
              ok == r.Ok? && store == if ok then r.value else old(store)
    {
      if !Bound(owner) || parent !in store.runs || boundary != store.runs[parent].terminals + 1 {
        return false;
      }
      var run := store.runs[parent];
      if uuid == run.initial && boundary == 1 && !run.initialReceipt {
        store := store.(runs := store.runs[parent := run.(initialReceipt := true)]);
        return true;
      }
      if parent in store.children && uuid == store.children[parent].uuid
         && store.children[parent].receipt.None? && run.initialReceipt && boundary <= 2 {
        var child := store.children[parent].(receipt := Some(boundary));
        store := store.(children := store.children[parent := child]);
        return true;
      }
      ok := false;
    }

    method RecordResult(owner: Option<Owner>, parent: JobId, boundary: nat) returns (ok: bool)
      modifies this
      ensures var r := Perform(old(store), owner, parent, DoResult(boundary));
              ok == r.Ok? && store == if ok then r.value else old(store)
    {
      ok := Bound(owner) && parent in store.runs && store.runs[parent].terminals + 1 == boundary
            && store.runs[parent].initialReceipt && boundary <= 2;
      if ok {
        var run := store.runs[parent].(terminals := boundary);
        store := store.(runs := store.runs[parent := run]);
      }
    }

    method Claim(owner: Option<Owner>, parent: JobId, stopped: bool, owned: bool, candidate: Option<Candidate>,
                 uuid: Uuid, lease: Token, now: Wall) returns (r: Result<Option<Frame>>)
      modifies this
      ensures var spec := ClaimChild(old(store), owner, parent, stopped, owned, candidate, uuid, lease, now);
              && r.Ok? == spec.Ok?
              && (r.Ok? ==> r.value == spec.value.frame && store == spec.value.store)
              && (r.Err? ==> store == old(store))
    {
      if !Bound(owner) || parent !in store.runs {
        return Ok(None);
      }
      var o := owner.value;
      if o.selection.model != o.currentModel || o.selection.effort != o.currentEffort
         || store.runs[parent].terminals != 0 || parent in store.children || stopped || owned
         || candidate.None? || candidate.value.job !in store.jobs
         || !Eligible(o, candidate.value, store.jobs[candidate.value.job], now)
         || uuid == store.runs[parent].initial {
        return Ok(None);
      }
      var c := candidate.value;
      if Blank(c.text) {
        return Err("claude text input is invalid");
      }
      if exists p :: p in store.children && (store.children[p].job == c.job || store.children[p].uuid == uuid) {
        return Err("child cannot be replaced");
      }
      var job := store.jobs[c.job].(status := Executing, attempts := store.jobs[c.job].attempts + 1,
                                    lease := Some(lease), expires := Some(o.expires));
      store := Store(store.runs, store.children[parent := Child(c.job, lease, uuid, c.text, None)],
                     store.jobs[c.job := job]);
      r := Ok(Some(Frame(uuid, o.native, c.text)));
    }

    method Head(queue: seq<Waiting>, topic: nat, after: int) returns (k: Option<nat>)
      ensures k.Some? ==> IsHead(queue, topic, after, k.value)
      ensures k.None? ==> forall j :: 0 <= j < |queue| ==> !Follows(queue[j], topic, after)
    {
      k := None;
      for n := 0 to |queue|
        invariant k.Some? ==> k.value < n && Follows(queue[k.value], topic, after)
        invariant k.None? ==> forall j :: 0 <= j < n ==> !Follows(queue[j], topic, after)
        invariant k.Some? ==> forall j :: 0 <= j < n && Follows(queue[j], topic, after) ==>
            queue[k.value].sequence <= queue[j].sequence
      {
        if Follows(queue[n], topic, after) && (k.None? || queue[n].sequence < queue[k.value].sequence) {
          k := Some(n);
        }
      }
    }

    /**
     * The claim with its own query: only the head of the topic's queue can join, and an ineligible
     * head lets nothing past it.
     */
    method ClaimHead(owner: Option<Owner>, parent: JobId, stopped: bool, owned: bool, queue: seq<Waiting>, after: int,
                     uuid: Uuid, lease: Token, now: Wall) returns (r: Result<Option<Frame>>, ghost head: Option<nat>)
      modifies this
      ensures owner.Some? && head.Some? ==> IsHead(queue, owner.value.selection.topic, after, head.value)
      ensures owner.Some? && head.None? ==> forall j :: 0 <= j < |queue| ==>
          !Follows(queue[j], owner.value.selection.topic, after)
      ensures var candidate := if head.Some? && head.value < |queue| then Some(queue[head.value].candidate) else None;
              var spec := ClaimChild(old(store), owner, parent, stopped, owned, candidate, uuid, lease, now);
              && r.Ok? == spec.Ok?
              && (r.Ok? ==> r.value == spec.value.frame && store == spec.value.store)
              && (r.Err? ==> store == old(store))
      ensures r.Ok? && r.value.Some? ==>
                && head.Some? && head.value < |queue| && parent in store.children
                && store.children[parent].job == queue[head.value].candidate.job
                && r.value.value.text == queue[head.value].candidate.text
    {
      var k: Option<nat> := None;
      if owner.Some? {
        k := Head(queue, owner.value.selection.topic, after);
      }
      head := k;
      var candidate := if k.Some? then Some(queue[k.value].candidate) else None;
      r := Claim(owner, parent, stopped, owned, candidate, uuid, lease, now);
    }

    method ValidateCompletion(parent: JobId) returns (ok: bool)
      modifies this
      ensures var r := Perform(old(store), None, parent, DoValidate);
              ok == r.Ok? && store == if ok then r.value else old(store)
    {
      ok := parent !in store.runs || CompletionConfirmed(store, parent);
      if ok && parent in store.runs {
        var run := store.runs[parent].(validated := true);
        store := store.(runs := store.runs[parent := run]);
      }
    }

    method Settle(parent: JobId, disposition: Status, saved: bool) returns (ok: bool)
      modifies this
      ensures var r := Perform(old(store), None, parent, DoSettle(disposition, saved));
              ok == r.Ok? && store == if ok then r.value else old(store)
    {
      if parent !in store.children {
        return true;
      }
      var child := store.children[parent];
      ok := (disposition == Completed ==> parent in store.runs && store.runs[parent].validated && saved)
            && child.job in store.jobs && store.jobs[child.job].status == Executing
            && store.jobs[child.job].lease == Some(child.lease);
      if ok {
        var final := if disposition == Completed || disposition == Cancelled then disposition else Indeterminate;
        var job := store.jobs[child.job].(status := final, lease := None, expires := None);
        store := store.(jobs := store.jobs[child.job := job]);
      }
    }
  }
}
