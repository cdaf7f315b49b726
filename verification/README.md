# Exact-turn control, streamed input and release switching: a Dafny model

This project models the parts of the hub where one mistake is expensive and
proves what they promise over every run. `dafny verify dfyconfig.toml` checks
all of it.

- **Exact-turn control.** `Identifiers`, `ControlRows`, `ControlScope`,
  `TurnControls`, `SendPath`, `IngressReservation`: the durable rows, the two
  forms of the scope gate, every transaction on the rows, the deferred close.
  `ControlProtocol` is the transition system in which any number of observers
  race over the rows and may crash anywhere; `ControlRecovery` is the client
  code, each of whose effects is shown to be a step of it while others act in
  between; `LateReads` is the read allowance along its runs. `ControlRules` and
  `InterruptAuthority` say over the tables alone when each transaction acts.
- **Ingress precautions.** `IngressPolicy`, `IngressLedger`,
  `IngressAssessments`, `IngressControl`: evidence, deadlines, episodes and the
  second route to the same fence; `IngressRules` and `IngressGrants` say what
  each writes and grants over its inputs.
- **Claude streamed input.** `CorrectionState` (durable) and `Corrections`
  (memory) with the simulation between them; `ClaudeStream` and `StreamReader`
  for the incremental parser and its lossy projection; `CorrectedStream` for
  memory and parser together; `CorrectionRules`, `StreamPolicies`,
  `StreamVerdict` and `StreamLines` for what each takes and gives over the
  events and bytes themselves; `OutputText` for the text the parser gets,
  `CorrectedLaunch` for bytes, questions, journal and text with them; `Json` for
  events and `Texts` for string tests.
- **Supporting machines.** `LiveSteering`, `TurnMessages`, `TurnCollector`,
  `Inbox`, `InboxRules`, `RolloutScan`, `PermissionJournal`, `BashGrants`,
  `PermissionHost`, `PermissionRules`, `PermissionWait`, `Base64`, `JsonText`,
  `ImageInput`, `ImageRules`, `ReleaseManifest`, `ReleaseSwitch`.

Where the source mutates an object, the module has a class whose methods are
proved equal to functions of the old state; the functions carry the theorems.
The database schema is used as an independent reference: its CHECK constraints
and triggers are stated on their own, and every transaction of the Python code
is shown to pass them.

## Assumptions

- A transaction is atomic. Contention is a step that fails without effect; a
  commit whose result is lost is a step of its own.
- UUIDs are fresh and SHA-256 is injective, so rows keep the token, text or
  bytes where the table keeps a digest.
- Wall-clock times are arbitrary inputs in microseconds; monotonic readings are
  real numbers. Identifiers are naturals ordered as their text is.
- `STOP_COVERS_JOB_SQL` is an arbitrary set of (stop, job) pairs.
- A saved project root is never NULL: the columns of controls, checkpoints and
  session origins are NOT NULL, and a session has one origin. On such tables the
  two scope gates agree exactly; only the text of the SQL would treat a NULL
  root differently.
- No other program moves a release link while a switch is under way.

## Where the code promises less than it seems to

- `ProductiveDeadline.remaining()` reads two clocks one after the other. If time
  passes between them, a later call may report more and an expired deadline may
  revive: `PermissionWait.ExpiredCanRevive`; the exact condition is in
  `PermissionWait.NeverRisesIffSettled`.
- The reader of a Claude stream ends a line at a newline only, the final parser
  at every line end of `str.splitlines()`, and events are written without ASCII
  folding. A completed turn with U+0085, U+2028 or U+2029 in any retained string
  is therefore refused as malformed: `OutputText.SeparatorLosesTheTurn`; the
  exact condition is in `OutputText.RetainedTextIff`.
- A release switch whose first record write fails after reaching the disk is
  reported as an error although the record says `applying`; no link has moved,
  and the postconditions of `ReleaseSwitch.Host.Apply` say so.

## Model

| member | source | states |
|---|---|---|
| ControlProtocol.AtMostOneInterruptPerTurn | src/hermes_codex_router/codex_control_recovery.py:74-111 | Over every interleaving of any number of live, protective, drift, late and ingress observers, with crashes, contention, lost commits and retries, no two native interrupt calls ever name the same (thread, turn). |
| ControlProtocol.CallWindowIsFenced | src/hermes_codex_router/codex_control_recovery.py:84-111 | While a call is out and unanswered, its row is fenced by exactly that caller, has no outcome and is not quiesced, and a guarded client has not been closed. |
| ControlProtocol.QuiescedMeansAnsweredOrNeverSent | src/hermes_codex_router/codex_turn_controls.py:366-398 | A quiesced row has a fence; either that fence never produced a call or a call under it was answered with exactly the stored outcome, and no observer still holds the fence before or inside its call. |
| ControlProtocol.AuthorityIsPermanent | src/hermes_codex_router/schema_codex_turn_controls.py:62-75 | Along every run a fence keeps its owner, a matched outcome never changes and a quiescence time never moves. |
| ControlProtocol.StepKeepsInv | src/hermes_codex_router/codex_control_recovery.py:65-111 | Every single protocol step keeps the inductive invariant: one minted token per fence and per call, evidence for every stored outcome, an open send path from entering the scope until leaving it. |
| ControlProtocol.StepRetains | src/hermes_codex_router/schema_codex_turn_controls.py:49-78 | No step of a run deletes a row or makes a change that either update trigger would abort. |
| ControlRecovery.ControlObserver.ObserveAfterControlLoss | src/hermes_codex_router/codex_control_recovery.py:32-127 | The client code over the real rows and send path, guarded or not, by the owner-stop or the ingress route, with any steps of other observers before each of its effects: every effect is an enabled step of the protocol, whose invariant holds at the end; its tokens made a call exactly if it says so and never more than one, only with a proof at most five seconds old; what it returns is the first read, the second, or unknown, and it raises only contention of a reservation, without a call. Undisturbed, an authorized owner stop is fenced, called exactly in time and recorded with its answer, and the second read is returned. |
| ControlRecovery.ControlObserver.Reserve | src/hermes_codex_router/codex_control_authority.py:82-119 | A precaution first, or an owner stop seen before or after it, with the same proof: the run ends up holding a fence under one of its own unused tokens for exactly its job, or leaves the scope; contention is raised, before or after a commit, only when no fence is held; either way no call has been made. |
| ControlRecovery.IngressIsARoute | src/hermes_codex_router/codex_ingress_control.py:158-222 | Whatever the assessment decides, the ingress transaction reserves exactly as the protocol's ingress route. |
| ControlRecovery.ForeignCalls | src/hermes_codex_router/codex_control_recovery.py:74-111 | No step of another observer adds, answers or changes a call made under this run's tokens. |
| ControlRecovery.ControlObserver.SettleInterrupt | src/hermes_codex_router/codex_control_recovery.py:130-144 | The settlement retry loop repeats only the state write: whatever contention, faults, lost commits and foreign steps it meets, it adds no call and leaves the send scope still held. |
| ControlRecovery.ControlObserver.Send | src/hermes_codex_router/codex_control_recovery.py:85-107 | The call is made exactly when the budget and the proof are both fresh, and then exactly once; not_sent is the outcome exactly when it was not made; the reply recorded is that of its own call, whatever others do meanwhile. |
| ControlProtocol.PathKeepsInv | src/hermes_codex_router/codex_control_recovery.py:32-127 | Whatever sequence of steps an observer contributes, the protocol invariant at its start holds at its end. |
| InterruptAuthority.GrantedIffAuthorized | src/hermes_codex_router/codex_turn_controls.py:188-315 | A fence is granted if and only if every table still names the row's frozen turn, the proof is at most five seconds old with budget left, the job is held by exactly the given lease or read claim, and for the live and late sources the row's bound stop is pending and covers the job; then only that fence is written. |
| InterruptAuthority.PrecautionIffAuthorized | src/hermes_codex_router/codex_ingress_control.py:158-222 | A precaution is granted if and only if no pending stop covers the job, its assessment is due and the same authority stands before and after assessing; the row names source and assessment. |
| InterruptAuthority.CallsWereAuthorized | src/hermes_codex_router/codex_control_recovery.py:65-111 | In every run each call goes back to an earlier grant made while the whole authority of its turn stood, a pending stop asking for it if the source was the owner's. |
| InterruptAuthority.CallIffFresh | src/hermes_codex_router/codex_control_recovery.py:84-91 | The call is made exactly while budget is left and the proof is at most five seconds old, for the holder's own turn; otherwise the outcome is not_sent. |
| InterruptAuthority.SettlementQuiesces | src/hermes_codex_router/codex_turn_controls.py:366-398 | Settlement is refused exactly for a foreign token, an unproved quiescence or another matched outcome; with proof it records the outcome, quiesces the row once, and no scope gate counts its sender any more, while every other row's is as before. |
| InterruptAuthority.SettlersSettle | src/hermes_codex_router/codex_control_recovery.py:130-144 | Whoever holds an answer or a not_sent can always record it in a run: outcome and quiescence are written and the gate lets go. |
| TurnControls.BeginKeeps | src/hermes_codex_router/codex_turn_controls.py:188-315 | A reservation is granted only on an accepted, unfenced row whose stored turn is the proof's turn; it writes only that row's fence, with the token handed out, and passes checks and triggers. |
| TurnControls.FinishKeeps | src/hermes_codex_router/codex_turn_controls.py:366-398 | Settlement never writes a row the schema would refuse. |
| TurnControls.AcceptKeeps | src/hermes_codex_router/codex_turn_controls.py:400-493 | Acceptance keeps fresh (thread, turn) targets unique, adds at most the one unfenced row and changes nothing but stop bindings elsewhere. |
| TurnControls.BindKeeps | src/hermes_codex_router/codex_turn_controls.py:495-513 | Binding stops touches only the stop and the next read, and can only set the stop once and move the read later. |
| TurnControls.FirstCoveringCovers | src/hermes_codex_router/codex_turn_controls.py:495-513 | The stop a row is bound to covers it, is pending, and no covering stop was created earlier. |
| TurnControls.AllocateKeeps | src/hermes_codex_router/codex_turn_controls.py:119-150 | A granted read claim passes the schema's checks and triggers, so attempts never exceed three. |
| TurnControls.PreCheckOnlyDefers | src/hermes_codex_router/codex_turn_controls.py:68-118 | When the unlocked pre-check finds nothing, the locked pass would bind nothing for this agent and grant nothing. |
| ControlRules.BoundExactly | src/hermes_codex_router/codex_turn_controls.py:495-513 | Binding gives an unbound row the first pending stop that covers it and a next read no earlier than that stop; every other row stays as it is. |
| ControlRules.ClaimTakesTheLongestWaiting | src/hermes_codex_router/codex_turn_controls.py:68-118 | The claim takes, of this agent's abandoned, stopped and unfinished turns with a read left and due, the one waiting longest, the smaller job first; without one it claims nothing. |
| ControlRules.AllocatedIff | src/hermes_codex_router/codex_turn_controls.py:119-150 | A read is granted if and only if fewer than three were, its time has come and no claim is live; the claim lasts thirty seconds. |
| ControlRules.ReleasedIff | src/hermes_codex_router/codex_turn_controls.py:152-160 | Ending a read gives up exactly the claim with its own token. |
| ControlRules.AcceptedIff | src/hermes_codex_router/codex_turn_controls.py:400-493 | A turn gets its row if and only if it is its job's first, session, topic and checkpoint agree and nobody else has the turn; the frozen target is exactly theirs; a contradicted repeat is an error and any other adds nothing. |
| TurnControls.CodexTurnControls.BindCoveringStops | src/hermes_codex_router/codex_turn_controls.py:495-513 | The loop over pending stops equals binding every row to its first covering stop. |
| TurnControls.CodexTurnControls.PickDue | src/hermes_codex_router/codex_turn_controls.py:68-118 | Picks the due target with the earliest next read, ties by job, and None exactly when nothing is due. |
| TurnControls.CodexTurnControls.ClaimLateRead | src/hermes_codex_router/codex_turn_controls.py:68-150 | Claims the most overdue covered target with one more attempt and a thirty-second claim, or leaves every row as binding leaves it. |
| TurnControls.CodexTurnControls.BeginInterrupt | src/hermes_codex_router/codex_turn_controls.py:162-315 | The transaction as the method performs it equals the reservation the protocol uses; an error changes nothing. |
| TurnControls.CodexTurnControls.FinishInterrupt | src/hermes_codex_router/codex_turn_controls.py:366-398 | The transaction as the method performs it equals the settlement the protocol uses; an error changes nothing. |
| TurnControls.CodexTurnControls.Accept | src/hermes_codex_router/codex_turn_controls.py:400-493 | The transaction as the method performs it equals the acceptance the protocol uses; an error changes nothing. |
| LateReads.AtMostThreeSpacedReads | src/hermes_codex_router/codex_turn_controls.py:119-150 | Along every run, owner-stop and ingress claims together give one job at most three reads, each at least thirty seconds after the one before, whatever the wall clock does. |
| LateReads.RowsRememberClaims | src/hermes_codex_router/codex_ingress_control.py:224-265 | The row's attempt count and next-read time account for every claim ever granted, through every other step. |
| LateReads.StopClaimIsAPath | src/hermes_codex_router/codex_turn_controls.py:68-150 | The owner-stop claim transaction is a path of the protocol: binding, then one claim of the job it picked, or no claim. |
| LateReads.IngressClaimIsAPath | src/hermes_codex_router/codex_ingress_control.py:224-265 | The ingress claim transaction is such a path too, whatever its assessment decides, so the allowance covers both. |
| TurnControls.CodexTurnControls.FinishLateRead | src/hermes_codex_router/codex_turn_controls.py:152-160 | Ends a read only for the token that holds it, and changes nothing else. |
| SendPath.ClosesAtMostOnce | src/hermes_codex_router/codex_control_connection.py:10-45 | Over any sequence of close requests and send scopes the close callback fires at most once, never inside a send, and has fired exactly if a close was requested and no send is open. |
| SendPath.ControlSendPath.RequestClose | src/hermes_codex_router/codex_control_connection.py:18-26 | A request during a send is remembered and not carried out; otherwise it closes once. |
| SendPath.ControlSendPath.LeaveScope | src/hermes_codex_router/codex_control_connection.py:28-45 | Leaving a permitted send carries out a close requested meanwhile, once. |
| IngressReservation.IngressReserveKeeps | src/hermes_codex_router/codex_ingress_control.py:158-222 | An ingress fence is granted only without a covering pending stop, with a due assessment named in the row, on an unfenced accepted row. |
| ControlScope.SqlGateIffPythonClear | src/hermes_codex_router/codex_control_predicates.py:41-124 | For every table the schema admits, under three-valued logic, the SQL gate lets a topic's own scope through if and only if the Python form finds no owner for the topic without raising. |
| ControlScope.SqlAndPythonResolveAlike | src/hermes_codex_router/codex_control_predicates.py:63-124 | Both forms resolve every topic to the same root scope, or neither resolves it. |
| ControlScope.ResolvedIffTopicRoot | src/hermes_codex_router/codex_control_predicates.py:63-92 | A topic resolves to a root if and only if it is bound to that absolute root, or its project saved that root and no other. |
| ControlScope.GateAsksForOpenSenders | src/hermes_codex_router/codex_control_predicates.py:10-53 | A topic is owned if and only if a sender holds its root that neither quiesced nor had exactly its turn resolved by the owner; it is clear if and only if none is open at all or its root is known and none holds it. |
| IngressPolicy.AssessIngress | src/hermes_codex_router/codex_ingress_precaution_policy.py:109-188 | Raises exactly on unusable clocks or identities; otherwise a confirmed poll or an episode but not both, confirmations never lost, and a prior episode kept, replaced by a strictly earlier deadline, or cleared by a success at or after its recovery clock. |
| IngressPolicy.Classify | src/hermes_codex_router/codex_ingress_precaution_policy.py:166-188 | Coherent evidence is always classified, under the same promise. |
| IngressPolicy.ConfirmedIffHeard | src/hermes_codex_router/codex_ingress_precaution_policy.py:141-179 | Polling counts as confirmed if and only if valid evidence of the right group shows a heartbeat and a success within the minute, fewer than three failures, and a success not before the episode may end. |
| IngressPolicy.DeadlinesAreEarned | src/hermes_codex_router/codex_ingress_precaution_policy.py:154-188 | A new deadline is thirty seconds after a third failure in a row, or exactly two minutes after the later of acceptance and the moment a minute-old confirmation went stale. |
| IngressRules.AssessedExactly | src/hermes_codex_router/codex_ingress_precaution_policy.py:109-188 | The policy in full, with its times in numbers: confirmed while polls succeed unless an episode awaits a later success, which then stays; else the opening episode, or the prior one if its deadline is no later. |
| IngressRules.EvidenceIff | src/hermes_codex_router/codex_ingress_precaution_policy.py:53-84 | Evidence is coherent if and only if its clocks lie in order and at most five seconds ahead and a threshold stands exactly at three failures. |
| IngressRules.RowExactly | src/hermes_codex_router/codex_ingress_assessments.py:96-220 | The row an assessment writes: next revision, what was read and confirmed, and the cause carried over, or the policy's own with an earlier deadline; a generation begins exactly where a cause begins without a surviving one. |
| IngressRules.AssessedIff | src/hermes_codex_router/codex_ingress_assessments.py:96-146 | An assessment is refused if and only if a clock is ahead, the evidence is not coherent, or the retained row is no longer borne out by it. |
| IngressRules.ResultIsThePolicys | src/hermes_codex_router/codex_ingress_assessments.py:130-191 | An assessment answers what the policy does of the ledger as it stands, the carried episode and the ledger's confirmation; only a carried cause the policy would clear stays, unconfirmed. |
| IngressAssessments.AssessmentPassesTheFence | src/hermes_codex_router/schema_ingress_assessments.py:83-141 | Every assessment the code writes meets the table checks and the update trigger, and the row stores exactly the episode returned. |
| IngressAssessments.EpisodeDroppedIffRecovered | src/hermes_codex_router/codex_ingress_assessments.py:56-65 | A retained episode is dropped or replaced by a new generation if and only if a poll success strictly above its cutoff (any, without one) and not before its recovery clock is on record. |
| IngressAssessments.DeadlineNeverRelaxes | src/hermes_codex_router/codex_ingress_assessments.py:147-191 | Over any sequence of assessments of one job, failed ones included, the generation never falls and within one generation the deadline never moves later. |
| IngressAssessments.SelectionIsSound | src/hermes_codex_router/codex_ingress_assessments.py:147-184 | The cause selected between the surviving episode and the witnessed failure always passes the policy's input checks, and a survivor is displaced only by a strictly earlier deadline. |
| IngressAssessments.AssessmentsAreNeverRefused | src/hermes_codex_router/codex_ingress_assessments.py:96-191 | Under a nondecreasing clock, after any interleaving of controller restarts, polls and assessments, from before or after the turn was accepted, the next assessment is refused if and only if the acceptance lies in the future beyond the tolerated skew. |
| IngressAssessments.StoreFollows | src/hermes_codex_router/codex_ingress_assessments.py:96-191 | Along every such history the assessment row never runs ahead of the ledger or of the clock, and both stay acceptable to their readers. |
| IngressLedger.LedgerStaysReadable | src/hermes_codex_router/telegram_ingress_ledger.py:95-255 | However controllers restart, lose ownership, skip or repeat samples, the retained ledger and watermarks stay acceptable to every reader. |
| IngressLedger.SampleKeepsSealed | src/hermes_codex_router/telegram_ingress_watermarks.py:89-138 | A recorded sample advances the ledger and moves the watermarks only as their update trigger allows. |
| IngressLedger.SampleRefusedOnlyByItself | src/hermes_codex_router/telegram_ingress_ledger.py:142-217 | A sample by the current owner is refused only for its own clock, sequence or conflicting repeat, never for evidence the ledger wrote earlier. |
| IngressRules.LedgerTellsItsSamples | src/hermes_codex_router/telegram_ingress_ledger.py:95-217 | Along every history of startups and samples the ledger tells exactly its last sample, last success, the failures in a row since, and when their third was seen. |
| IngressRules.StartupIff | src/hermes_codex_router/telegram_ingress_ledger.py:95-140 | A startup takes over if and only if it read the current epoch and its clock is not behind; it begins without samples and keeps the confirmation and the marks. |
| IngressRules.SampleTakenIff | src/hermes_codex_router/telegram_ingress_ledger.py:142-217 | Only the owner of the current epoch writes a sample, forwards in sequence and time, on coherent evidence; an exact repeat changes nothing. |
| IngressRules.MarkedExactly | src/hermes_codex_router/telegram_ingress_watermarks.py:89-138 | A success is marked and clears the failure; otherwise the first sample that sees a threshold marks it and no later one moves it. |
| IngressControl.IngressFenceHasProvenance | src/hermes_codex_router/schema_ingress_control.py:29-44 | A precaution fences only beside no pending stop, on a row unfenced before, and exactly with the provenance the first-send trigger demands: this transaction's own assessment, unconfirmed and past its deadline. |
| IngressControl.IngressReadIsDue | src/hermes_codex_router/codex_ingress_control.py:224-265 | A granted ingress read is indeterminate work without a covering stop whose assessment, made now, is past its deadline. |
| IngressGrants.FencedIff | src/hermes_codex_router/codex_ingress_control.py:158-222 | A precaution is granted if and only if its target's assessment made now is overdue, no stop is pending and the authority stands before and after; the assessment is kept whenever it was made. |
| IngressGrants.ReadIff | src/hermes_codex_router/codex_ingress_control.py:224-265 | An ingress read is granted if and only if the abandoned turn is a target whose tables stand, no stop is pending, its assessment made now is overdue and the shared allowance grants it. |
| IngressControl.CodexIngressControl.BeginInterrupt | src/hermes_codex_router/codex_ingress_control.py:158-222 | The transaction as the method performs it over both tables equals its specification; an error rolls both back. |
| IngressControl.CodexIngressControl.ClaimRead | src/hermes_codex_router/codex_ingress_control.py:224-265 | The transaction as the method performs it over both tables equals its specification; an error rolls both back. |
| CorrectionState.ChangesPassTheSchema | src/hermes_codex_router/schema_claude_corrections.py:4-50 | None of the six transactions writes a run or child row the schema would abort: no rebinding, receipts and validation permanent, results counted one by one up to two. |
| CorrectionState.SettledExactlyOnce | src/hermes_codex_router/claude_correction_state.py:260-300 | A claimed correction is settled once: its lease is gone, completed only after a validated and saved parent completion, every later settlement fails, and no other job changes. |
| CorrectionState.ClaimedJobExecutes | src/hermes_codex_router/claude_correction_state.py:96-185 | A frame is handed out if and only if the parent still owns its run and the head may join it; then the head's job, queued before, executes under the child's new lease until the parent's expiry, one attempt later, and no other job changes. |
| CorrectionState.HeldChildSettles | src/hermes_codex_router/claude_correction_state.py:260-300 | A child settles if and only if its job executes under its lease and, to complete, its run is validated and saved; it ends completed, cancelled with its parent, or indeterminate, without a lease. |
| CorrectionState.EveryChildCanSettle | src/hermes_codex_router/claude_correction_state.py:96-300 | After any sequence of transactions every unsettled child executes under its own lease and can be cancelled, left uncertain, or completed once validated and saved; a settled one never settles again. |
| CorrectionState.PreparedIff | src/hermes_codex_router/claude_correction_state.py:86-94 | A run is prepared if and only if the owner is bound to this session and root, the text says something and neither parent nor input has one; it starts with nothing received. |
| CorrectionState.ValidatedIff | src/hermes_codex_router/claude_correction_state.py:226-248 | A run is marked validated if and only if its input was received, it has a result and its child, if any, was received before the last. |
| CorrectionState.ClaudeCorrectionState.ClaimHead | src/hermes_codex_router/claude_correction_state.py:96-185 | The claim with its own query: only the first blocking successor in the topic's queue can become this parent's child, an ineligible one lets nothing past it, and the child then executes under a new lease. |
| CorrectionState.HeadIff | src/hermes_codex_router/claude_correction_state.py:116-121 | The head is the job that comes first of those after the parent in its topic that keep others waiting. |
| CorrectionState.ClaudeCorrectionState.Claim | src/hermes_codex_router/claude_correction_state.py:116-185 | Given the head of the queue, the claim as the method performs it equals its specification; a refusal changes nothing. |
| CorrectionState.ClaudeCorrectionState.Receipt | src/hermes_codex_router/claude_correction_state.py:187-215 | The receipt transaction as the method performs it equals its specification; a refusal changes nothing. |
| CorrectionState.ClaudeCorrectionState.ValidateCompletion | src/hermes_codex_router/claude_correction_state.py:226-248 | Validation as the method performs it: it marks a confirmed run, refuses an unconfirmed one without any change, and passes where there is no run. |
| CorrectionState.ClaudeCorrectionState.Settle | src/hermes_codex_router/claude_correction_state.py:260-300 | The settlement as the method performs it equals its specification; a refusal changes nothing. |
| Corrections.ObserveSimulated | src/hermes_codex_router/claude_corrections.py:104-180 | Forward simulation: whatever receipt or result the memory machine accepts, a bound journal accepts with the same boundary, and the two still agree. |
| Corrections.PollSimulated | src/hermes_codex_router/claude_corrections.py:86-102 | A child the journal reserves is always one the memory machine takes, and they still agree; a closed admission changes nothing durable. |
| Corrections.PrepareAgrees | src/hermes_codex_router/claude_correction_state.py:86-94 | Preparation puts memory and journal in agreement. |
| Corrections.CompleteIffConfirmed | src/hermes_codex_router/claude_correction_state.py:226-248 | In every agreeing state memory is complete if and only if the journal would validate completion. |
| Corrections.JournalFollowsMemory | src/hermes_codex_router/claude_corrections.py:86-180 | Over whole launches with an unbroken owner binding: the journal never refuses what memory accepted, and every live launch is complete exactly when the journal would validate it. |
| Corrections.JoinIsLossless | src/hermes_codex_router/claude_corrections.py:158-180 | Two results are joined so that both texts are recoverable at known offsets, within the visible limit, with every other field of the second event kept. |
| CorrectionRules.ReceivedInOrder | src/hermes_codex_router/claude_corrections.py:124-142 | A replay is taken if and only if it is exactly that of the first input not yet received, before completion; it is sealed at the next boundary. |
| CorrectionRules.LifecycleTakenIff | src/hermes_codex_router/claude_corrections.py:106-123 | A lifecycle event is taken if and only if it is the next state of an input sent, in this session, with exactly its fields. |
| CorrectionRules.LifecyclesAreOrdered | src/hermes_codex_router/claude_corrections.py:106-123 | Along every launch each input is queued, started and completed at most once, in that order. |
| CorrectionRules.OtherUserTakenIff | src/hermes_codex_router/claude_corrections.py:143-155 | Any other user event is taken if and only if it carries native tool results only. |
| CorrectionRules.ResultTakenIff | src/hermes_codex_router/claude_corrections.py:156-170 | A result is taken if and only if the first input was received at the first boundary and, for a second one, an input between them; it closes the launch, and completes it exactly if every input is received and answered. |
| CorrectionRules.ResultKeptIff | src/hermes_codex_router/claude_corrections.py:169-180 | A completing result is kept alone or as both texts, if none failed beside a correction and the texts fit; any other is dropped. |
| CorrectionRules.CorrectionTakenIff | src/hermes_codex_router/claude_corrections.py:86-102 | A polled correction is taken if and only if it is new, of this session, and its text neither blank nor too long. |
| CorrectionRules.AskedIff | src/hermes_codex_router/claude_corrections.py:86-102 | The journal is asked exactly while the launch is open with one input; without a reserved frame it closes to corrections, with one it takes frame and reservation. |
| CorrectionRules.JournalSealsInOrder | src/hermes_codex_router/claude_correction_state.py:187-215 | In every agreeing state the journal seals exactly the receipt memory expects next, for a bound owner. |
| Corrections.ClaudeCorrectionInput.Observe | src/hermes_codex_router/claude_corrections.py:104-180 | The method writes through to its own journal: memory, journal and verdict are those of the simulation, including the memory left by a failed write. |
| Corrections.ClaudeCorrectionInput.Poll | src/hermes_codex_router/claude_corrections.py:86-102 | The method asks at most while open with one frame, and its result is the simulated one. |
| ClaudeStream.ProjectionKeepsTheVerdict | src/hermes_codex_router/claude_stream.py:324-361 | For every event list the evidence reader accepts, with the text-only or a file-tool policy, parsing only the events of the retained projection gives the same text, session and model, or the same failure code, or the same refusal, as parsing the full list; event and byte limits included. |
| ClaudeStream.AcceptedStreamsParse | src/hermes_codex_router/claude_stream.py:482-546 | An accepted stream is refused by the parser exactly when it has no result, or its successful result met a nonzero exit code. |
| ClaudeStream.ProjectionPassesPolicies | src/hermes_codex_router/claude_file_policy.py:204-323 | An accepted stream's projection passes a fresh event policy of its mode although it dropped the tool blocks that opened its Bash calls. |
| ClaudeStream.StrippedStaysText | src/hermes_codex_router/claude_stream.py:72-126 | A retained event stripped to its evidence is text-only. |
| ClaudeStream.StrippedStaysAllowed | src/hermes_codex_router/claude_file_policy.py:275-323 | Stripping an allowed event to its retained fields leaves it allowed. |
| StreamVerdict.VerdictIff | src/hermes_codex_router/claude_stream.py:482-546 | A verdict is given if and only if the stream keeps limits and policy and ends with one result of its own session that fails, or completes a process that succeeded; then text, model and code are those of that result and of the last messages that say them. |
| StreamVerdict.TerminalIff | src/hermes_codex_router/claude_stream.py:438-479 | A result counts as completed, or as failed, if and only if it has exactly that shape and a session id. |
| StreamVerdict.FailureCodes | src/hermes_codex_router/claude_stream.py:374-401 | Each failure code from the result's subtype, its status, or the assistant's error, in that order. |
| StreamVerdict.ParsedStreamsAreAccepted | src/hermes_codex_router/claude_stream.py:224-275 | Whatever the parser takes the reader takes too, as long as what it retains fits. |
| StreamVerdict.RetainedExactly | src/hermes_codex_router/claude_stream.py:324-361 | Exactly answers, results, suggestions and initialisations are retained, with eleven fields, the model and the texts of their text blocks. |
| StreamPolicies.TextOnlyIff | src/hermes_codex_router/claude_stream.py:72-126 | Without an event policy an event passes if and only if it shows none of the signs of acting, hooks, equipment, child agents or tools. |
| StreamPolicies.FileEventIff | src/hermes_codex_router/claude_file_policy.py:204-323 | A file-tool event passes if and only if it shows no sign, or is the exact heartbeat of a running Bash call. |
| StreamPolicies.ActiveIffRunning | src/hermes_codex_router/claude_file_policy.py:210-239 | Along every accepted stream the tracked calls are exactly the Bash calls an assistant started and no user event has answered since. |
| StreamPolicies.ChildIsAHeartbeat | src/hermes_codex_router/claude_file_policy.py:241-273 | The only event with a parent that a Bash stream may hold is a heartbeat of a call running there. |
| ClaudeStream.ParseEvents | src/hermes_codex_router/claude_stream.py:496-546 | What the parser does with the events of its lines, with its own loops, gives the verdict the projection theorem speaks of, in every mode and with its event and byte limits. |
| OutputText.ParseClaudeStream | src/hermes_codex_router/claude_stream.py:482-546 | The parser over the output text, its lines split as splitlines does: byte bound, blank lines skipped, an unreadable line refused, then the verdict of the events. |
| OutputText.ObjectLinesParse | src/hermes_codex_router/claude_stream.py:496-505 | For any output of one object a line, raw or written again: the text gives the verdict of its events exactly while no line holds another line end inside, and is refused otherwise. |
| OutputText.RetainedTextIff | src/hermes_codex_router/claude_stream.py:269-275 | For every accepted stream, in every mode, the parse of the retained text is the verdict of the full event list if and only if no retained string holds U+0085, U+2028 or U+2029, or the full list had no verdict; with such a string the parse refuses. |
| OutputText.SeparatorLosesTheTurn | src/hermes_codex_router/claude_stream.py:496-505 | An accepted and completed turn whose answer holds U+2028 is refused by the parse of its own retained text. |
| OutputText.OutputIsWritten | src/hermes_codex_router/claude_stream.py:269-275 | The bytes the reader counts are those of the text it writes. |
| StreamReader.ChunkingIsInvisible | src/hermes_codex_router/claude_stream.py:162-200 | For every handler and every byte stream, any two ways of cutting it into chunks are accepted or refused alike, with identical retained output, counters and handled lines. |
| StreamReader.ChunksFeedAlike | src/hermes_codex_router/claude_stream.py:162-187 | Feeding chunks one by one equals one feed of their concatenation, from every state between feeds. |
| StreamReader.AcceptedBytesKeepTheVerdict | src/hermes_codex_router/claude_stream.py:162-275 | End to end over bytes, in every mode: however an accepted stream was cut, parsing what the reader kept gives the verdict of parsing every event it saw, each under its own byte limit. |
| StreamLines.AcceptedIffLinesAre | src/hermes_codex_router/claude_stream.py:162-200 | However it was cut, output is accepted if and only if it fits the stream's limit and a reader of its whole lines, each within its limit, takes them all, and with that reader's result. |
| CorrectedStream.RetainedStreamGivesTheJoinedText | src/hermes_codex_router/claude_stream.py:224-275 | For every run of observed events and polls, corrected or not, that is accepted and complete: parsing what the reader retained gives exactly the joined text of its results, or the failure of its only result; dropped receipts, lifecycle events and intermediate results change nothing. |
| CorrectedStream.CorrectedRunsComplete | src/hermes_codex_router/claude_corrections.py:86-180 | For every admissible correction and every two nonblank results within the visible limit, the run that polls it, confirms both inputs and answers both is accepted, and the parse gives both texts joined. |
| CorrectedStream.SeenIff | src/hermes_codex_router/claude_stream.py:224-275 | An event is taken if and only if policy, session, count and size allow it, a result does not contradict itself, memory observes it, and after the terminal it is a suggestion or a dropped lifecycle event; and what the reader then holds. |
| CorrectedStream.TakeKeeps | src/hermes_codex_router/claude_corrections.py:86-180 | One event or poll leaves the retained events an accepted stream of their own, with the joined result as their terminal exactly when the launch is complete. |
| CorrectedLaunch.AcceptedLaunchGivesTheJoinedText | src/hermes_codex_router/external_runtime.py:937-986 | End to end over bytes, questions and the durable journal: a prepared launch whose parent stays bound and that is accepted has the joined text as the parse of what it retained and a journal that validates its completion, and its outcome is the same however the output between two questions was cut. |
| CorrectedLaunch.AcceptedLaunchIsTold | src/hermes_codex_router/external_runtime.py:1016-1087 | What the worker is told of an accepted launch, from bytes to text: the joined text or the only result's failure if no retained string holds one of the three separators, a refusal otherwise. |
| CorrectedLaunch.SeeEventKeeps | src/hermes_codex_router/claude_corrections.py:104-180 | A bound journal accepts every write an event needs: an event is taken exactly if the stream and the memory machine take it, and reader, memory and journal still agree. |
| CorrectedLaunch.DoKeeps | src/hermes_codex_router/external_runtime.py:937-986 | No question of a bound launch fails, and output or a question keeps reader, memory and journal in agreement between any two steps. |
| CorrectedStream.SeeKeepsShadow | src/hermes_codex_router/claude_stream.py:224-275 | A plain reader of the retained events alone stands, after every event, where the corrected reader does: same policy, output and terminal, no more events, no other session. |
| CorrectedStream.SeeKeepsTerminal | src/hermes_codex_router/claude_corrections.py:156-180 | The terminal is seen exactly when the launch is complete, and the retained events then have the joined result as their one terminal. |
| StreamReader.ClaudeStreamReader.Feed | src/hermes_codex_router/claude_stream.py:162-187 | The line loop over the pending buffer equals draining the bytes it was given. |
| StreamReader.ClaudeStreamReader.Finish | src/hermes_codex_router/claude_stream.py:189-200 | The last unterminated line is handled like any other. |
| LiveSteering.EachFollowUpSentAtMostOnce | src/hermes_codex_router/codex_live_control.py:408-523 | Under any contention, failures, lost commits, stops and writes by other parties to the leased rows, ending with shutdown: one native call per lease at most, one committed settlement per lease; reject or release only if never sent or explicitly rejected, complete only if the call returned, unknown only if it was sent and not rejected. |
| LiveSteering.NoLeaseAfterRejection | src/hermes_codex_router/codex_live_control.py:158-162 | After a rejected or failed call or a deferred failure the observer never leases another follow-up. |
| LiveSteering.UndisturbedPollSettles | src/hermes_codex_router/codex_live_control.py:408-523 | A follow-up leased by an undisturbed poll is started, sent exactly if there is a client and no stop, and settled in that poll as its call calls for: completed exactly if it returned. |
| LiveSteering.FailedWriteIsDeferred | src/hermes_codex_router/codex_live_control.py:464-482 | A pending write that fails or finds its row moved on is deferred as a failure; a completion is then left uncertain, any other write given up, and nothing is sent again. |
| LiveSteering.LostCommitIsRetried | src/hermes_codex_router/codex_live_control.py:464-482 | A commit whose loss looks like contention keeps its settlement and is tried again on a row that is over. |
| LiveSteering.ShutdownGivesBack | src/hermes_codex_router/codex_live_control.py:428-448 | Shutdown releases what was not started and settles anything else as it stands. |
| LiveSteering.PollKeeps | src/hermes_codex_router/codex_live_control.py:204-264 | One poll of the loop keeps the invariant that ties every pending write to what is known of its call. |
| LiveSteering.CodexLiveSteering.SettlePending | src/hermes_codex_router/codex_live_control.py:428-484 | The settlement as the method performs it on the observer's fields and the durable row of its lease. |
| LiveSteering.CommittedKeeps | src/hermes_codex_router/state_provider_jobs.py:968-1050 | A committed write moves a row once: a lease that is over is never settled again. |
| LiveSteering.InterferedKeeps | src/hermes_codex_router/state_provider_jobs.py:639-653 | Whatever other parties write to leased rows between two writes of the observer, short of reviving an ended lease, the invariant on pending writes, calls and settlements is kept. |
| LiveSteering.CodexLiveSteering.PollState | src/hermes_codex_router/codex_live_control.py:408-426 | One poll as the method performs it on the observer's fields. |
| ReleaseManifest.ValidateManifest | scripts/stack.py:105-189 | The set-growing loops accept exactly the well-formed manifests: distinct ids, links and units, groups and components covering each other, release directories apart from each other, from the state directory and from every link. |
| ReleaseManifest.ValidateComponents | scripts/stack.py:142-171 | Accepts exactly when components are distinct in id and link, every group exists and every group is used. |
| ReleaseSwitch.Host.Activate | scripts/stack.py:435-450 | Whatever raises or dies on either side of any effect, every link is at its plan's before or after, no other link moves, and what was done is a beginning of the groups' steps in order; if it finishes, all of them were done, every link is at the wanted side and none of the plan's groups is stopped. |
| ReleaseSwitch.Host.Rollback | scripts/stack.py:453-472 | From any record of the plan, finishing means every link is back at its before and the record says so; otherwise the record still tells the truth about the links; finishing means its gates, record, every group in reverse and record again, with services up. |
| ReleaseSwitch.Host.Apply | scripts/stack.py:475-511 | An unfinished record refuses without any change; refusals move no link and stop no group; success means gates, record, every group's steps and record again, in that order, with links at the new release and services up; without faults a confirmable apply succeeds; it gives no result only if it died or failed at its very last attempt, after which nothing is tried; in every other case either nothing happened or the record names a plan whose before is where the links were. |
| ReleaseSwitch.Host.SwitchGroup | scripts/stack.py:435-450 | One group: stop in reverse, its links in entry order, start, health gates; whatever fails, what happened is a beginning of exactly that, and no other group is stopped or started. |
| ReleaseSwitch.Host.Confirm | scripts/stack.py:475-499 | Nothing is written unless the links still give the confirmed plan, something moves, and the gates of the old, the new and again the old release passed, in that order. |
| ReleaseSwitch.Host.ApplyThenRecover | scripts/stack.py:453-511 | However an apply ended or died, a rollback that then finishes restores the whole link map. |
| ReleaseSwitch.Host.Operate | scripts/stack.py:453-511 | Over any sequence of applies and rollbacks, each able to die anywhere, an applied record means all links are at after and a rolled-back record all at before. |
| ReleaseSwitch.EveryGroupEveryEntry | scripts/stack.py:435-450 | Moving group by group in either order reaches every component. |
| ReleaseSwitch.FlipLocal | scripts/stack.py:411-420 | Flipping one entry's link moves no other entry. |
| ReleaseSwitch.RestoredLinks | scripts/stack.py:335-351 | Links at the before of a plan built on an earlier map are that earlier map. |
| PermissionHost.AllowWasCommittedOnce | src/hermes_codex_router/claude_permission_host.py:253-302 | A native allow was earned: exactly one commit of its request exists, earlier, it moved a pending unexpired row of an active and still bound launch, for the same tool and input, and the row says allow for ever. |
| PermissionHost.AnswerIsTheHumans | src/hermes_codex_router/claude_permission_host.py:194-217 | Over every run a commit carries the answer heard for exactly that hook: a denial denies the row for ever and no allow of it is ever sent; any consent, or a grant without a question, allows it. |
| PermissionHost.NoAllowAfterDenial | src/hermes_codex_router/claude_permission_host.py:253-302 | No hook is answered with an allow after a human denied it. |
| PermissionHost.CommittedAnswerIsGiven | src/hermes_codex_router/claude_permission_host.py:209-217 | A committed consent or unasked grant is answered with an allow and a denial with a deny; consent until restart only once the cache holds it. |
| PermissionRules.GrantedOnArrivalIff | src/hermes_codex_router/claude_permission_host.py:161-179 | A hook is granted unasked if and only if it is a workstation's Bash, or a developer's whose scope and epoch are remembered. |
| PermissionRules.AskedIffNotGranted | src/hermes_codex_router/claude_permission_host.py:180-193 | Whoever was granted is not asked and everybody else is. |
| PermissionRules.FailedHookIsDenied | src/hermes_codex_router/claude_permission_host.py:270-283 | A failed hook has its pending request revoked, where that can be written, and is answered with a deny. |
| PermissionHost.UnaskedAllowIsGrantedBash | src/hermes_codex_router/claude_permission_host.py:153-217 | An allow without a fresh answer is a workstation's Bash, or a developer's Bash for which a human decision to allow until restart was committed earlier for the same root, session, generation, lease owner and tlive epoch. |
| PermissionHost.ClosedLaunchGainsNothing | src/hermes_codex_router/claude_permissions_journal.py:282-292 | Once a launch is closed, no run leaves it a pending request, adds one or changes any of its decisions. |
| PermissionHost.StepKeepsInv | src/hermes_codex_router/claude_permission_host.py:113-217 | Every interleaved step of hooks, restarts and launch changes keeps: consent in the cache has a committed human origin, a committed decision stands, one commit per nonce. |
| PermissionJournal.ClosedIsFinal | src/hermes_codex_router/claude_permissions_journal.py:165-180 | A closed launch never again has a pending request and its rows are frozen. |
| PermissionJournal.OpenKeeps | src/hermes_codex_router/claude_permissions_journal.py:72-88 | An opened launch is the only one of its job and is current. |
| PermissionJournal.PrepareKeeps | src/hermes_codex_router/claude_permissions_journal.py:182-247 | A prepared request is new, belongs to an active launch and keeps the launch within 128 requests. |
| PermissionJournal.ConsumeKeeps | src/hermes_codex_router/claude_permissions_journal.py:249-270 | Consuming settles one pending row and rewrites nothing else. |
| PermissionRules.OpenedIff | src/hermes_codex_router/claude_permissions_journal.py:72-88 | A launch opens if and only if its job is unfinished, begun, unstopped and never had one; it is bound to what holds then. |
| PermissionRules.PreparedIff | src/hermes_codex_router/claude_permissions_journal.py:182-247 | A request is recorded if and only if the tool is the profile's, the deadline within a week, the launch current with fewer than 128 requests and the nonce new; the row is exactly the payload's. |
| PermissionRules.ConsumedIff | src/hermes_codex_router/claude_permissions_journal.py:249-270 | A decision is taken if and only if the launch is current and the row of this very payload pending and unexpired; only its status changes. |
| PermissionRules.ClosedExactly | src/hermes_codex_router/claude_permissions_journal.py:282-292 | Closing revokes exactly what is pending in that launch. |
| PermissionJournal.ClaudePermissionJournal.Consume | src/hermes_codex_router/claude_permissions_journal.py:249-270 | Succeeds exactly on a pending, unexpired row with the very payload, under a current launch; otherwise nothing changes. |
| PermissionJournal.ClaudePermissionJournal.RevokeRequest | src/hermes_codex_router/claude_permissions_journal.py:272-280 | Revokes a pending request of the launch and never a consumed one. |
| PermissionJournal.ClaudePermissionJournal.CloseLaunch | src/hermes_codex_router/claude_permissions_journal.py:282-292 | Closes the launch and revokes exactly its pending requests. |
| BashGrants.OnlyStandingGrants | src/hermes_codex_router/claude_bash_grants.py:17-30 | Over any sequence of uses, the cache allows a scope only under the epoch it was last remembered with, with no look under another epoch since. |
| BashGrants.CacheStaysBounded | src/hermes_codex_router/claude_bash_grants.py:25-30 | At most 256 grants, one per scope. |
| PermissionRules.LookedExactly | src/hermes_codex_router/claude_bash_grants.py:17-23 | A look hits if and only if scope and epoch are remembered; a consent of another epoch is forgotten. |
| PermissionRules.RememberedExactly | src/hermes_codex_router/claude_bash_grants.py:25-30 | A consent replaces its scope's earlier one and stands last; only a 257th displaces the oldest. |
| BashGrants.BashGrantCache.Grant | src/hermes_codex_router/claude_bash_grants.py:25-30 | The new grant is last and present; the oldest are evicted. |
| BashGrants.BashGrantCache.Allows | src/hermes_codex_router/claude_bash_grants.py:17-23 | Allows exactly a grant of this scope and epoch; any other epoch's grant of the scope is forgotten. |
| PermissionWait.NeverRisesIffSettled | src/hermes_codex_router/claude_permission_wait.py:59-68 | Exactly when a reported remainder bounds the positive part of every later one: no time passed between the two clock readings of the call, or none of that time can still count. |
| PermissionWait.SettledNeverRises | src/hermes_codex_router/claude_permission_wait.py:59-71 | After such a reading, over any waits, calls and stops, the positive part never increases and an expired deadline stays expired. |
| PermissionWait.UnsettledCanRise | src/hermes_codex_router/claude_permission_wait.py:59-68 | Otherwise the very next call can report more. |
| PermissionWait.ExpiredCanRevive | src/hermes_codex_router/claude_permission_wait.py:59-68 | A ten-second launch, from its constructor, whose deadline is seen expired and then reports one second: the clock moved inside the call that saw it expired. |
| PermissionWait.LifetimeIsBounded | src/hermes_codex_router/claude_permission_wait.py:44-71 | A launch is never alive past its seconds plus seven days, nor past its seconds plus the waits it really had, nor past its seconds without a wait clock. |
| PermissionWait.WaitingCostsNothing | src/hermes_codex_router/claude_permission_wait.py:59-68 | Below the week, before any stop and with simultaneous readings, an open wait leaves the remainder unchanged. |
| PermissionWait.WaitsAreReal | src/hermes_codex_router/claude_permission_wait.py:15-41 | Waiting time grows, and no faster than the clock. |
| PermissionWait.PermissionWaitClock.BeginWaiting | src/hermes_codex_router/claude_permission_wait.py:24-30 | A second wait is refused and changes nothing. |
| PermissionWait.PermissionWaitClock.EndWaiting | src/hermes_codex_router/claude_permission_wait.py:31-36 | Ending a wait adds exactly its length. |
| PermissionWait.ProductiveDeadline.TimeLeft | src/hermes_codex_router/claude_permission_wait.py:59-68 | The remainder computed from the two readings, with the credit clamped between zero and seven days and the stop deadline applied. |
| PermissionWait.ProductiveDeadline.Stop | src/hermes_codex_router/claude_permission_wait.py:70-71 | The stop deadline is set from the reading before and the remainder after, never into the past of the first reading. |
| PermissionWait.StopHolds | src/hermes_codex_router/claude_permission_wait.py:70-71 | A stop leaves the seconds given or what was left if less, and no later wait stretches it. |
| Inbox.DeliveredThenQueuedIsAccepted | src/hermes_codex_router/codex_inbox.py:54-98 | In every run with any number of threads, delivered frames then queued frames are the accepted sequence, the byte count is the true sum, and both bounds hold. |
| Inbox.FirstTerminalWins | src/hermes_codex_router/codex_inbox.py:67-98 | After a terminal error nothing more is accepted, the first error stays, and it is raised exactly when everything accepted has been delivered. |
| Inbox.NoWakeUpIsLost | src/hermes_codex_router/codex_transports.py:340-364 | A WebSocket receiver asleep with its event clear, no wake queued and no callback owed has a frame that does not fit; then a frame is queued and no consumer is parked. |
| Inbox.NoMutualBlocking | src/hermes_codex_router/codex_inbox.py:76-98 | A blocked producer and a blocked consumer never coexist, and nobody stays parked after the terminal error. |
| Inbox.FullMeansNonempty | src/hermes_codex_router/codex_inbox.py:54-65 | A producer turned away for capacity always leaves a frame to take. |
| Inbox.BoundedInbox.TryPut | src/hermes_codex_router/codex_inbox.py:54-65 | The method's result and new contents, refusals included. |
| Inbox.BoundedInbox.Take | src/hermes_codex_router/codex_inbox.py:81-98 | One look of the waiting loop: the oldest frame, else the terminal error, else wait. |
| Inbox.BoundedInbox.Create | src/hermes_codex_router/codex_inbox.py:18-27 | Refuses exactly the unusable bounds. |
| InboxRules.OfferedIff | src/hermes_codex_router/codex_inbox.py:54-65 | A frame is taken if and only if its size is within bounds, the inbox is open and frames and bytes leave room; a refusal names its reason and changes nothing. |
| InboxRules.TakenIff | src/hermes_codex_router/codex_inbox.py:82-98 | The oldest frame comes out first, and the end is told only once no frame is left. |
| InboxRules.ProducerSteps | src/hermes_codex_router/codex_inbox.py:76-81 | A producer waits exactly when there is no room; an accepted frame lets everybody look again. |
| InboxRules.ConsumerSteps | src/hermes_codex_router/codex_inbox.py:82-98 | A consumer waits exactly at an open empty inbox; taking a frame lets everybody look again and owes the receiver a wake. |
| InboxRules.ReceiverSteps | src/hermes_codex_router/codex_transports.py:340-364 | The receiver clears its event before every attempt, sleeps exactly when there is no room, wakes only on the event, and finishes the inbox with a frame it cannot place. |
| TurnCollector.SplitIsInvisible | src/hermes_codex_router/codex_appserver.py:519-545 | For every position of the turn/start reply, filtering and buffering what came before and then draining and receiving equals one fold over the whole unfiltered receive order. |
| TurnCollector.DroppedIsIgnored | src/hermes_codex_router/codex_notifications.py:6-41 | Whatever the filter drops, with or without the turn id, the wait would have ignored. |
| TurnCollector.RetainIff | src/hermes_codex_router/codex_notifications.py:6-41 | Buffered are exactly the four kinds of notification of this thread or of none that name a turn, items only if they are agent messages. |
| TurnCollector.ReadingIff | src/hermes_codex_router/codex_appserver.py:519-545 | A reply accepts the turn exactly if it reports no error and names the turn; otherwise it says what is missing. |
| TurnCollector.CodexAppServerClient.StartTurn | src/hermes_codex_router/codex_appserver.py:457-545 | On a reply the buffer is exactly the filtered messages before it; the buffer error is raised exactly at the 1025th retained message; drift is remembered. |
| TurnCollector.CodexAppServerClient.WaitForTurn | src/hermes_codex_router/codex_appserver.py:956-1108 | Buffer first, then transport: the loop's outcome is the fold over both, or drift at once. |
| TurnCollector.CodexAppServerClient.RunTurn | src/hermes_codex_router/codex_appserver.py:828-1108 | For every receive order, a whole turn's text, counts, callbacks, raising or not, and verdict are those of one pass over everything received, or drift if a settings notification before the reply reported it; a completed turn returns the answer of everything received before its end. |
| TurnCollector.UsageIsTheLatest | src/hermes_codex_router/codex_appserver.py:1024-1033 | Token counts of a running turn are the last integers reported for exactly this thread and turn. |
| TurnCollector.ItemsAreShownOnce | src/hermes_codex_router/codex_appserver.py:1034-1053 | Each native item is collected and shown at most once, and only nonblank text that was collected is shown. |
| TurnCollector.CollectsFirstSeen | src/hermes_codex_router/codex_appserver.py:1034-1053 | While a turn runs it has collected exactly its first-seen agent messages in receive order, each with its own text and phase, and shown exactly those with an id and visible text. |
| TurnCollector.CompletedAnswer | src/hermes_codex_router/codex_appserver.py:1054-1094 | A turn completes only at its own end, and its answer is then the first-seen final answers in receive order, or else what had no phase, joined by blank lines and stripped. |
| TurnCollector.NoEndIsMissed | src/hermes_codex_router/codex_appserver.py:970-1108 | While a turn waits, nothing received so far was its end, its final error, a drift or a lost transport. |
| TurnCollector.VerdictHasItsCause | src/hermes_codex_router/codex_appserver.py:1054-1108 | A verdict comes from the first input that settles this very turn: completed only from its own turn end that is neither failed nor interrupted, failed only from its turn end or a non-retrying error, otherwise a raising callback, drift or a lost transport. |
| TurnMessages.CommentaryIsInvisible | src/hermes_codex_router/codex_appserver.py:99-103 | Leaving commentary out of the messages changes no answer, and a final answer that says something displaces all other text. |
| RolloutScan.ReadCompletion | src/hermes_codex_router/codex_rollout_completion.py:47-109 | The record loop returns exactly the turns with a completion after a project-root context when the log is sound, bracketed, not cut inside a turn and not replaced meanwhile, and nothing otherwise. |
| RolloutScan.LineOkIff | src/hermes_codex_router/codex_rollout_completion.py:47-82 | A record is acceptable exactly if it is a whole line within its bound and says what its kind must say of thread, root and turn. |
| RolloutScan.CutsAreSafe | src/hermes_codex_router/codex_rollout_completion.py:101-109 | A cut of a good log is good exactly when no turn is open there, and it never reports a turn the whole log denies. |
| RolloutScan.AbortedIsNotCompleted | src/hermes_codex_router/codex_rollout_completion.py:78-100 | A turn that was aborted is never reported. |
| RolloutScan.CutIsSound | src/hermes_codex_router/codex_rollout_completion.py:52-100 | Once a log is unsound no further record makes it sound. |
| RolloutScan.ReadLifecycle | src/hermes_codex_router/codex_rollout_completion.py:78-100 | The open-turn variable and the set of started turns decide exactly whether the events so far are strictly bracketed with no reused id. |
| ImageInput.PredictionIsExact | src/hermes_codex_router/claude_image_input.py:97-100 | The skeleton's size plus the predicted expansion is the encoded frame's size to the byte. |
| ImageInput.EncodeImageInput | src/hermes_codex_router/claude_image_input.py:41-110 | Accepts exactly the admissible inputs within the final bound and returns the frame with each image in its place; the second size check cannot fire; the receipt takes the very text returned. |
| ImageInput.EarlyBoundIsNotStricter | src/hermes_codex_router/claude_image_input.py:55-62 | The early bound on the escaped prompt never refuses what the final bound would take. |
| ImageRules.AdmissibleIff | src/hermes_codex_router/claude_image_input.py:41-89 | An input is admissible if and only if its prompt says something, its session is canonical and it has one to ten good images in increasing order, four megabytes at most together. |
| ImageRules.FrameIsLiteral | src/hermes_codex_router/claude_image_input.py:67-97 | The frame's text key by key, with every string escaped. |
| ImageRules.PairsAreTheImages | src/hermes_codex_router/claude_image_input.py:77-104 | Each image is its marker and its own data in base64, in order. |
| ImageInput.EncodedIsAccepted | src/hermes_codex_router/claude_image_receipt.py:54-111 | Every encoded frame is accepted by the receipt checker for its session. |
| ImageInput.EncodedTextIsTaken | src/hermes_codex_router/claude_image_receipt.py:54-111 | The receipt over exactly the encoder's text, newline and byte bound included, reads the frame and accepts it for its session. |
| ImageInput.AcceptedIsEncoded | src/hermes_codex_router/claude_image_receipt.py:28-111 | And nothing else is: an accepted frame is the encoding of an admissible prompt and image list. |
| ImageInput.FrameReads | src/hermes_codex_router/claude_image_input.py:90-97 | The frame text reads back as the frame, so no prompt can change the shape around it. |
| ImageInput.LayOut | src/hermes_codex_router/claude_image_input.py:62-89 | The checking loop accepts exactly increasing positions, sizes, signatures, digests and the aggregate bound. |
| JsonText.EscapedSize | src/hermes_codex_router/claude_image_input.py:55-60 | The size found by counting quotes, backslashes and each control character is the exact UTF-8 size of the escaped prompt (section 7 of RFC 8259). |
| JsonText.QuotedReads | src/hermes_codex_router/claude_image_input.py:97-97 | No text can end its own literal early, and reading the literal gives the text back. |
| Base64.DecodeEncode | src/hermes_codex_router/claude_image_input.py:101-104 | Decoding inverts encoding (section 4 of RFC 4648). |
| Base64.EncodedLength | src/hermes_codex_router/claude_image_input.py:98-98 | The encoding of n bytes has length 4*ceil(n/3). |
| ImageRules.SameBits | src/hermes_codex_router/claude_image_input.py:101-104 | Three bytes and their four symbols are the same twenty-four bits, in the alphabet of section 4 of RFC 4648. |
| Base64.LooseTextDecodes | src/hermes_codex_router/claude_image_receipt.py:42-47 | A concrete text that decodes without being canonical, which is why the receipt re-encodes. |

## Left out

- CodexIngressSweep paging, candidate pages, worker threads, notices and observed-result publication: scheduling and reporting around the transactions, which are modelled whoever calls them and in whatever order.
- SQLite, JSON text parsing of native events, UTF-8 decoding, UUID syntax beyond its shape, SHA-256: events are parsed values, digests are injective. `ImageInput.ReadFrame` reads exactly the frame shape the encoder writes; it is not a general JSON parser, and lone surrogates cannot occur in its texts.
- Fields whose only check is a regular expression or a type (profile names, digests, identifier syntax, permission-hook envelopes): one branch settles each.
- Sockets, processes, systemd, tlive, Telegram and file permissions: their results are inputs. Release gates, digests of release trees and service commands are effects that may raise or die.
- ControlRecovery.ControlObserver.ObserveAfterControlLoss: project-root resolution before the reservation, diagnostic events and a client without an interrupt method touch neither rows nor calls and are not modelled. An observation has its own client and send path in the source, so each observer has its own path here.
- Monotonic clock in target validation is read once per check.
- Corrections: an error that is ambiguous about its COMMIT in the admission callback closes admission in the model; the callbacks' own retries are not modelled. Heartbeats and the parent's completion text are left to their tables.
- `validate_interrupted_tail`, visible-assistant callbacks and the image receipt's `observe`: `StreamReader` is proved for every line handler, so chunking cannot matter to them; their branches are not modelled.
- OutputText: `json.dumps` and `json.loads` are parameters, assumed only to write each retained event as one object that reads back, with control characters escaped and no others, and to read no proper beginning of one. Order of the keys is theirs.
- ReleaseManifest.ValidateManifest: identifier, version and unit patterns, commands, and whether paths are canonical and directories exist, are not modelled; the relations between components, groups, links and directories are.
- CorrectionState.ClaudeCorrectionState.Claim: the query for the head of the queue is `ClaimHead`; which jobs block a queue is an input.
- `Inbox`: time limits are a step that may happen at any moment; the capacity callback is in place while the transport runs, and its removal at teardown is not modelled.
- TurnCollector.CodexAppServerClient.RunTurn: a failed response channel, with its drain deadline, its notice in the text and its stricter completion proof, is not modelled, because it depends on when a message is read; rate limits, turn modes and passive activity are left out too; `str()` of a phase or message that is neither text nor absent is one fixed text.
- TurnCollector.CodexAppServerClient.StartTurn: the response-channel drain deadline is not modelled.
- TurnCollector.CodexAppServerClient.WaitForTurn: the response-channel drain deadline is not modelled.
- PermissionWait.ProductiveDeadline.TimeLeft: real arithmetic, without floating-point rounding.
- PermissionHost.AllowWasCommittedOnce: session modes, notices and the wait clock are outside; a server's limit of one hook in flight is not assumed, so the theorem covers more interleavings than occur.
- Legacy control rows that were never accepted take part only as rows that no observer may fence.
