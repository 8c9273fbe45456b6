# Verification of the durable agent runtime

A Dafny model of a runtime that drives conversations with a language model through tool calls and human approvals,
keeps everything it needs to continue in a database, and survives crashes, lost leases and restarts. The model follows
the code statement by statement where it branches and computes, and proves what the code promises over every input,
every interleaving and every reachable state.

`dafny verify dfyconfig.toml` checks the whole project.

## How the model is laid out

- **Transactions as functions, stores as classes.** `StoreSpec`, `ApprovalSpec`, `MemorySpec`, `AdminSpec`, `TaskSpec`
  give every transaction of a store as a function on the contents of its tables. The classes `SessionStore.Store`,
  `ApprovalStore.Store`, `MemoryStore.Store`, `AdminStore.AdminStore`, `TaskGraph.TaskGraph` change their tables in
  place, with the loops of the source, and each method is proved to perform exactly one of these transactions.
- **Histories.** `StoreHistory` and `StoreInvariants` speak about any sequence of store transactions by any callers,
  `StoreLeases` about who may take over a run when. `ApprovalHistory`, `AdminHistory`, `MemoryChains`, `TaskHistory`,
  `CompactionHistory` and `SlotRuns` do the same for the other stores, with reads and later writes as separate steps
  wherever the source has separate transactions. `TaskRuns` has the task graph and the run store together. `StoreFacts`
  says of single transactions which row they write, and what.
- **The run protocol.** `Protocol` is the agent loop as a state machine: any number of workers, each with a program
  counter between two transactions, over the session and approval databases. A worker may crash, fail or stall at every
  counter; approval clicks, expiry, administration, retention, the task service, lease renewals and restarts happen in
  between. `AtMostOnce`, `Cursor`, `RunIdentity`, `ApprovalGate`, `GateRecord` and `GateEdges` prove invariants of every
  reachable world about what is executed. `ToolAnswers` and `Results` are about what the model is told of its calls,
  `Replies` about what a run is answered with, `Resumption` and `CrashRecovery` about where a run goes on after a crash,
  and `Undisturbed` about what a worker brings about that nobody interferes with.
- **The context window.** `Utf8`, `Tokens`, `ContextSpec` compute real sizes of real JSON text; `ContextWindow` has the
  loops; `ContextFacts`, `ContextPairs`, `ContextMandatory` and `ContextContents` prove what trimming guarantees.
  `ContextContents.FitTrims` closes the circle: what trimming does to a message list is what the run protocol allows, for
  the lists the protocol hands it.
- **Smaller machines.** `Resilient` (retries, breaker, fallback), `IsoTime` (timestamps as text), `Scheduler`,
  `CheckpointCodec`, `TaskService`, `Coordinators`.

## What is atomic

Each function of a `...Spec` module is one transaction. Two operations of the source are more than one, and the model
keeps them apart: a SQLite tool completion checks ownership and updates the row separately (one step in PostgreSQL), and
a claim of a run is followed by a separate read of its row. A compaction reads the summary, then the messages, and saves
in a third transaction; a reconciliation finds a task, reads its run and updates the task later; a correction looks at a
memory and replaces it later. A missing or zero token falls back to the current one, so facts about fencing are about
explicit non-zero tokens.

## Assumptions

Ids that the source draws as uuids are fresh. Digests (session ids, argument hashes, request hashes, trigger ids) are
injective and stand for what they digest. A cutoff of a purge is one point in time, not the text it was written in. Tool
call ids are unique within a run. The permission policy, its hooks and the declared skills are a fixed function of the
call. Tool arguments are canonical JSON texts. Message ids start at 1 and ascend. Text contains no lone surrogates, which
the source could not encode either.

## Where the code does less than it seems to promise

Each of these is a lemma with a concrete history or input, beside a lemma that says exactly when the promise holds.

- A tool completion with an overtaken token still lands in SQLite (`StoreHistory.StaleCompletionLandsInSqlite`,
  `StoreHistory.SplitAgreesExactlyWhen`).
- Two workers of one process can end up with the same execution token, both taken for the owner
  (`Coordinators.OneProcessCanShareAToken`, `Coordinators.ReadBackGivesTheClaimedTokenExactlyWhen`).
- A worker that loaded a run while another worker still went on with it can claim the run after that one failed, and
  resumes it from a checkpoint that is no longer the newest (`Resumption.ResumeCanFallBehind`,
  `Resumption.LoadedIsStillNewestExactlyWhen`).
- An approved handler can be entered after its approval was already completed, namely if and only if another worker
  completed it from a recorded output before, which takes an administrator who recorded one
  (`GateEdges.CompletedApprovalStillEnters`, `GateRecord.GateIsExecutingExactlyWhen`,
  `GateEdges.EntriesRunUnderTheirApproval`).
- A compaction can skip a message of the current run for good, when another run of the conversation has later messages
  (`CompactionHistory.SkippedMessagesAreLost`, `Compaction.PlanIsExactExactlyWhen`).
- Trimming can drop the last user message, if that message itself carries a summary version
  (`ContextMandatory.LastUserMessageCanVanish`, `ContextMandatory.MandatoryKeptExactlyWhen`).
- The memory store accepts a replacement for another subject, after which forgetting leaves part of a chain behind
  (`MemoryChains.ForeignReplacementSurvivesForgetting`, `MemoryChains.ReplacementKeepsOneSubjectExactlyWhen`); the
  service never asks for that.
- Cancelling a task leaves its run going when another process runs it (`TaskService.CancelledTaskLeavesRunGoing`,
  `TaskService.CancelledTaskKeepsItsRunExactlyWhen`), and pausing a task does not reach a run that waits for an approval
  (`TaskService.PausedTaskLeavesRunWaiting`, `TaskService.RunFollowsExactlyWhen`).
- Resuming a task whose run failed, was cancelled or cannot be resumed for other reasons marks the task as completed
  (`TaskService.CancelledRunCompletesItsTask`, `TaskService.ResumedTaskIsTruthfulExactlyWhen`).
- A reconciliation that read a task before it was reset for another trigger can complete it while its new run is going
  (`TaskRuns.OldReconciliationCompletesNewRun`, `TaskRuns.SettledTaskNamesItsRunExactlyWhen`).

## Model

| member | source | states |
|---|---|---|
| RunState.TransitionTableIsSafe | agent/core/run_state.py:22-48 | the transition table never leaves completed, failed or cancelled and never enters completed |
| SessionStore.Store.StartInbound | agent/sessions/store.py:124-206 | starting a message creates session, run with token 1, inbound row, user message and first checkpoint with the recent history, or returns the run and response the message already has |
| StoreFacts.HistoryIsTheTail | agent/sessions/store.py:188-196 | the recent history is the end of the messages of the session, in their order, as many as the limit allows |
| SessionStore.Store.AssertOwner | agent/sessions/store.py:636-656 | true exactly when the run is running, owned by this process and at the given token, a missing or zero token meaning the current one |
| SessionStore.Store.SaveCheckpoint | agent/sessions/store.py:354-377 | an owned save appends a checkpoint under the next sequence of its run; without ownership nothing changes |
| SessionStore.Store.TransitionRun | agent/sessions/store.py:387-412 | the table decides; a given token must match together with the owner; the error is clipped |
| StoreFacts.TransitionStoresItsError | agent/sessions/store.py:387-412 | a transition that takes place stores its error up to the 1000th character, or none if it has none |
| SessionStore.Store.ClaimRun | agent/sessions/store.py:414-429 | claiming from an expected status takes ownership, renews the lease and raises the token by one |
| SessionStore.Store.RenewRun | agent/sessions/store.py:505-520 | only the lease of a running run held under exactly this owner and token moves |
| SessionStore.Store.RenewCurrent | agent/sessions/store.py:505-512 | without a token exactly the own running runs are renewed, under the token they have |
| SessionStore.Store.CompleteRun | agent/sessions/store.py:431-476 | completion appends the reply once and caches it; repeating it succeeds only with the same response and changes nothing |
| SessionStore.Store.InterruptIncomplete | agent/sessions/store.py:485-503 | a starting process interrupts exactly its own running runs and those whose lease is missing or lapsed, one row at a time; which rows those are, and that all else stays, is `StoreLeases.TakeoverExactlyWhen` |
| StoreLeases.TakeoverExactlyWhen | agent/sessions/store.py:485-503 | a running run of another owner with a lease changes if and only if the lease is over; own runs and those without a lease always change, runs that are not running never; a changed run is interrupted, without owner and lease, and otherwise as before |
| StoreLeases.HeldRunsAreTakenOverExactlyWhen | agent/sessions/store.py:414-429 | after any history another process takes over a held run if and only if the time is over until which its holder last started, claimed or renewed it |
| SessionStore.Store.ClaimTool | agent/sessions/store.py:535-568 | the ledger clears a call for execution only for a new row of an owned run, and otherwise replays, conflicts or blocks; the check order differs in PostgreSQL |
| StoreFacts.SecondClaimsLearn | agent/sessions/store.py:549-562 | a claim of a call that has a row changes nothing; it replays exactly the recorded output, and finds a running row uncertain |
| SessionStore.Store.FinishRow | agent/sessions/store.py:609-617 | the row update of a completion or failure touches running rows only |
| StoreFacts.OutcomeIsRecorded | agent/sessions/store.py:602-634 | a running row is ended once, with the output in full or the error up to its 1000th character, and keeps its name and input |
| SessionStore.Store.FinishTool | agent/sessions/postgres_store.py:449-473 | check and update in one step change the row only for the current holder |
| SessionStore.Store.SaveSummary | agent/sessions/store.py:322-352 | a summary is saved only if it points at a message of its session and reaches further than the latest one |
| SessionStore.Store.ControlRun | agent/admin/store.py:159-182 | an admin command that takes effect clears owner and lease and raises the token; otherwise it reports why not and changes nothing |
| StoreFacts.ControlFollowsTheTable | agent/admin/store.py:328-337 | a command takes effect exactly for the listed statuses: pause for running and waiting runs, cancel for these, interrupted and failed ones, recover for failed ones; only then anything changes |
| SessionStore.Store.ResolveTool | agent/admin/store.py:205-231 | only a running call of the tenant is resolved, as completed with the given output or as failed |
| SessionStore.Store.Purge | agent/retention/store.py:94-128 | four deletes in foreign-key order, each seeing what the earlier left, together delete exactly what one look at the first state selects, and count it |
| StoreHistory.TokensOnlyGrow | agent/sessions/store.py:414-429 | over any history the token of a run never falls, and while it stays the owner stays or leaves |
| StoreHistory.OneOwnerPerToken | agent/sessions/store.py:414-429 | over any history each token value of a run is held by at most one owner |
| StoreHistory.OwnedWriteNeedsTheHolder | agent/sessions/store.py:636-656 | a write with an explicit token changes the store only for the current owner under the current token |
| StoreHistory.StaleWritesChangeNothing | agent/sessions/store.py:636-656 | once the token moved on, no save, completion, renewal, owned transition, new tool claim or locked completion with an older one ever changes the store again |
| StoreHistory.TokenRisesExactlyWhen | agent/admin/store.py:176-182 | a transaction raises the token of a run if and only if it is a successful claim or an effective admin command on that run |
| StoreHistory.SplitAgreesExactlyWhen | agent/sessions/store.py:602-634 | the two-step completion of SQLite agrees with the locked one if and only if ownership did not change in between or the row can no longer change |
| StoreHistory.StaleCompletionLandsInSqlite | agent/sessions/store.py:602-617 | a concrete history in which a paused run with a newer token still gets its tool row completed by the old holder |
| StoreInvariants.Reachable | agent/sessions/store.py:33-115 | in every reachable state all foreign keys hold, message ids and checkpoint sequences ascend, and runs and inbound rows point at each other |
| StoreInvariants.CompletedExactlyOnce | agent/sessions/store.py:431-476 | a run is completed if and only if its message has a response, and the assistant messages ever appended for it, purged or not, are exactly that one response |
| StoreInvariants.TerminalIsFinal | agent/core/run_state.py:22-48 | completed and cancelled runs keep status and response over any history; failed ones do unless an admin command comes |
| StoreInvariants.DuplicatesMeetTheSameRun | agent/sessions/store.py:142-153 | a message that arrives again at any later time changes nothing and meets the same run, and its response once there is one |
| StoreInvariants.OneRunPerMessage | agent/sessions/store.py:142-153 | two runs never share an inbound message |
| StoreInvariants.LedgerRowsAreFinal | agent/sessions/store.py:535-568 | ledger rows are never removed or re-identified, and a completed or failed row never changes again |
| StoreInvariants.ExecuteIsGrantedOnce | agent/sessions/store.py:535-568 | whatever happens in between, a second claim of a call is never cleared for execution |
| StoreInvariants.CompletedCallReplays | agent/sessions/store.py:549-562 | a completed call replays its recorded output to every later claim that is not fenced off |
| StoreInvariants.PurgeKeepsReferences | agent/retention/store.py:94-128 | after any purge every remaining summary still points at a remaining message and every foreign key holds |
| StoreInvariants.PurgeSparesProtectedSessions | agent/retention/store.py:94-128 | a session of another tenant, or with a run that can continue, loses nothing; elsewhere exactly the messages, checkpoints and attachments older than the cutoff go, and exactly the summaries that point at such a message |
| Coordinators.ToolExecutionCoordinator.Invoke | agent/core/tool_coordinator.py:18-56 | claim, handler and record in order; a call that is not cleared never reaches its handler and gets its recorded output or the reason |
| Coordinators.UninterruptedInvocation | agent/core/tool_coordinator.py:18-56 | without interference the handler runs exactly for a new row of an owned run, and the row then records exactly what it did |
| Coordinators.SecondInvocationReplays | agent/core/tool_coordinator.py:28-38 | after an invocation entered its handler, no later one by anyone enters again, and each gets the recorded output or finds its lease lost |
| Coordinators.RunCoordinator.ClaimAndRead | agent/core/run_coordinator.py:123-128 | undisturbed, a claim returns the row as claimed, or nothing if the run was not claimable |
| Coordinators.RunCoordinator.Complete | agent/core/run_coordinator.py:109-113 | completion without ownership is an error, and with it performs the store's completion |
| Coordinators.RunCoordinator.InterruptRun | agent/core/run_coordinator.py:115-121 | an interrupt is the owned transition to interrupted under the worker's own token |
| Coordinators.ReadBackGivesTheClaimedTokenExactlyWhen | agent/core/run_coordinator.py:123-128 | the read after a claim returns the claimed token if and only if no later claim or admin command raised it in between |
| Coordinators.OneProcessCanShareAToken | agent/core/run_coordinator.py:123-128 | a concrete history of the run protocol after which two workers of one process go on with one run under one token, and the store takes either for the owner |
| AtMostOnce.ProtocolIsStoreHistory | agent/core/loop.py:221-752 | from any point of any history on, what all workers and the environment do to the session store is a sequence of its transactions |
| AtMostOnce.RecordedOutputIsReplayed | agent/core/tool_coordinator.py:28-38 | once a call is recorded as completed, any later worker that invokes it goes on with that output as the next message, at once or after its approval is settled, without entering the handler; or it finds its lease lost, and tells that |
| ToolAnswers.RecordedOutputIsTold | agent/core/loop.py:395-399 | a call with a recorded output that is invoked by a holder is answered with that output, directly or through its approval, in the next message |
| ToolAnswers.RecordedOutputIsToldOnResume | agent/core/loop.py:867-884 | so is a call whose approval had begun when its run was resumed |
| ToolAnswers.ApprovedCallRunsExactlyWhen | agent/core/loop.py:892-911 | an approved call is executed if and only if its request is still only approved, the policy still asks for approval and name and arguments are those approved; with any other call the request fails |
| ToolAnswers.NewOutputIsTold | agent/core/tool_coordinator.py:39-56 | the output of a handler goes on record and to the model in one step, unless the lease was lost meanwhile |
| ToolAnswers.ErrorIsTold | agent/core/loop.py:395-399 | when a handler raised, its row fails and the model is told the error |
| ToolAnswers.DeniedCallIsTold | agent/core/loop.py:392-399 | a denied call is answered with the reason without coming near a handler |
| ToolAnswers.UnapprovableCallIsTold | agent/core/loop.py:340-345 | a call that nobody can approve is refused, without a checkpoint of its own |
| ToolAnswers.RefusedCallIsTold | agent/core/loop.py:859-866 | a rejected or expired request is consumed when it is resumed, and the model is told why its call was not executed |
| ToolAnswers.UnrecordedOutputIsNotTold | agent/core/tool_coordinator.py:39-56 | an output that comes after the run was lost changes no row and is not told |
| ToolAnswers.RefusedOutputIsNotTold | agent/core/tool_coordinator.py:49-55 | an output that the ledger refuses, since the row was ended by somebody else, changes nothing and is not told |
| ToolAnswers.LateOutputIsRecordedOnly | agent/core/loop.py:431-433 | an output recorded by a worker that then finds its lease lost stays on record but is not told |
| ToolAnswers.ConflictingCallIsTold | agent/sessions/store.py:550-559 | a call under an id that stands for another call is not executed, and the model is told so |
| ToolAnswers.ToldIsSaved | agent/core/loop.py:399-411 | an answer is saved in a checkpoint, with the calls that are left, before anything else happens |
| ToolAnswers.RefusalsNameTheirReason | agent/core/loop.py:933-938 | a refusal is the JSON text of an object that names its reason, and different reasons make different refusals |
| AtMostOnce.HandlersRunAtMostOnce | agent/core/tool_coordinator.py:18-56 | in every reachable world no two handler entries are for the same run and call |
| Cursor.CursorsHold | agent/core/loop.py:227-752 | in every reachable world, every checkpoint, approval and worker holds a paired message list whose unanswered calls are the rest of one issued batch |
| Cursor.CheckpointsMatchTheirMessages | agent/core/loop.py:729-752 | in every checkpoint ever saved the calls without a result are the remaining calls (tools), none (model, finalize), or those the approval holds, the gated one first |
| Cursor.TrimmedListsArePaired | agent/core/loop.py:232-235 | whenever a worker is about to trim its messages, the list is uniquely paired and has no unanswered call |
| RunIdentity.IdentitiesHold | agent/core/loop.py:618-752 | in every reachable world every checkpoint, approval and worker of a run holds the identity that its session and its message give |
| RunIdentity.RunsKeepTheirIdentity | agent/core/run_coordinator.py:30-107 | through any crashes and resumes, every checkpoint and every approval of a run names the conversation of its session and the sender of its message |
| RunIdentity.ApprovalsAskTheSender | agent/approval/store.py:110-114 | the identity an approval demands of a click is matched exactly by the sender of the run's message in the run's conversation |
| ApprovalStore.Store.Create | agent/approval/store.py:65-91 | one approval per run and call: a second request gets the first one back and stores nothing |
| ApprovalStore.Store.Decide | agent/approval/store.py:99-136 | a decision is accepted only from the original sender, before expiry, for an undecided request and a new event, in this order of checks |
| ApprovalStore.Store.ExpirePending | agent/approval/store.py:138-147 | exactly the undecided requests whose time has come expire; which these are is `ApprovalHistory.SweepExpiresExactly` |
| ApprovalStore.Store.ClaimExecution | agent/approval/store.py:149-156 | only an approved request can be claimed, once |
| ApprovalStore.Store.Complete | agent/approval/store.py:158-160 | only an executing request is completed |
| ApprovalStore.Store.Fail | agent/approval/store.py:162-167 | only an executing request fails, with a clipped error |
| ApprovalStore.Store.MarkConsumed | agent/approval/store.py:169-175 | a rejected or expired request is consumed once |
| ApprovalHistory.SweepExpiresExactly | agent/approval/store.py:138-147 | a sweep changes a request if and only if it is undecided and its expiry is not after the time of the sweep, and then only its status; no request is undecided and overdue afterwards |
| ApprovalHistory.ExpiredOnlyWhenDue | agent/approval/store.py:115-147 | over any history a request is expired only by a sweep, or a click on it, at or after its expiry |
| ApprovalHistory.FinalIsForever | agent/approval/store.py:65-175 | over any history requests stay, keep what they ask for, and once rejected, expired, executed or failed stay so, with their error |
| ApprovalHistory.DecidedByItsSenderInTime | agent/approval/store.py:99-136 | over any history a request is approved or rejected only by a click of its sender before its expiry |
| ApprovalHistory.OneDecisionPerEvent | agent/approval/store.py:121-136 | an event that decided something never decides a second time, neither this request nor another |
| ApprovalHistory.ExecutionBeginsOnce | agent/approval/store.py:149-156 | over any history a request is claimed for execution at most once |
| ApprovalHistory.ConsumedOnce | agent/approval/store.py:169-175 | over any history a request is consumed at most once |
| ApprovalGate.GatesHold | agent/core/loop.py:852-931 | in every reachable world the invariant that links clicks, approval statuses, executing workers and handler entries holds |
| ApprovalGate.EntriesAreApproved | agent/core/loop.py:337-398 | every entered handler belongs to an allowed call, or to one that requires approval and was confirmed by exactly one click before the entry, made strictly before expiry by whoever sent the message of that run, in the conversation of its session, for the same run, name and arguments |
| ApprovalGate.UnapprovedCallsNeverRun | agent/core/loop.py:852-867 | a call whose approval is undecided, rejected, expired or not yet claimed was never entered by any route |
| ApprovalGate.DeniedCallsNeverRun | agent/core/loop.py:392-393 | a call the policy denies is never entered |
| ApprovalGate.OneEntryPerApproval | agent/approval/store.py:149-156 | no approval lets two handlers run |
| GateRecord.GateIsExecutingExactlyWhen | agent/core/loop.py:868-921 | the approval of an entered handler is executing at the entry if and only if no other worker, resuming it, completed it from a recorded output before |
| GateEdges.EntriesRunUnderTheirApproval | agent/core/loop.py:895-921 | an approved handler is entered while its approval is executing, unless strictly before the entry an admin command resolved this very call with effect and recorded an output |
| GateEdges.CompletedApprovalStillEnters | agent/core/loop.py:868-892 | a concrete history in which a stalled worker enters the handler after a second worker completed the approval from a manually resolved row |
| Results.ProtocolIsApprovalHistory | agent/core/loop.py:332-411 | from any point of any history on, what all workers and the environment do to the approval store is a sequence of its transactions |
| Results.EnvironmentDecides | agent/approval/store.py:99-175 | in any world a sweep leaves nothing undecided and overdue, a consumption marks what was refused, and a click of the sender in time decides |
| Results.EveryResultIsExplained | agent/core/loop.py:332-411 | in every reachable world every tool result in every checkpoint and request is, up to trimming, the reason of a denial for a denied call, the recorded output, an error or the note of a blocked row for an allowed one, and for one that requires approval also the reason its request ended with |
| Results.RecordedCallsAreAnsweredByTheirOutput | agent/core/tool_coordinator.py:28-38 | in every reachable world an allowed call whose output is on record is answered, up to trimming, with that output, unless an attempt failed or found the execution still open |
| Replies.ResponseTextIsItsLines | agent/contracts.py:56-62 | the text of a response is its text blocks in order, one a line |
| Replies.CompletedRunsAnswerTheirMessage | agent/core/loop.py:227-317 | in every reachable world a completed run has a response, and this is the text of a response of its own model without calls, or the notice that the turns are used up, after at least that many responses with calls |
| Replies.AskedWithinTheLimit | agent/core/loop.py:227 | the model is never asked beyond the last turn, whatever a run was resumed from, and no worker counts more turns than its run has taken |
| Replies.ResponseTakesATurn | agent/core/loop.py:291-316 | a response with calls takes exactly one turn, and its calls come next in their order |
| Resumption.LatestIsNewest | agent/sessions/store.py:379-385 | in every reachable state the checkpoint found for a run has the highest sequence of the run, and none is found only if there is none |
| Resumption.LoadFindsTheNewest | agent/core/loop.py:683-698 | a worker that loads a run in any reachable world gets the state of the last checkpoint saved for it |
| Resumption.NewestStaysExactlyWhen | agent/sessions/store.py:354-385 | over any history without purges of it a checkpoint stays the newest of its run if and only if none is saved for the run |
| Resumption.LoadedIsStillNewestExactlyWhen | agent/core/loop.py:683-724 | what a worker loaded is still the newest checkpoint at any later moment if and only if none was saved for the run, or purged, in between |
| Resumption.ResumeCanFallBehind | agent/core/loop.py:683-724 | a concrete history in which a worker that loaded a run while another one went on with it claims the run after that one failed, and resumes it from before the calls that were saved |
| CrashRecovery.CrashedRunsGoOnWhereTheyWere | agent/core/loop.py:667-752 | in any reachable world a worker that crashes right after a save loses nothing: after takeover, load and claim another worker stands exactly where the save had led it, with the same messages, turn, calls to make or text to answer with, under the next token |
| CrashRecovery.ParkedCallIsTakenUp | agent/core/loop.py:601-643 | a call parked for an approval is taken up again by whoever resumes the decided request, with the messages, turn and calls it was parked with |
| CrashRecovery.FailuresInterrupt | agent/core/loop.py:201-208 | a worker that fails while it holds its run interrupts it with the error; only while the first context is built, and after an approval, a failure leaves the run running |
| CrashRecovery.ParkedRunsWait | agent/core/loop.py:385-391 | a holder that parks its run leaves it waiting for the approval, and changes nothing else |
| Undisturbed.FirstRequestIsGuarded | agent/core/run_coordinator.py:30-75 | the first request is the recent history, or what a context manager made of it, saved; from then on a failure interrupts the run |
| Undisturbed.AllowedCallIsDone | agent/core/loop.py:337-411 | if nobody interferes, an allowed call of a holder is entered once, recorded as its handler ended, told and saved, and then the next call is up; nothing else changes |
| Undisturbed.AllowedBatchIsDone | agent/core/loop.py:337-413 | if nobody interferes, every call of a batch is executed exactly once, in order, and the model is told all results in that order |
| Undisturbed.TurnIsTaken | agent/core/loop.py:227-316 | if nobody interferes, a response with allowed calls takes one turn, after which the next request has the trimmed messages, the response and all results in order |
| Undisturbed.FinalTextCompletes | agent/core/loop.py:275-290 | if nobody interferes, a final text is saved and completes the run, as its response and as the last message of the session |
| Undisturbed.UsedUpCompletes | agent/core/loop.py:317 | when the turns are used up the run is completed with the notice |
| Utf8.DecodeOfPrefix | agent/context/manager.py:201-202 | cutting an encoded text at any byte and decoding it, ignoring errors, keeps exactly the whole characters before the cut |
| Utf8.RoundTrip | agent/context/manager.py:201-202 | decoding undoes encoding for every text |
| Tokens.CountByWeight | agent/context/token_counter.py:12-22 | the tokens of a message list are a quarter, rounded up, of the sum of the sizes of its rendered items with their separators and brackets |
| Tokens.CountIsMonotone | agent/context/token_counter.py:24-27 | a lighter message list never costs more tokens |
| Tokens.QuotedTextsDiffer | agent/context/token_counter.py:17-22 | texts that differ stay different in the JSON text that is counted |
| ContextFacts.TruncationIsLongest | agent/context/manager.py:193-203 | truncation keeps the longest whole-character prefix that fits beside its suffix, and the result counts at most the limit, at least one |
| ContextFacts.SuffixFits | agent/context/manager.py:195-200 | the long suffix is used from nine tokens on, an ellipsis below, and either fits |
| ContextFacts.SelectionIsMaximal | agent/context/manager.py:57-62 | no dropped item could be added to the final selection together with its partner without exceeding the budget |
| ContextPairs.SelectionIsPairClosed | agent/context/manager.py:91-135 | for a uniquely paired list a tool result is kept if and only if its call is |
| ContextPairs.KeptInOrder | agent/context/manager.py:64-71 | what is returned are the selected messages in their order, each with its kind, role and ids |
| ContextPairs.FitKeepsPairs | agent/context/manager.py:29-71 | trimming a paired list without pending calls leaves a paired list without pending calls and invents no call or result |
| ContextContents.FitKeepsContents | agent/context/manager.py:29-71 | what is returned are messages of the list in their order: results within the limit as they are, larger ones cut to the longest prefix of whole characters that fits the limit beside its mark, the summary shortened, all others unchanged; and only if that is still too large, one token of each result, no arguments of calls and a shortened last user message |
| ContextContents.FitTrims | agent/context/manager.py:29-71 | trimming a paired list without pending calls is what the run protocol allows a trim to do, down to the contents of results |
| ContextMandatory.MandatoryKeptExactlyWhen | agent/context/manager.py:37-62 | last user message, latest tool result and its call are selected if and only if the first summary is not one of them that fails to fit even when shrunk to nothing |
| ContextMandatory.SummariesOfTheAssistantPushNothingOut | agent/context/manager.py:246-253 | as long as no user message carries a summary version, nothing mandatory is given up |
| ContextMandatory.OverflowingSelectionIsMandatory | agent/context/manager.py:65-66 | the last resort is reached only when nothing but the mandatory items was selected |
| ContextMandatory.FitKeepsWhatMatters | agent/context/manager.py:29-71 | every returned list is within the budget and still holds the last user message, in full or as a marked prefix, and the latest tool result with its call |
| ContextMandatory.OverflowLeavesNothingToShorten | agent/context/manager.py:166-191 | an overflow is raised only when every result is down to one token, every input is gone and nothing is left of the last user message |
| ContextMandatory.LastUserMessageCanVanish | agent/context/manager.py:49-55 | a concrete request whose last user message is dropped silently because it carries a summary version |
| ContextWindow.MandatoryIndexes | agent/context/manager.py:91-114 | the loops find the last user message, the last tool result and the nearest call before it |
| ContextWindow.RelatedIndexes | agent/context/manager.py:116-135 | the loops find the nearest earlier call of a result and the nearest later result of a call |
| ContextWindow.HalveContent | agent/context/manager.py:157-164 | the halving loop terminates and stops at the first halving that fits |
| ContextWindow.ShrinkMandatoryItems | agent/context/manager.py:166-191 | the last resort cuts every result and call and then halves the last user message |
| ContextWindow.GreedySelection | agent/context/manager.py:57-62 | the backward loop computes the greedy selection |
| ContextWindow.FitMessages | agent/context/manager.py:29-71 | the whole procedure, with its two errors, computes the specified trimming; what it keeps of each message is `ContextContents.FitKeepsContents` |
| Compaction.PlanIsExactExactlyWhen | agent/context/manager.py:276-296 | folding more into an exact summary gives the one-shot text of all messages up to the new mark if and only if, before the compaction, no message of the current run had more messages of other runs above it than the compaction leaves alone |
| Compaction.HighestIdsAreSpared | agent/context/manager.py:282-291 | while the current run has the highest ids of its session, a compaction skips nothing and its mark lies below every message of that run |
| Compaction.SummaryOfSummary | agent/context/manager.py:304-307 | folding messages into the text of earlier ones gives the text of all of them |
| CompactionHistory.IncrementalIsOneShot | agent/context/manager.py:276-296 | over any interleaving of compactions, in three transactions each, with store transactions without purges, where none has anything to skip when it reads the messages, every summary is the join of all messages up to its mark, and these with the remaining ones are the session in order |
| CompactionHistory.CurrentRunIsNeverCovered | agent/context/manager.py:276-296 | if the current run has the highest ids whenever a compaction reads the messages, no saved summary ever covers a message of the run it was saved for, and none skips anything |
| CompactionHistory.SkippedMessagesAreLost | agent/context/manager.py:282-295 | a concrete history after which a message is neither in the summary nor among the remaining messages |
| ContextManager.ContextManager.ReadPlan | agent/context/manager.py:279-292 | the two reads of a compaction, undisturbed, decide what to fold and its text |
| ContextManager.ContextManager.Compact | agent/context/manager.py:276-296 | a compaction saves exactly what it planned, nothing if there is nothing old, and reports a refused save |
| ContextManager.ContextManager.Build | agent/context/manager.py:231-274 | the built request is that of the state after compaction, which happens only at the trigger |
| ContextManager.BuiltRequestShowsTheWholeSession | agent/context/manager.py:231-274 | with an exact summary a built request shows every message of the session once: the covered ones in the summary, the others one by one in order |
| ContextManager.UninterruptedCompactionSucceeds | agent/sessions/store.py:326-342 | a compaction whose transactions are not interrupted is accepted and becomes the latest summary |
| MemoryStore.Store.Create | agent/memory/store.py:70-73 | a record is inserted unless its id is taken or its link dangles |
| MemorySpec.InsertedExactlyWhen | agent/memory/store.py:70-73 | an insert is accepted if and only if the table keeps distinct ids and links to rows that exist |
| MemoryStore.Store.UpdateWhere | agent/memory/store.py:127-131 | exactly the matching rows change, and the count tells whether any did |
| MemoryStore.Store.Replace | agent/memory/store.py:111-134 | the replacement joins the root of an active record of the subject, which is deleted and pointed at it; otherwise nothing changes |
| MemoryStore.Store.HardDelete | agent/memory/store.py:136-152 | deletion unlinks and removes the rows of the root and subject of a record the subject owns |
| MemoryStore.Store.PurgeExpired | agent/memory/store.py:154-167 | expired rows and all links to them go, and are counted |
| MemorySpec.PurgeRemovesWhatIsOver | agent/memory/store.py:154-167 | exactly the rows whose expiry is not after the time of the purge go, and the others stay as they are, except that none links to a row that went |
| MemoryChains.ChainsHold | agent/memory/store.py:111-167 | over any history of remembering, correcting, forgetting and expiring, with interleaved corrections, the chains are in order |
| MemoryChains.OneActiveRecordPerRoot | agent/memory/store.py:111-134 | the records of one root share subject and scope, at most one is active, and links lead to remaining records of the root |
| MemoryChains.LinksNeverCycle | agent/memory/store.py:111-134 | following links never leaves the root and never returns to a record |
| MemoryChains.ForgettingRemovesTheWholeChain | agent/memory/service.py:112-114 | forgetting any record of a chain, old or current, removes the whole chain and nothing else |
| MemoryChains.ReplacementKeepsOneSubjectExactlyWhen | agent/memory/store.py:111-134 | after a replacement every root has one subject if and only if the replacement is for the subject that asked |
| MemoryChains.ForeignReplacementSurvivesForgetting | agent/memory/store.py:111-152 | a concrete replacement for another subject, after which forgetting the corrected record leaves a row of its root |
| AdminStore.AdminStore.ControlRun | agent/admin/store.py:146-189 | the command runs once per operation id, in one step with its operation row and audit event |
| AdminStore.AdminStore.ResolveTool | agent/admin/store.py:191-238 | the same for resolving an uncertain tool call |
| AdminStore.AdminStore.PurgeTenantData | agent/retention/store.py:60-163 | the same for retention, with the counts of deleted rows as result |
| AdminHistory.BooksStayBalanced | agent/admin/store.py:284-325 | in every reachable state every operation has one audit event that describes it, and every event one operation, across both writers |
| AdminHistory.AsManyEventsAsOperations | agent/retention/store.py:142-162 | there are as many audit events as operations |
| AdminHistory.FirstRequestWins | agent/admin/store.py:260-282 | whatever happens in between, repeating a request returns the first result and changes nothing, and any other request under its id, by either writer or by another actor, down to output and cutoff, is refused and changes nothing |
| AdminHistory.ReportedEffectIsReal | agent/admin/store.py:164-182 | a command reports a change if and only if rows changed, and retention counts exactly the rows that went |
| AdminHistory.BooksAndDatabaseStayInOrder | agent/admin/store.py:146-238 | audited commands keep every invariant of the session database |
| TaskSpec.ClaimedExactlyWhen | agent/tasks/graph.py:102-125 | a claim succeeds if and only if the task is pending and every dependency exists and is completed |
| TaskSpec.TransitionWritesWhatIsGiven | agent/tasks/graph.py:133-151 | a transition writes what it is given, the error up to its 1000th character, counts one version up and leaves all else as it was |
| TaskSpec.OldestIsFound | agent/tasks/graph.py:89-94 | the task found for a run is bound to it and the first such in the order of creation |
| TaskGraph.TaskGraph.Create | agent/tasks/graph.py:49-58 | a task is created pending unless its id is taken |
| TaskGraph.TaskGraph.DependencyProblems | agent/tasks/graph.py:184-192 | the loop lists exactly the unfinished and the missing dependencies, in order |
| TaskGraph.TaskGraph.ClaimTask | agent/tasks/graph.py:102-125 | a claim takes a pending task with finished dependencies and otherwise says why not |
| TaskGraph.TaskGraph.Transition | agent/tasks/graph.py:133-151 | a guarded update changes status and given fields of one task in an expected status and raises its version |
| TaskGraph.TaskGraph.BindRun | agent/tasks/graph.py:153-159 | a task in progress is bound to a run unless it is bound to another one |
| TaskGraph.TaskGraph.FindTaskByRun | agent/tasks/graph.py:89-94 | the oldest task bound to a run is found |
| TaskGraph.TaskGraph.ResetForTrigger | agent/tasks/graph.py:161-169 | a completed task becomes pending again only for a trigger other than its own |
| TaskHistory.FirstCompletionsAreTopological | agent/tasks/graph.py:102-125 | over any interleaving of claims, pauses, resumes, stale reconciliations and recurring resets, tasks first complete after all their dependencies did |
| TaskHistory.CyclesNeverStart | agent/tasks/graph.py:111-118 | no task in a set whose members each depend on a member is ever claimed or completed |
| TaskHistory.SecondClaimNeedsAReset | agent/tasks/graph.py:119-124 | a claimed task is claimed again only after it was reset for another trigger |
| TaskHistory.HandledTriggersStayHandled | agent/tasks/service.py:28-38 | a task that completed for a trigger keeps its row over any history, executions for the same trigger included, until it is reset for another trigger or its run is reconciled |
| TaskService.TaskService.TransitionRun | agent/tasks/service.py:134-142 | a run that ended is left alone, a running one moves only under its current token and owner |
| TaskService.TaskService.Pause | agent/tasks/service.py:82-88 | pausing moves the task and, only if it moved, its run |
| TaskService.TaskService.End | agent/tasks/service.py:125-132 | cancelling or failing moves the task and, only if it moved, its run |
| TaskService.TaskService.ReconcileRun | agent/tasks/service.py:100-116 | undisturbed, the oldest task of a run takes the status of the run and no other task changes |
| TaskService.TaskService.ApplyEnding | agent/tasks/service.py:118-123 | a finished or parked turn completes or pauses the task in progress, a broken one interrupts it |
| TaskService.TaskService.ResumeTask | agent/tasks/service.py:63-80 | an interrupted or paused task goes on under this owner and takes the ending of its turn, which for a run that cannot be resumed is an answer at once; the caller learns that ending, or that the task is under way |
| TaskService.TaskService.ResumeRun | agent/core/loop.py:667-698 | a run that is missing, has ended, waits for an approval, has no checkpoint, or awaits an approval that is missing or uncertain is answered for without a turn; the checkpoint that decides is the newest of the run (`Resumption.LatestIsNewest`) |
| TaskService.UncertainExactlyWhenTheRunFails | agent/core/loop.py:852-891 | the service calls an interrupted run uncertain if and only if a worker of the run protocol that resumes it finds its approved call begun without a result, and then the run fails with that error |
| TaskService.TurnIsRecorded | agent/tasks/service.py:118-123 | a task in progress ends completed, paused or interrupted with the error, as its turn did, and stays as it is if the run was busy |
| TaskService.TaskService.ClaimAndRun | agent/tasks/service.py:36-61 | a claimed task is bound to its run and takes the ending of its turn; an unclaimed one is left alone and reported as under way |
| TaskService.TaskService.ExecuteTask | agent/tasks/service.py:24-61 | an execution resets a completed recurring task, resumes one with a run, and claims any other, and answers what became of it |
| TaskService.RunFollowsExactlyWhen | agent/tasks/service.py:134-142 | a pause reaches a run if and only if it runs in this process; ending a task also reaches waiting and interrupted runs |
| TaskService.CancelledTaskKeepsItsRunExactlyWhen | agent/tasks/service.py:90-94 | a cancelled task and its run agree about the cancellation if and only if the run was not running elsewhere and had not ended otherwise |
| TaskService.CancelledTaskLeavesRunGoing | agent/tasks/service.py:134-142 | a concrete task that is cancelled while its run, owned by another process, goes on |
| TaskService.PausedTaskLeavesRunWaiting | agent/tasks/service.py:82-88 | a concrete task that is paused while its run still waits for an approval |
| TaskService.ResumedTaskIsTruthfulExactlyWhen | agent/core/loop.py:670-698 | a resumed task ends as completed with a completed run if and only if the run is there, has not failed, was not cancelled, has a checkpoint, and awaits no missing approval and none whose call has begun without a recorded result |
| TaskService.CancelledRunCompletesItsTask | agent/core/loop.py:677-680 | a concrete interrupted task whose run an administrator cancels and which recovery then marks as completed |
| TaskRuns.BothAreHistories | agent/tasks/service.py:24-132 | over any interleaving of task updates, run transactions and reconciliations in three steps, the task graph follows a task history and the run store a history of its transactions |
| TaskRuns.CompletionsAreTopological | agent/tasks/graph.py:102-125 | also then tasks first complete after all their dependencies did |
| TaskRuns.CompletedTasksHaveCompletedRuns | agent/tasks/service.py:100-123 | every completed task was completed on account of a run that is completed with its response, for good, unless a turn was reported as done for a run that was not |
| TaskRuns.CompletedTaskNamesItsRun | agent/tasks/service.py:100-123 | a completed task that was never handed to another run names that run |
| TaskRuns.SettledTaskNamesItsRunExactlyWhen | agent/tasks/service.py:100-116 | a task completed by a reconciliation names a completed run if and only if it still names the run that was looked up, unless its new run happens to be completed as well |
| TaskRuns.OldReconciliationCompletesNewRun | agent/tasks/service.py:113-115 | a concrete history in which a reconciliation that read a task on its first run completes it on its second, still going |
| Scheduler.SchedulerService.ClaimTrigger | agent/scheduler/service.py:94-104 | a trigger is inserted unless its id or its schedule and slot are taken |
| Scheduler.SchedulerService.Execute | agent/scheduler/service.py:106-124 | the trigger takes the status of its task, or becomes interrupted with the error |
| Scheduler.TriggersTellTheirTask | agent/scheduler/service.py:106-124 | an executed trigger keeps what it is for and tells how far its task came, or the exception |
| Scheduler.SchedulerService.DispatchDue | agent/scheduler/service.py:67-78 | the loop claims and executes the due schedules in order and stops at the first exception |
| Scheduler.WeekdaysFollow | agent/scheduler/cron.py:23 | weekdays follow one another across the ends of months, leap years and centuries, the first day of the calendar being a Monday |
| Scheduler.WeeklyScheduleIsDueOnce | agent/scheduler/cron.py:19-24 | a schedule for one weekday is due on exactly one of any seven days in a row |
| Scheduler.YearlyScheduleIsDueOnce | agent/scheduler/cron.py:19-24 | a schedule for one minute of one day of the year is due then and at no other time |
| Scheduler.StepScheduleIsDueAtMultiples | agent/scheduler/cron.py:61-66 | a schedule for every n-th minute is due exactly at the multiples of n |
| Scheduler.SlotsAreMinutes | agent/scheduler/cron.py:27-29 | two times have the same slot text if and only if they lie in the same minute |
| Scheduler.TriggerIdsAreInjective | agent/scheduler/cron.py:32-34 | the digested texts of two triggers agree if and only if schedule and minute do, whatever characters a schedule id has |
| Scheduler.DispatchAddsNewTriggers | agent/scheduler/service.py:67-104 | a dispatch keeps all earlier triggers as they are and executes only ones that had no row, each once |
| SlotRuns.OneTriggerPerSlot | agent/scheduler/service.py:94-104 | over any dispatches, restarts and recoveries there is at most one trigger per schedule and minute |
| SlotRuns.StartedRunsHaveTriggers | agent/tasks/service.py:39-49 | every run that an execution or recovery ever started belongs to a trigger row that is there and to that row's message, and is the only run of that message |
| SlotRuns.OneRunPerSlot | agent/tasks/service.py:39-49 | two runs that executions or recoveries started for one schedule and minute are the same run |
| SlotRuns.DispatchedOnce | agent/scheduler/service.py:80-104 | a trigger that was dispatched is never dispatched again |
| IsoTime.TextOrderIsTimeOrder | agent/sessions/store.py:485-503 | for all UTC datetimes, with or without a fraction, comparing the stored texts is comparing the times, and equal texts are equal times |
| Resilient.AnswersExactlyWhen | agent/models/resilient.py:119-129 | a retry loop answers if and only if one of the first attempts answers after retryable errors only |
| Resilient.CallsAreBounded | agent/models/resilient.py:119-129 | a retry loop makes at most the configured attempts, all but the last of them retryable failures |
| Resilient.OpenExactlyWhen | agent/models/resilient.py:38-57 | over any history the breaker is open if and only if at least the threshold of failures was recorded since the last success or reset |
| Resilient.OnlyExhaustionCounts | agent/models/resilient.py:80-99 | an answer closes the breaker, exhausted attempts count one failure, and any other outcome, or a request that finds the circuit open, leaves it |
| Resilient.CircuitBreaker.AllowRequest | agent/models/resilient.py:38-46 | an open breaker lets a request through and resets exactly when its recovery time is over |
| Resilient.CircuitBreaker.RecordSuccess | agent/models/resilient.py:48-51 | a success closes the breaker and forgets failures |
| Resilient.CircuitBreaker.RecordFailure | agent/models/resilient.py:53-57 | a failure is counted and opens the breaker at the threshold |
| Resilient.ResilientProvider.GenerateWithRetry | agent/models/resilient.py:119-129 | the loop issues exactly the calls and takes exactly the pauses of its specification |
| Resilient.ResilientProvider.AskPrimary | agent/models/resilient.py:83-99 | an open circuit issues no call; a success or exhaustion is recorded, other errors are not |
| Resilient.ResilientProvider.AskFallback | agent/models/resilient.py:101-117 | without a fallback the primary error is raised; a failing callback issues no call; a fallback reply counts the earlier calls too |
| Resilient.ResilientProvider.Generate | agent/models/resilient.py:80-117 | the reported attempts are the provider calls issued over primary and fallback |
| Resilient.AttemptsAreTheCalls | agent/models/resilient.py:80-117 | the attempts of a reply equal the calls made, never more than twice the maximum, and no more than the maximum without fallback |
| Resilient.ReplyIsTheLastAnswer | agent/models/resilient.py:80-129 | a reply is what the last call answered, by the provider it names; the fallback is asked only when the circuit is open or the primary provider asked for a retry in every attempt |
| Resilient.DelayIsBounded | agent/models/resilient.py:148-158 | a pause without a server delay is at most the longest delay with full jitter |
| Resilient.PausesAreDoubled | agent/models/resilient.py:148-158 | every pause of a loop is the delay the provider asked for, or has doubled since the one before, up to the longest delay, with its own jitter on top |
| Resilient.BackoffIsBounded | agent/models/resilient.py:119-158 | without server delays all pauses of one loop together are at most (attempts - 1) longest delays with full jitter |
| CheckpointCodec.EncodeBlocks | agent/core/continuation.py:8-32 | the loop encodes every block kind with its tag and fields |
| CheckpointCodec.BlocksRoundTrip | agent/core/continuation.py:8-49 | every block list comes back from its encoding |
| CheckpointCodec.StateRoundTrip | agent/core/checkpoints.py:21-70 | every checkpoint comes back from its encoding, with identity, previous response id, summary version, provider, model and skill snapshots, whether or not an empty call list was written |
| CheckpointCodec.ReplacingMessagesKeepsTheRest | agent/core/checkpoints.py:13-19 | replacing the messages of a decodable checkpoint changes nothing else in it, whichever version it had |
| CheckpointCodec.OldCheckpointsStillDecode | agent/core/checkpoints.py:61-70 | a checkpoint from before versions were written comes back as what it was made from, and under any later version the same fields are refused for that version |

## Left out

- SessionStore.Store.StartInbound: has no form without user message and first checkpoint, which the runtime never uses.
- AtMostOnce.HandlersRunAtMostOnce: is about runs kept in a store; without a session store, or without an identity, the runtime executes tools with no ledger at all.
- Protocol.Advance: the loop is a state machine on values, not a class, since any number of workers share the databases; reads that only make a worker give up early are left out, so the model has every run of the program and possibly more.
- Protocol.ResumeRequest: looks up a recorded result and completes the approval in one step; the two are separate in the source, but a completed ledger row is final.
- ToolAnswers.UnrecordedOutputIsNotTold: the text about a lost lease leaves out the run id the source appends to it.
- Results.EveryResultIsExplained: an error text is only said to be one; which errors a handler raises is not modelled.
- Scheduler.Matches: takes parsed cron fields; parsing and validating the expression text is left out.
- Resilient.ResilientProvider.Generate: threads and timeouts of a request are calls that end in a retryable error; times are real numbers, not floating point.
- MemoryStore.Store.Create: checks of subject, content, confidence and visibility before a record exists are left out.
- TaskService.TaskService.ExecuteTask: takes what the runtime makes of a turn as a parameter; what a turn does to the run store is the run protocol.
- TaskService.TaskService.ClaimAndRun: the same.
- TaskService.TaskService.ResumeTask: the same, for a run that can be resumed; approval storage is taken to be there.
- Scheduler.SchedulerService.Execute: takes the ending of the execution as a parameter; executing a task is TaskService.
- Scheduler.SchedulerService.DispatchDue: takes the endings of all executions as a function of the trigger.
- TaskRuns.CompletedTaskNamesItsRun: one direction; the ways a task comes to name another run are listed by `TaskRuns.Crosses`, and `TaskRuns.SettledTaskNamesItsRunExactlyWhen` is exact for reconciliations.
- TaskService.TaskService.ReconcileRun: is the undisturbed case; the interleaved one, in three steps, is in TaskRuns.
- ContextWindow.FitMessages: the position of the summary inside its shrinking step is the one found before, not searched again by equality; an equal earlier item would have been found first.
- Previous response ids, model names and skill snapshots are part of the checkpoint format but not of the run protocol, where no decision reads them; of message metadata only the tenant is modelled; trace ids and other row timestamps are left out.
- append_message of the stores, which the runtime never calls.
- Heartbeat threads: renewals are environment steps, and a lost lease is an input of the steps that would notice it.
- The PostgreSQL twins of the approval, admin, memory and retention stores: the same transitions.
- TaskGraph.save and the import of legacy task files: they accept arbitrary rows, which no invariant survives.
- Custom summarizers, memory retrieval and its scoring: the built request takes the retrieved lines as given.
- Read-only admin lists, authorisation checks and pages.
- Gateways, the MCP client, the command line, logging, metrics and provider adapters: input and output over unseen libraries.
- Database engines, connections, schema creation and migrations: tables are maps and sequences, transactions atomic steps.
