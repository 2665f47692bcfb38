# Verified model of the agent daemon's durable core

This project models the parts of the daemon whose correctness spans processes, threads and
crashes, and proves what they guarantee. It has five parts.

* **Tool ledger** (`Artifacts`, `ToolLedger`, `LedgerRuns`, `LedgerAnswers`). The ledger decides after every crash
  whether a tool call may run, is replayed, or waits for an operator. Repositories are classes with
  the tables as fields; every method is proved equal to one transition of a table value, and the
  theorems are about arbitrary runs of those transitions, including crashes, restarts and artifact
  collection. The workspace is a map from path to contents.
* **Executions, slices and grants** (`Executions`, `ExecutionRuns`, `GraphStream`, `TurnScript`,
  `TurnLoop`, `Recovery`, `Sessions`). Every graph run ends its event stream in one of four ways, and the
  foreground loop runs against an environment that answers every slice, hook, finalizer and provider
  call in any way. Start-up reconciliation and the session services work on the
  same tables.
* **Context** (`Planner`, `Compaction`, `SummaryUnits`, `SummaryContent`, `JsonWidth`, `Guard`,
  `GuardRuns`). The window planner,
  compare-and-swap summary windows advanced by any number of unlocked workers, the map/reduce
  summariser with its recursive splitting and binary search, and the guard that removes closed tool
  cycles inside a turn.
* **Maintenance queue** (`Maintenance`). Leases, priorities, idempotent enqueue and backoff.
* **History pages and the batch worker** (`Utf8`, `History`, `BatchWorker`). Byte-budgeted pages with
  a cursor, truncation on character boundaries as section 3 of RFC 3629 defines them, and a bounded
  producer/consumer queue with a shutdown sentinel.

`Common` holds shared vocabulary. SHA-256 is injective by construction, compression is the identity,
and a database transaction is all or nothing. Identifiers that the program draws at random are fresh
numbers. The clock, hooks, models and tool effects are parameters that may answer anything.

## What the code does not do

Some properties one would expect turned out to be false. For each of them the code is kept as it is,
a lemma shows an input or a run that breaks the property, and the exact condition is proved where
there is one.

* `retry_once` does not license one retry. From the decision on the call is executed exactly as often
  as it is claimed before its first result (`LedgerRuns.RetryOnceLicensesClaims`): at most once if and
  only if at most one claim comes before that result, and any number of times is possible
  (`RetryOnceLicensesAnyNumber`). `AtMostOneExecution` therefore reads the policy that is stored now,
  and `PolicyIsSettled` says what that policy can be.
* A ledger row that is first created after its effect was recorded captures the changed files; the
  next claim executes again exactly if the recorded activities do not hold at either claim, some file
  is tracked and the tracked files are the same at both (`LedgerRuns.LateRowExecutesAgain`).
* A result larger than the artifact cap is cut and can never be replayed (`OversizedResultIsLost`). A
  result is also lost when it is deduplicated to an artifact whose file an aborted collection has
  removed (`AbortedCollectionBreaksPut`), or when a collection runs between the put and the reference
  of an artifact nobody else references (`CollectionBeforeReference`); `finish` then raises and the
  call stays open. `FinishStores` gives the exact condition.
* An attached execution cannot always be resumed: exactly if it is active and its policy is not
  terminal (`ExecutionRuns.ResumableExactly`, after a start `Recovery.ResumableAfterStart`).
  `StrandingCalls` names the two calls that leave an inactive one attached. One of them closes the
  intermediate slice of a goal: a crash before the review strands the session until it is discarded
  (`Recovery.CrashInGoalContinuationStrandsSession`).
* Start-up overwrites the stop reason of an interrupted approval but not its resume policy, so a plain
  resume is accepted (`ExecutionRuns.CrashDropsTheRequiredAction`; `PlainResumeExactly` is the exact
  condition). A crash between the close of a slice that stops for an approval and the pause behind it
  lets a plain resume through although nothing was answered, exactly if the policy before was to
  continue (`Recovery.CrashBeforePauseKeepsThePolicy`).
* A pause, the start of a slice and the finish of an open slice do not check that the execution is still
  attached; on valid tables they keep the invariant exactly if it is (`ExecutionRuns.RevivalExactly`). A
  pause that comes after a release can leave a session with two active executions
  (`LatePauseMakesTwoActive`, and `LatePauseBreaksOneActive` for a run). The invariant of all runs rests
  on the order of calls that `Ordered` states.
* `max_attempts` does not bound the claims of a job. If only the holder reports failures and nobody
  requeues the job, it is exceeded exactly if the lease of the last permitted attempt ran out and the
  job was claimed again (`Maintenance.AttemptsExceedExactly`; `ExpiryExceedsMaxAttempts` for a history).
* A job that has succeeded stays so exactly as long as nobody reports a failure of it
  (`Maintenance.SuccessLastsExactly`); `StaleFailureRevivesJob` is a history in which the first holder
  does so after its lease has passed on.
* The segment header is added after the fit test, so the input limit is not kept for a text that is
  really cut up: it has at least two parts (`SummaryUnits.OversizedIsCut`), and every segment but the
  last exceeds the limit (`SegmentsOverflow`). All batches that are sent fit exactly if every unit fits,
  or is taken apart into children for which the same holds, or has no text (`EverythingFitsExactly`);
  under every prompt that admits a letter, long messages break it (`LongMessageOverflows`).
* A guard pass that returns no update leaves an old retry flag standing and leads back to itself
  (`GuardRuns.StaleRetryLoops` has the exact condition, `StaleRetryExample` a whole run for any settings
  and projections that `Catches` describes, and `EverySettingIsCaught` says that they exist). What is
  proved of retries is that every compacting pass moves the journal cursor strictly forward.
* When `close` times out on a full queue the sentinel never arrives. Once the close is over the worker
  thread can end exactly if the sentinel was queued (`BatchWorker.ExitsExactly`); `CloseCanGiveUp` is a
  run for every capacity in which it was not, and `GivingUpStrandsTheWorker` what follows.
* `update_summary_cas` alone does not keep the watermark monotone: it does exactly if the new one is not
  smaller, and keeps the tables valid exactly for a later committed turn and the summary of all turns up
  to it (`Compaction.SwapExactly`, `SwapLowersWatermark`). Swaps that carry a compaction of a context
  that was really read always do (`SwapFoldsContiguousTurns`).

## Model

| member | source | states |
|---|---|---|
| `Artifacts.ArtifactStore.Put` | src/core/state/artifacts.py:38-65 | Cuts the content to the cap, returns a known digest's record without looking at its file, otherwise writes file and row; the whole new state |
| `Artifacts.ArtifactStore.AddReference` | src/core/state/artifacts.py:67-77 | Adds one owner, idempotently |
| `Artifacts.ArtifactStore.Get` | src/core/state/artifacts.py:79-91 | The stored bytes, or which of row, file and digest is wrong |
| `Artifacts.ArtifactStore.CollectGarbage` | src/core/state/artifacts.py:93-108 | The one-by-one deletion removes exactly the unreferenced artifacts and their files and counts them |
| `Artifacts.PutRoundTrips` | src/core/state/artifacts.py:38-91 | A put reads back if and only if it is within the cap and its digest was new or still has its file |
| `Artifacts.CollectionKeepsReferenced` | src/core/state/artifacts.py:93-108 | Completed or aborted collections and aborted puts keep every referenced artifact readable |
| `Artifacts.CollectionBeforeReference` | src/core/state/artifacts.py:38-108 | A collection between `put` and `add_reference` spares the artifact if and only if somebody references it already, for a new digest and for a deduplicated one |
| `Artifacts.CollectionsKeep` | src/core/state/artifacts.py:93-108 | Over any number of completed and aborted collections an artifact stays, and stays readable, exactly under the stated conditions |
| `Artifacts.AbortedCollectionBreaksPut` | src/core/state/artifacts.py:93-108 | A collection that dies before its commit makes a later identical put unreadable |
| `ToolLedger.DecodeEncode` | src/core/state/tool_ledger.py:359-364 | A serialised message decodes to itself and no proper prefix of it decodes at all |
| `ToolLedger.CaptureIsExact` | src/core/state/tool_ledger.py:366-388 | Two workspaces have the same captured state if and only if the tracked files have the same contents |
| `ToolLedger.ToolLedgerRepository.ReplayCompleted` | src/core/state/tool_ledger.py:49-88 | Refuses another identity, replays a terminal row's message, marks a lost result uncertain, otherwise says go on to claim |
| `ToolLedger.ToolLedgerRepository.Claim` | src/core/state/tool_ledger.py:90-170 | The answer and the new row for every status, policy, payload and workspace state |
| `ToolLedger.ToolLedgerRepository.ClaimNew` | src/core/state/tool_ledger.py:96-138 | The first claim captures the workspace and stops if applied activities already exist and do not all hold |
| `ToolLedger.ToolLedgerRepository.TryReconcile` | src/core/state/tool_ledger.py:326-347 | Adopts the recorded activities as the result if and only if there are any and all of them hold |
| `ToolLedger.ToolLedgerRepository.ResultPayload` | src/core/state/tool_ledger.py:210-217 | Inline payload first, then the artifact, with its storage errors |
| `ToolLedger.ToolLedgerRepository.Finish` | src/core/state/tool_ledger.py:172-208 | Stores the result inline or spills it into a referenced artifact, and the state after the call |
| `ToolLedger.ToolLedgerRepository.MarkRunningUncertain` | src/core/state/tool_ledger.py:219-225 | Turns exactly the running rows uncertain and counts them |
| `ToolLedger.ToolLedgerRepository.Resolve` | src/core/state/tool_ledger.py:258-298 | Which rows an operator can settle and what each action writes |
| `LedgerRuns.PolicyIsSettled` | src/core/state/tool_ledger.py:258-298 | Over every run the policy of a row is the original one or SAFE_RETRY |
| `LedgerRuns.AtMostOneExecution` | src/core/state/tool_ledger.py:90-225 | Over every run, a call whose row is neither SAFE_RETRY nor RECONCILE was told to execute at most once |
| `LedgerRuns.LicenceCountsClaims` | src/core/state/tool_ledger.py:90-298 | Over every run from a released row the call is executed exactly as often as it is claimed before its first result |
| `LedgerRuns.RetryOnceLicensesClaims` | src/core/state/tool_ledger.py:258-298 | The same from `retry_once` on, for every row an operator can decide about |
| `LedgerRuns.RetryOnceLicensesAnyNumber` | src/core/state/tool_ledger.py:266-274 | One `retry_once` and n crashes lead to n executions, of any open call |
| `LedgerRuns.SettledNeverExecutes` | src/core/state/tool_ledger.py:90-298 | A row with a result, readable or not, is never executed again over any run, later finishes included |
| `LedgerRuns.FinishStores` | src/core/state/tool_ledger.py:172-217 | Finish, with any collections between its put and its reference, followed by lookup is a round trip exactly for keepable results; when it raises, the row is as before |
| `LedgerRuns.HoldsIsStable` | src/core/state/tool_ledger.py:49-225 | No other step, collection and crash included, loses a stored result |
| `LedgerRuns.HeldIsReplayed` | src/core/state/tool_ledger.py:49-170 | A stored result is replayed to every matching claim and lookup and never executed again |
| `LedgerRuns.StoredResultIsFinal` | src/core/state/tool_ledger.py:49-225 | After any run without another finish of the call, claim and lookup replay that very message and nothing was executed |
| `LedgerRuns.FinishedCallIsReplayed` | src/core/state/tool_ledger.py:172-217 | The whole path through the artifact spill: finish, collections inside it included, then anything at all, then a replay |
| `LedgerRuns.OversizedResultIsLost` | src/core/state/artifacts.py:38-45 | Over every run without another finish of the call a result above the cap is never replayed, to a claim or a lookup, and nothing is executed |
| `LedgerRuns.AtomicStep` | src/core/state/tool_ledger.py:90-170 | Every event, crash and other calls included, keeps the tracked files in the captured state or in the effect of it |
| `LedgerRuns.AttemptLicenses` | src/core/state/tool_ledger.py:140-161 | A RECONCILE row licenses a new attempt only in the state it captured |
| `LedgerRuns.ReconciledEffectIsAtomic` | src/core/state/tool_ledger.py:90-170 | Over every behaviour of attempts, effects, crashes, restarts and other calls a RECONCILE call leaves the tracked files in s0 or f(s0) |
| `LedgerRuns.EffectHappensOnceFromTheStart` | src/core/state/tool_ledger.py:90-170 | If the row precedes the effect, s0 is the state before any effect, and execution is licensed only in s0 |
| `LedgerRuns.LateRowExecutesAgain` | src/core/state/tool_ledger.py:99-161 | For any recorded activities and any two workspaces: what the first two claims of a late row answer, and when the second executes, exactly |
| `LedgerAnswers.ReplayHasASource` | src/core/state/tool_ledger.py:49-170 | Over every run from before the call was known, a claim or lookup replays only what a finish reported, the notice of an operator who gave the open call up, or the recovery message of a RECONCILE call whose recorded activities, at least one, all held at this claim or an earlier one |
| `LedgerAnswers.ClaimExecutesExactly` | src/core/state/tool_ledger.py:90-170 | When a claim runs the tool, exactly: no row and no record, a released row, or a RECONCILE row in its captured state whose record does not hold |
| `LedgerAnswers.OpenOneShotStops` | src/core/state/tool_ledger.py:140-170 | An unfinished row that is neither SAFE_RETRY nor RECONCILE always stops for review and is left uncertain; another identity stops and writes nothing |
| `LedgerAnswers.ClaimLeavesTheRest` | src/core/state/tool_ledger.py:90-170 | A claim touches its own row only; a new row records the call as it was claimed, and a call told to run is running |
| `LedgerAnswers.RecoveredStaysRecovered` | src/core/state/tool_ledger.py:326-347 | A claim that adopts a record finishes the call: every later matching claim replays the recovery message |
| `LedgerAnswers.LookupAgreesWithClaim` | src/core/state/tool_ledger.py:49-121 | For a finished call lookup and claim agree in answer and tables; for an open one the lookup only says go on |
| `LedgerAnswers.AttemptsCountExecutions` | src/core/state/tool_ledger.py:90-170 | Over every run the attempt counter of a known call grows by exactly its executions |
| `LedgerAnswers.FinishRecordsTheOutcome` | src/core/state/tool_ledger.py:172-208 | Failed exactly for an error message, the state of the tracked files, the message inline exactly within the limit, and no other row touched |
| `LedgerAnswers.RestartEndsRunning` | src/core/state/tool_ledger.py:219-225 | After a start no call is running, no other row and no other column changed, and a second start changes nothing |
| `LedgerAnswers.GivenUpIsReplayed` | src/core/state/tool_ledger.py:258-298 | Over every run without a finish, what an operator gave up is replayed as the error notice and never executed; calls that are not open cannot be given up |
| `LedgerAnswers.RecordIsExact` | src/core/state/tool_ledger.py:399-413 | A recorded change holds exactly while the file is as the record found it |
| `Executions.ExecutionRepository.Begin` | src/core/state/executions.py:36-78 | Begins exactly on an idle session and attaches the new execution |
| `Executions.ExecutionRepository.GetPending` | src/core/state/executions.py:29-34 | The attached execution if its status is active |
| `Executions.ExecutionRepository.Resume` | src/core/state/executions.py:80-132 | Every refusal in order, otherwise a new grant with its counters reset |
| `Executions.ExecutionRepository.StartSlice` | src/core/state/execution_slices.py:15-32 | Inserts an open slice unless its number is taken, marks the execution running |
| `Executions.ExecutionRepository.FinishSlice` | src/core/state/execution_slices.py:34-119 | Closes the slice and adds its steps and usage to the execution |
| `Executions.ExecutionRepository.Pause` | src/core/state/executions.py:157-214 | Counts equal fingerprints and derives the resume policy |
| `Executions.ExecutionRepository.Discard` | src/core/state/execution_release.py:45-79 | Discards what is attached and releases the session together |
| `Executions.ExecutionRepository.Terminate` | src/core/state/execution_release.py:81-127 | Terminates and releases together or not at all |
| `Executions.ExecutionRepository.CompleteTurn` | src/core/state/execution_release.py:19-43 | Closes the slice, completes and releases in one transaction or not at all |
| `Executions.ExecutionRepository.MarkMissing` | src/core/state/execution_checkpoints.py:24-38 | A lost checkpoint leaves an active execution without one |
| `Executions.ExecutionRepository.MarkPausedRecovery` | src/core/state/execution_checkpoints.py:40-54 | An interrupted execution is paused for recovery, its policy untouched |
| `ExecutionRuns.BeginKeepsValid` | src/core/state/executions.py:36-78 | Begin succeeds if and only if nothing is attached; the new execution is pending with nothing used |
| `ExecutionRuns.ResumeKeepsValid` | src/core/state/executions.py:120-132 | A resume raises the grant index strictly, resets the counter and keeps the invariant |
| `ExecutionRuns.CloseConserves` | src/core/state/execution_slices.py:34-119 | Closing an open slice of the current grant conserves used steps as the sum over finished slices |
| `ExecutionRuns.FinishSliceKeepsValid` | src/core/state/execution_slices.py:34-75 | The finish of an open slice keeps the invariant and the attachment |
| `ExecutionRuns.SettleKeepsValid` | src/core/state/execution_release.py:45-127 | A terminal status with its release keeps the invariant and frees exactly the session that held it |
| `ExecutionRuns.CompleteTurnKeepsValid` | src/core/state/execution_release.py:19-43 | A completed turn keeps the invariant and frees its session |
| `ExecutionRuns.CallKeepsValid` | src/core/state/executions.py:36-214 | Every ordered store call keeps the invariant |
| `ExecutionRuns.RunsKeepValid` | src/core/state/executions.py:36-214 | In every ordered run a session has at most one active execution, it is the attached one, and step counters are conserved |
| `ExecutionRuns.RevivalExactly` | src/core/state/executions.py:157-214 | A pause, a slice start, the finish of an open slice and the recovery mark keep valid tables valid if and only if the execution is attached |
| `ExecutionRuns.LatePauseMakesTwoActive` | src/core/state/executions.py:157-214 | A pause of a released execution leaves two active ones in a session that has another |
| `ExecutionRuns.LatePauseBreaksOneActive` | src/core/state/executions.py:157-214 | A run from empty tables that ends with two active executions in one session |
| `ExecutionRuns.RepeatedPauseBlocksResume` | src/core/state/executions.py:157-214 | Whatever ordered calls run between the pauses, `repeated_pause_count` is the length of the last run of equal fingerprints, and from the second equal pause on a plain resume is refused |
| `ExecutionRuns.AfterPause` | src/core/agent/models.py:40-60 | The policy of a fresh pause decides a plain resume |
| `ExecutionRuns.PlainResumeExactly` | src/core/state/executions.py:80-118 | The rows on which a plain resume succeeds, exactly |
| `ExecutionRuns.ResumableExactly` | src/core/state/executions.py:80-132 | Some request resumes an attached execution if and only if it is active and its policy is not terminal; until then nothing else can begin, and a discard frees the session |
| `ExecutionRuns.PauseDecidesResume` | src/core/state/executions.py:80-118 | For every pause, any ordered calls elsewhere behind it, every value and either flag: after an approval a resume is accepted if and only if the value has a request id, after a recovery stop if and only if it is a recovery answer, after a final stop never, after a condition or an equal fingerprint if and only if the flag is set, otherwise always; and the error of each refusal |
| `ExecutionRuns.NothingToResume` | src/core/state/executions.py:80-100 | Without an active execution a resume is refused, whatever the request, by whether an inactive one is attached |
| `ExecutionRuns.ResumeGrantsAnew` | src/core/state/executions.py:119-132 | What an accepted resume writes and what it leaves: running, reason and usage cleared, policy, fingerprint and checkpoint kept, nobody else touched |
| `ExecutionRuns.CallKeepsIdentity` | src/core/state/executions.py:36-214 | In an ordered run session, thread and goal mode of an execution never change, and its grant index counts accepted resumes |
| `ExecutionRuns.CallReportsUsage` | src/core/state/execution_slices.py:34-119 | Its usage is the last one reported in the current grant |
| `ExecutionRuns.BeginCreates` | src/core/state/executions.py:36-78 | The new execution has its first grant with nothing used; all others are as before |
| `ExecutionRuns.SettledIsRecorded` | src/core/state/execution_release.py:19-127 | Completion, discard and termination differ in status and reason only: each leaves a checkpoint to clean up and a free session |
| `ExecutionRuns.StrandingCalls` | src/core/state/execution_slices.py:34-75 | The calls after which an active attached execution is attached and inactive, exactly |
| `ExecutionRuns.CrashDropsTheRequiredAction` | src/core/state/execution_checkpoints.py:40-54 | An answered approval that is interrupted by a crash can be resumed without an answer |
| `GraphStream.StreamGraphEvents` | src/core/streaming/events.py:28-374 | Every graph run ends its stream in one terminal item or one exception: which, after how many steps |
| `GraphStream.ToolLimitExactly` | src/core/streaming/events.py:187-232 | With a growing journal each new message is counted once, and the tool limit ends the run at the first snapshot that exceeds it |
| `GraphStream.EndingReasons` | src/core/streaming/events.py:233-361 | The five reasons of a pause, the three of an error, and the only exception that is passed on |
| `GraphStream.EndingHasItsCause` | src/core/streaming/events.py:233-374 | Of a run that stays within its tool limit each ending has exactly one cause, and carries the steps of all snapshots with the checkpoint, cursor, message and category of that cause |
| `TurnLoop.TurnExecutionLoop.StreamSlice` | src/core/agent/slices.py:58-201 | The exact tables after a slice: opened, and closed with its reason and steps except when the graph is done |
| `TurnLoop.SliceIsRecorded` | src/core/agent/slices.py:58-201 | Which status, reason, steps and usage a slice and its execution have after each kind of ending, read off the ending |
| `TurnLoop.TurnExecutionLoop.StreamSliceError` | src/core/agent/loop_errors.py:30-69 | A deterministic provider error releases the session, any other pauses the execution |
| `TurnLoop.TurnExecutionLoop.StreamException` | src/core/agent/loop_errors.py:71-174 | The exception exits close the bound slice and pause |
| `TurnLoop.TurnExecutionLoop.PauseEvent` | src/core/agent/loop_pause.py:20-74 | Pauses with the status of the reason or, without progress, for recovery |
| `TurnLoop.TurnExecutionLoop.AfterDone` | src/core/agent/loop.py:208-292 | Stop hook, at most one goal review, finalization |
| `TurnLoop.TurnExecutionLoop.AfterStream` | src/core/agent/loop.py:192-312 | Where each ending of a slice leads, with the tables in each case |
| `TurnLoop.TurnExecutionLoop.Iterate` | src/core/agent/loop.py:163-312 | One pass of the loop: its events, and whether the turn goes on or how it ends |
| `TurnLoop.TurnExecutionLoop.LeaveTurn` | src/core/agent/loop.py:314-347 | The pause and the exception handlers turn every way out of the loop into one terminal event, with tables and row to match |
| `TurnScript.ProgressShape` | src/core/agent/loop.py:163-312 | A turn that is still going asked for at most one review, and only for an unreviewed goal |
| `TurnScript.TellsShape` | src/core/agent/loop.py:112-347 | The script of a turn is one terminal event, after at most one review, within the slice limit |
| `TurnScript.TellsOnce` | src/core/agent/loop.py:112-347 | The environment determines the events of a turn and the number of its slices |
| `TurnScript.HeldForADecision` | src/core/agent/loop.py:293-312 | In every environment the first approval, recovery or budget pause behind step-limited slices ends the turn: no slice after it, that pause the only event, left with its checkpoint and cursor |
| `TurnScript.PausedSlice` | src/core/agent/loop.py:163-312 | For every slice that pauses: the turn goes on exactly if the pause needs no decision, slices and wall time are left and the client is connected, and otherwise is left with the stated reason |
| `TurnScript.DoneSlice` | src/core/agent/loop.py:208-292 | For every slice whose graph is done: reviewed exactly once and only if work is unfinished, otherwise ended by the first of stop hook, task service and finalizer that fails, or completed |
| `TurnScript.FailedSlice` | src/core/agent/loop.py:196-347 | An error item or an exception is the last slice, and the terminal event is that of the error |
| `TurnScript.JoinedPartsCanBeRead` | src/core/agent/loop_pause.py:35-39 | A pause fingerprint can be read back: for parts without a colon it determines those that are not empty, so equal fingerprints mean equal reason, checkpoint and cursor |
| `TurnLoop.TurnExecutionLoop.RunSlices` | src/core/agent/loop.py:112-347 | The bounded loop tells exactly the script of its environment; slices and steps, and how it is left, with the checkpoint and cursor of the last pause |
| `TurnLoop.TurnExecutionLoop.StreamLockedTurn` | src/core/agent/loop.py:88-355 | At most `max_auto_slices` slices, each closed once, at most one review, exactly one terminal event, the last one; the session is released exactly when completed or terminated; events and slice count are those of the script, and the row has the reason, status, policy, fingerprint, usage and steps that follow from how it ends. The first slice that stops for an approval, a recovery decision or the budget, behind slices that only met the step limit, is the last slice: its pause is the one event and the stored one |
| `Recovery.ReconcilingIsIdempotent` | src/core/maintenance/recovery.py:25-64 | A second reconciliation changes no row; no row stays running and active rows have their thread |
| `Recovery.ReconciledExactly` | src/core/maintenance/recovery.py:28-57 | Which rows a start changes and to what, and that it changes nothing but status, checkpoint and stop reason |
| `Recovery.TallyCounts` | src/core/maintenance/recovery.py:25-64 | The reported numbers are the numbers of interrupted, of lost and of released but uncleaned executions |
| `Recovery.ExecutionRecoveryCoordinator.ReconcileOne` | src/core/maintenance/recovery.py:28-57 | What one listed execution becomes; its cleanup is scheduled if it needs one, and no other |
| `Recovery.ExecutionRecoveryCoordinator.Reconcile` | src/core/maintenance/recovery.py:25-64 | Afterwards no execution is running, active ones have a checkpoint thread; cleanups are scheduled for exactly those that need one or had one; the reported counts; no healthy job is touched |
| `Recovery.ResumableAfterStart` | src/core/maintenance/recovery.py:25-64 | After a start an attached execution is resumable if and only if it was active with its checkpoint and a non-terminal policy |
| `Recovery.CrashInGoalContinuationStrandsSession` | src/core/agent/slices.py:203-219 | A crash after the intermediate goal slice leaves a session that can neither begin nor resume, only discard |
| `Recovery.CrashBeforePauseKeepsThePolicy` | src/core/agent/slices.py:96-127 | After a crash between the close of a slice and its pause a plain resume needs no answer if and only if the policy before was to continue |
| `Sessions.SessionService.PauseRuntime` | src/core/execution/lifecycle.py:71-87 | The exact pause when the runtime graph cannot be built |
| `Sessions.SessionService.UseGrant` | src/core/agent/request_stream.py:127-204 | A fresh grant is streamed, or paused with the exact row when the runtime cannot be built; how the session is left |
| `Sessions.SessionService.StreamTurn` | src/core/agent/request_stream.py:62-147 | The reply in every case: a turn is streamed exactly for an admitted request on an idle, unarchived session, with one terminal event, and tells its script; the session is free afterwards exactly if the turn completed or was terminated; otherwise nothing changes |
| `Sessions.SessionService.StreamResume` | src/core/agent/request_stream.py:149-204 | The reply in every case: a resume is streamed exactly if no hook and not the store refuses it, with one terminal event, and tells its script; without a runtime the execution waits for a conditional retry; otherwise nothing changes |
| `Sessions.RefusalsExactly` | src/core/agent/request_stream.py:62-204 | Which refusal a request meets, exactly, for every gate, hook, value and flag |
| `Sessions.SessionService.DiscardPending` | src/core/session/lifecycle.py:49-61 | The exact tables: afterwards the session is idle, the execution discarded and its cleanup queued |
| `Sessions.SessionService.ArchiveSession` | src/core/session/lifecycle.py:63-109 | The exact tables: nothing stays attached to an archived session; its cleanup is queued |
| `Maintenance.DelaysGrow` | src/core/maintenance/repository.py:120-143 | Delays are non-decreasing and bounded by the cap |
| `Maintenance.DelayDoubles` | src/core/maintenance/repository.py:120-143 | The delay starts at one second and doubles with every attempt until it reaches the cap |
| `Maintenance.NextIsFirst` | src/core/maintenance/repository.py:61-105 | The claimed job has the highest priority, among these the earliest creation, then the least id; it is the only one |
| `Maintenance.MaintenanceRepository.Enqueue` | src/core/maintenance/repository.py:27-59 | One row per dedupe key; a second enqueue changes nothing |
| `Maintenance.MaintenanceRepository.ClaimNext` | src/core/maintenance/repository.py:61-105 | Expires leases, then claims the least ready job by priority, creation and id, or says there is none |
| `Maintenance.MaintenanceRepository.Succeed` | src/core/maintenance/repository.py:107-118 | Marks the job succeeded |
| `Maintenance.MaintenanceRepository.Fail` | src/core/maintenance/repository.py:120-143 | Backs off, or fails the job on its last attempt |
| `Maintenance.MaintenanceRepository.RequeueFailed` | src/core/maintenance/repository.py:173-185 | Requeues the job of a key if and only if it has failed |
| `Maintenance.MaintenanceScheduler.RunOnce` | src/core/maintenance/scheduler.py:91-127 | One claimed job is handled and ends succeeded or failed by its handler; without a job nothing happens |
| `Maintenance.OneJobPerKey` | src/core/maintenance/repository.py:27-54 | Over every history a key keeps one row, the same one |
| `Maintenance.ClaimsAreSeparated` | src/core/maintenance/repository.py:61-143 | Between two claims of a job lies a reported failure or a full lease |
| `Maintenance.LeaseHolds` | src/core/maintenance/repository.py:61-105 | Until the lease ends the claimed row is held or has succeeded |
| `Maintenance.FailsOnTheLastAttempt` | src/core/maintenance/repository.py:61-143 | Under a single holder a job that keeps failing is failed exactly after its `max_attempts`-th claim |
| `Maintenance.CountedStep` | src/core/maintenance/repository.py:120-143 | The delay after the k-th claim is the capped power of two, and the last failure is final |
| `Maintenance.AttemptsStep` | src/core/maintenance/repository.py:61-143 | Which step counts an attempt, and that only the expiry of the last permitted attempt brings a job back without attempts left |
| `Maintenance.AttemptsExceedExactly` | src/core/maintenance/repository.py:61-143 | Over every history with the holder's own failures and no requeue, `max_attempts` is exceeded if and only if the last permitted attempt expired and the job was claimed again |
| `Maintenance.ExpiryExceedsMaxAttempts` | src/core/maintenance/repository.py:61-105 | For every job and lease a history of two claims, the second beyond `max_attempts` |
| `Maintenance.SuccessLastsExactly` | src/core/maintenance/repository.py:107-143 | A job stays succeeded over a history if and only if no failure of it is reported |
| `Maintenance.StaleFailureRevivesJob` | src/core/maintenance/repository.py:120-143 | A history from the empty queue in which the report of the first holder reopens a job the second has finished |
| `Planner.MakePlan` | src/core/context/budget.py:128-199 | The backward walk finds the longest suffix within turn and token limits and the totals of the plan |
| `Planner.PlanIsUnique` | src/core/context/budget.py:135-199 | The stated properties determine the plan |
| `Planner.PlanExists` | src/core/context/budget.py:128-199 | There is a plan for any settings and any turns |
| `Planner.SoftExactly` | src/core/context/budget.py:139-145 | The soft limit is the share of the hard one, at least one token, and no more than the trigger |
| `Planner.RawLimitExactly` | src/core/context/budget.py:153-165 | Which amounts of turns may be kept: those within the share of the window that leave room for the fixed messages and a summary below the limit that applies |
| `Planner.CompactsExactly` | src/core/context/budget.py:173-188 | A plan compacts exactly if there are too many turns or too many tokens of them, and then keeps as many as are allowed |
| `Planner.PlanIsSound` | src/core/context/budget.py:160-199 | Source and retained tokens add up to the total; the hard limit is exceeded exactly if everything together exceeds window less reserves, and the plan misses it exactly when the fixed part and the reserve do |
| `Planner.ReplanExactly` | src/core/context/budget.py:135-199 | When planning after a compaction compacts again, exactly |
| `Planner.FrugalSummarySettles` | src/core/context/compaction.py:125-151 | A summary no larger than what it replaced makes the next plan retain every turn |
| `Compaction.ContextStore.UpdateSummaryCas` | src/core/adapters/sqlite/summary_store.py:63-181 | Appends and activates a window if and only if the expected one is active |
| `Compaction.ContextStore.LoadSummarySource` | src/core/adapters/sqlite/summary_store.py:27-61 | The active summary and the committed turns behind its watermark |
| `Compaction.SwapFoldsContiguousTurns` | src/core/context/compaction.py:167-215 | A swap of a read context folds exactly the turns between the two watermarks, and only if nobody swapped since |
| `Compaction.SwapExactly` | src/core/adapters/sqlite/summary_store.py:63-181 | For any watermark and summary: when a swap does not lower the watermark and when it keeps the tables valid, exactly |
| `Compaction.SwapLowersWatermark` | src/core/adapters/sqlite/summary_store.py:63-181 | A swap of the active window that takes the watermark from 1 back to 0 |
| `Compaction.ReadContextIsComplete` | src/core/adapters/sqlite/summary_store.py:27-61 | Summary and turns of a context are together an unbroken prefix of the history |
| `Compaction.StepKeepsInvariant` | src/core/context/compaction.py:61-215 | Every step of commits and unlocked workers keeps windows and held contexts consistent |
| `Compaction.EveryTurnIsSummarisedOnceOrKept` | src/core/context/compaction.py:61-215 | In every interleaving the watermark never decreases and each turn is folded once, in order, or still in the tail |
| `Compaction.RaceHasOneWinner` | src/core/context/compaction.py:167-215 | Of any two workers that hold the same context, with any turn committed meanwhile, the first swap folds its turns, the second changes nothing and the new turn stays unsummarised |
| `Compaction.QuietSwapSettles` | src/core/context/compaction.py:125-151 | Without interference a frugal compaction needs no second one |
| `Compaction.ContextCompactionService.ApplyPlan` | src/core/context/compaction.py:167-215 | Summary call, swap, and who wins against concurrent commits and compactions |
| `Compaction.ContextCompactionService.PlanOrCompact` | src/core/context/compaction.py:78-151 | One round: the context itself if its plan compacts nothing, after a compaction a context with every turn committed at the reload, a refusal with its reason, or a strictly later watermark and a context to plan again |
| `Compaction.ContextCompactionService.EnsureForPrompt` | src/core/context/compaction.py:61-151 | Terminates under every finite interference before its loads, during its summary calls and between swap and reload; returns only contexts that can be sent and that cover at least what the caller came with: its source unchanged unless it was compacted, and then every turn committed at the reload; refuses only for the stated reason; one summary call suffices when nobody interferes |
| `Compaction.ContextCompactionService.SettledExactly` | src/core/context/compaction.py:78-124 | A context that is handed out fits the window together with the fixed messages, and has neither too many turns nor too much of them unless a summary call for these failed |
| `Compaction.ContextCompactionService.CompactCommitted` | src/core/context/compaction.py:153-165 | The background entry compacts exactly when its plan asks for it and moves the watermark only then |
| `SummaryUnits.FitsIsClosed` | src/core/context/budget.py:40-49 | The byte estimate makes fitting closed under cutting text off on either side |
| `SummaryUnits.GreedyIsShortest` | src/core/context/summary_executor.py:395-408 | For any closed fit test greedy cutting uses the fewest pieces |
| `SummaryUnits.ContextSummaryExecutor.LongestPrefix` | src/core/context/summary_executor.py:439-456 | The binary search finds the longest fitting prefix |
| `SummaryUnits.ContextSummaryExecutor.SplitOversizedUnit` | src/core/context/summary_executor.py:410-464 | Children are expanded recursively, a leaf is cut into numbered segments; terminates |
| `SummaryUnits.PartsAreGreedy` | src/core/context/summary_executor.py:439-456 | The raw parts are the text, each fits before its header, none could be longer |
| `SummaryUnits.PartsAreFewest` | src/core/context/summary_executor.py:439-456 | No other cut into fitting parts is shorter |
| `SummaryUnits.PartsFailExactly` | src/core/context/summary_executor.py:453-454 | The fixed-prompt error occurs if and only if some character does not fit alone |
| `SummaryUnits.OversizedIsCut` | src/core/context/summary_executor.py:436-456 | A text that does not fit is cut into at least two parts |
| `SummaryUnits.SegmentsOverflow` | src/core/context/summary_executor.py:457-464 | With its header every segment but the last exceeds the limit |
| `SummaryUnits.EverythingFitsExactly` | src/core/context/summary_executor.py:368-464 | Every batch fits if and only if every unit fits, or has children of which that holds, or has no text |
| `SummaryUnits.LongMessageOverflows` | src/core/context/summary_executor.py:436-464 | For every prompt that admits a letter, a long enough message is cut up and some batch sent for it exceeds the limit |
| `SummaryUnits.VanishesExactly` | src/core/context/summary_executor.py:368-437 | When expansion leaves nothing to send, exactly |
| `SummaryUnits.ContextSummaryExecutor.PartitionUnits` | src/core/context/summary_executor.py:368-408 | The batches are the expanded units in order, greedily packed; those of two or more units fit |
| `SummaryUnits.BatchesAreFewest` | src/core/context/summary_executor.py:395-408 | No other contiguous packing uses fewer batches |
| `SummaryUnits.ExpandKeepsKeys` | src/core/context/summary_executor.py:378-437 | Expansion keeps the order of the units and each unit's keys |
| `SummaryUnits.CoverageIsComplete` | src/core/context/summary_executor.py:148-152 | The batches cover exactly the expected keys |
| `SummaryUnits.BatchesAreAdmissible` | src/core/context/summary_executor.py:368-464 | Of what is sent only a lone segment can exceed the limit |
| `SummaryUnits.ContextSummaryExecutor.SourceUnits` | src/core/context/summary_executor.py:484-510 | One unit per group, one keyed child per message, messages without id keyed by their number |
| `SummaryUnits.SourceIsWellBuilt` | src/core/context/summary_executor.py:484-510 | Built units carry exactly the keys of their messages and no key without text |
| `SummaryUnits.ContextSummaryExecutor.InvokeParallel` | src/core/context/summary_executor.py:256-314 | One map call per batch, answers in batch order; no batches are an error |
| `SummaryUnits.ContextSummaryExecutor.ShrinkLevel` | src/core/context/summary_executor.py:229-254 | One level answers the packed batches of all summaries of the level before, in strictly smaller volume, or fails |
| `SummaryUnits.ContextSummaryExecutor.Reduce` | src/core/context/summary_executor.py:195-254 | At most nine levels of strictly shrinking volume; the answer is that of a final call that fits and numbers all remaining summaries |
| `SummaryUnits.ContextSummaryExecutor.Summarize` | src/core/context/summary_executor.py:89-193 | A source that fits is sent whole; otherwise the answer is reached from its packed batches through the levels; every failure has its stated reason, nothing to send exactly if the source vanishes, and incomplete coverage is never one |
| `SummaryContent.FormatIsAListing` | src/core/context/messages.py:32-37 | The text of a group is the numbered list of its messages: each stands in it complete, in order, at a stated place |
| `SummaryContent.ChildrenDetermineMessages` | src/core/context/summary_executor.py:484-510 | The children of a unit determine the texts of its messages |
| `SummaryContent.JoinIsAListing` | src/core/context/summary_executor.py:512-515 | The source of a batch is the list of the texts of its units, in order |
| `SummaryContent.WholeSourceHoldsEveryMessage` | src/core/context/summary_executor.py:89-141 | A source that is sent whole contains the text of every message of every group |
| `SummaryContent.EveryMessageIsSent` | src/core/context/summary_executor.py:368-464 | For every source, prompt and packing each message stands in a batch, or batches contain the headed pieces of a text in which it stands, with nothing between the pieces but their headers |
| `SummaryContent.NumberedIsAListing` | src/core/context/summary_executor.py:516-522 | The source of a final call is the numbered list of all summaries of its level |
| `SummaryContent.EverySummaryIsSent` | src/core/context/summary_executor.py:229-245 | Of a level that is reduced further every summary is sent behind its number |
| `SummaryContent.SummaryCallsEverything` | src/core/context/summary_executor.py:142-193 | A summary that went through map and reduce has called the model with every message of the source and with every summary of every level |
| `SummaryContent.HeadersDiffer` | src/core/context/summary_executor.py:457-464 | The headers of the pieces of one text tell them apart |
| `JsonWidth.WidthIsExact` | src/core/context/budget.py:31-49 | The width of a text is the length in bytes of its JSON form, escapes included |
| `JsonWidth.ListWidthIsExact` | src/core/context/budget.py:31-49 | The same for a list of texts |
| `JsonWidth.TokensRoundUp` | src/core/context/budget.py:31-49 | The estimate is one token for every started three bytes, and eight more |
| `Guard.ClosedToolCycles` | src/core/agent/context_guard.py:240-262 | The nested scan finds the cycles of the recursive definition |
| `Guard.CyclesAreClosed` | src/core/agent/context_guard.py:240-262 | Each cycle is a request with all results behind it and every call answered; cycles ascend from the cursor |
| `Guard.InTurnContextGuard.Select` | src/core/agent/context_guard.py:90-101 | The fewest oldest cycles predicted to reach the soft limit, or all eligible ones; the newest only above the hard limit |
| `Guard.InTurnContextGuard.Call` | src/core/agent/context_guard.py:66-210 | The update, error or empty answer for every projection and every reply of the summariser |
| `Guard.GuardAnswersExactly` | src/core/agent/context_guard.py:66-210 | When the guard raises, compacts, clears the flag or stays silent, by what can be seen before; what it compacts is enough and no more, or all there is; when it asks for another pass |
| `GuardRuns.GroupIsClosed` | src/core/agent/context_guard.py:253-260 | A mirrored request with its results is one closed cycle whatever follows |
| `GuardRuns.MirrorIsNew` | src/core/agent/context_guard.py:275-298 | What is mirrored into the journal are exactly the results of the last request, none journaled before |
| `GuardRuns.RemoveCycles` | src/core/agent/context_guard.py:147-151 | Removing the first k cycles by message id removes exactly those groups from the window, all of them present |
| `GuardRuns.PassKeepsPicture` | src/core/agent/context_guard.py:66-210 | A pass keeps window and journal in step, leaves the journal alone and moves the cursor strictly forward when it compacts |
| `GuardRuns.EventKeepsPicture` | src/core/agent/graph.py:55-148 | Every event of the graph, new inputs and resume instructions included, keeps window and journal in step |
| `GuardRuns.RunsStayWhole` | src/core/agent/graph.py:117-148 | In every run no tool result lacks its request, what is missing left as a whole closed cycle, the journal only grows |
| `GuardRuns.CyclesAreCompactedOnce` | src/core/agent/context_guard.py:87-101 | Each compaction advances the cursor; later compactions start behind earlier ones |
| `GuardRuns.CompactingPassesAreBounded` | src/core/agent/context_guard.py:178-210 | The journal bounds the number of compactions in a row |
| `GuardRuns.StaleRetryLoops` | src/core/agent/context_guard.py:80-145 | When a pass leads back to an unchanged state, exactly |
| `GuardRuns.StaleRetryExample` | src/core/agent/context_guard.py:80-238 | For any settings and any such projections a whole run, with projections the guard can compute, that a flag left by a compaction catches |
| `GuardRuns.EverySettingIsCaught` | src/core/agent/context_guard.py:163-177 | For all settings with room between the limits some usage report leads to such a run |
| `BatchWorker.BoundedBatchWorker.Submit` | src/core/common/batching.py:38-49 | Accepts if and only if open and not full |
| `BatchWorker.BoundedBatchWorker.BeginClose` | src/core/common/batching.py:57-60 | Only the first close goes on |
| `BatchWorker.BoundedBatchWorker.OfferSentinel` | src/core/common/batching.py:61-69 | Queues the sentinel when there is space, gives up at the deadline |
| `BatchWorker.BoundedBatchWorker.Run` | src/core/common/batching.py:72-108 | The worker loop under any interference: it loses nothing accepted, handles all of it, and ends only after the sentinel or a failing error callback |
| `BatchWorker.BoundedBatchWorker.Collect` | src/core/common/batching.py:81-96 | The inner loop fills one batch and stops at the sentinel |
| `BatchWorker.EventKeepsInvariant` | src/core/common/batching.py:38-108 | Every step keeps contents, batch bounds and counters |
| `BatchWorker.EveryItemIsHandledOnceInOrder` | src/core/common/batching.py:38-108 | In every interleaving each accepted item is handled once, in order, in batches of 1 to the batch size; acknowledgements equal dequeues; an exited worker handled everything |
| `BatchWorker.FlushMeansHandled` | src/core/common/batching.py:51-53 | When `flush` returns everything accepted has been given to the handler |
| `BatchWorker.QueuedSentinelDrains` | src/core/common/batching.py:72-108 | Once the sentinel is queued the worker always has a step and each one leaves less to do |
| `BatchWorker.GivingUpStrandsTheWorker` | src/core/common/batching.py:66-70 | After a timed-out close the worker drains the queue but never exits |
| `BatchWorker.CloseCanGiveUp` | src/core/common/batching.py:54-71 | For every capacity a run in which `close` times out on a full queue |
| `BatchWorker.ExitsExactly` | src/core/common/batching.py:54-108 | Once the close is over a worker that its error callback did not kill can still end if and only if the sentinel was queued |
| `Utf8.DecodeOfCut` | src/core/session/history.py:295-303 | Decoding any byte prefix with errors ignored gives exactly its whole characters |
| `Utf8.WholeCharsIsLongest` | src/core/session/history.py:295-303 | They are the longest prefix within the byte limit |
| `History.TruncationIsSafe` | src/core/session/history.py:291-307 | A cut field respects its limit, ends on a character boundary and keeps as much as the marker allows |
| `History.ProjectedFieldsFit` | src/core/session/history.py:264-288 | A projected field and an uncut argument list respect the limit; a cut argument list does exactly if its placeholder does |
| `History.ProjectedBlockExactly` | src/core/session/history.py:264-307 | A block without a field that is too long stays as it is; otherwise exactly that field is replaced and its original size recorded |
| `History.LongestFieldExactly` | src/core/session/history.py:310-329 | The search bound is exact: from the longest field on a projection cuts nothing, below it it cuts something |
| `History.ProjectionKeepsShape` | src/core/session/history.py:264-288 | Turn, messages and blocks stay in place, and the turn is marked |
| `History.LimitExactly` | src/core/adapters/sqlite/conversation_history.py:134-179 | A page holds what was requested, at least one turn and at most a hundred |
| `History.SessionHistoryQueryService.ProjectTurn` | src/core/session/history.py:264-288 | Every block of every message is projected, nothing else changes |
| `History.SessionHistoryQueryService.FitTurnToBudget` | src/core/session/history.py:241-261 | The turn itself, a projection at a limit whose successor is too large, or the minimal diagnostic; always within the budget |
| `History.SessionHistoryQueryService.BoundedTurnPage` | src/core/session/history.py:215-238 | As many newest turns as fit, at least one, and the cursor that follows |
| `History.SessionHistoryQueryService.ListHistory` | src/core/session/history.py:54-91 | The page for a cursor and a requested size, empty without a session |
| `History.AnswerShowsTheNewest` | src/core/session/history.py:215-238 | A page and what is left behind its cursor are together what was left before it; the cursor strictly decreases |
| `History.CursorListsEveryTurnOnce` | src/core/adapters/sqlite/conversation_history.py:134-179 | Following the cursor terminates and lists every visible turn once, in order, on pages within the budget |

## Left out

- Hashing switched off and directory snapshots in the ledger: they record only sizes or an entry count, so captured states would not identify contents.
- ToolLedger.ToolLedgerRepository.Finish: runs without others in between; collections between its put and its reference are covered by the state function `Db.Finish` and by the runs of `LedgerRuns`.
- ToolLedger.DecodeEncode: is about a framed byte encoding, which stands for the JSON text of messages.
- GraphStream.StreamGraphEvents: returns the terminal item only; token, reasoning, usage and step events are not modelled, nor is a failure inside the failure reporting itself.
- TurnLoop.TurnExecutionLoop.StreamSlice: takes the ending of each graph run as part of the environment. The branches of `slices.py` and `loop.py` for a stream without a terminal item are not modelled, because `stream_graph_events` never ends that way.
- Sessions.SessionService.StreamTurn: takes the verdict of the hooks and of the model check as parameters; the events of the diagnostic turn are not modelled.
- JSON text of messages and tables, SQL, zlib, SHA-256 and the exact wording of messages and prompts; a framed byte encoding stands for serialised tool messages.
- The `progress_summary` and `original_input` columns and the prompts passed to the slices of a turn.
- Turns without an execution store or a checkpoint thread, generator closing in the middle of a turn, and store calls that raise inside the error handlers.
- Telemetry, tracing, streaming of partial output, and the budget and run-context tokens around a turn.
- Hard deletion of sessions; the archived check outside the session lock.
- Rounding of floating-point ratios in the planner: ratios are reals.
- The fallback of `load_context` to cached recent messages, and message-level branch lineage: a session has one line of committed turns.
- Planner.MakePlan: takes one token count per turn, because counts of message lists are not additive in the code.
- Compaction.ContextCompactionService.EnsureForPrompt: takes the schedule of concurrent commits and compactions as a finite list.
- Guard.InTurnContextGuard.Call: takes the projected input tokens as any number, whichever of usage report or estimate it came from.
- GuardRuns.EventKeepsPicture: assumes fresh message ids, one result per call in call order, and plain messages in inputs; partially executed tool batches are not modelled.
- SummaryUnits.ContextSummaryExecutor.InvokeParallel: runs the map calls in order and stops at the first failure; completion order and cancellation of threads are not modelled.
- SummaryUnits.ContextSummaryExecutor.SplitOversizedUnit: assumes that the source is the only variable part of a prompt and has no lone surrogates.
- History.SessionHistoryQueryService.ListHistory: takes messages as already projected blocks; redaction, reasoning previews and decoding of stored messages are not modelled, and turns are values although the code edits a private deep copy.
- History.SessionHistoryQueryService.FitTurnToBudget: takes the JSON size of a turn as any function for which the minimal diagnostic is within the budget.
- BatchWorker.BoundedBatchWorker.Run: takes the interference around each queue access as a finite list; `None` as a submitted item, which the code would read as its sentinel, is excluded by the item type.
- The daemon, RPC, TUI, tools themselves, configuration and provider-error classification: little to prove.
