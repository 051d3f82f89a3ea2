# The Machine: durable runs, plans, policy and evidence

This project models the part of The Machine that decides what an autonomous run may do to a repository and
what is known after a crash, and proves its promises.

- **The durable run** (`Journal`, `Worktrees`, `CompiledPlans`, `RunProtocol`, `RunSteps`, `Operators`, `Runtime`,
  `RunLoop`, `Runs`, `RunTheorems`). A run has a manifest, an append-only event log with a prepared-transaction file,
  an approval log, a cancellation flag, a plan snapshot and a git worktree. Every durable step of
  the store may be the process's last (`Crashed`) or fail with the process going on (`Thrown(StoreFailure)`), git and
  process calls may throw, and between any two store calls of the executor operators cancel, approve and reject: each of
  their calls loads the manifest, acts, and journals its copy as separate steps.
  `RunProtocol.RunOk` is the invariant of every manifest in memory or on disk, `WorldOk` that of everything that only
  grows: landings (passages of HEAD through the checkpoint step), worker starts, approvals. The methods of `Runtime`,
  `RunLoop` and `Runs` follow the orchestrator statement by statement and keep both, however they end. `Runs.History`
  composes them into every history, and `RunTheorems` reads the repository's promises off the invariant.
- **The plan compiler** (`TaskGraph`, `PlanCompiler`, `CanonicalJson`): the checks, the depth-first order, recompilation
  of a snapshot, and the canonical form behind the digest.
- **The patch policy** (`Globs`, `Policy`) and the plans drafted under it (`Kaizen`).
- **Side models**: run leases (`Leases`), the command tokenizer (`CommandLine`), evidence bundles (`Evidence`), bounded
  redaction (`Redaction`), the concurrency state machine (`Concurrency`).

`Exit<T>` is `Done`, `Thrown` or `Crashed`. `View(store)` is the manifest the next process to load the run will see, and
`After(a, b)` says that nothing durable at `a` is undone at `b`: events, approvals, landings and starts are never lost,
and neither are attempts, nor checkpoints and completed tasks, unless an operator's late copy made the persisted manifest
forget some; `lost` tells the two apart. `closing` records the steps by which a process ends a run, each when it has
succeeded.

## What is not true of the code

Each of these is stated and proved with its exact condition or its witness.

- `saveManifest` checks nothing (packages/agent-runtime/src/engine/state.ts:160-162). `finalize` calls it with the
  executor's copy, so a cancellation or approval journalled after the executor's last entry is overwritten and the next
  append repeats an event number (`Journal.SaveManifestIsSafeIffCurrent`, `RunLoop.Save`). A save while a
  transaction is pending is lost (`Journal.SaveUnderPendingTransactionIsLost`).
- `cancel` and `recordApproval` load, act and append as three calls. With entries of others in between the append is refused
  unless a cancellation is on record; then the old copy becomes the persisted manifest, and what it did not know is
  forgotten, attempts whose workers ran and completed tasks included, although the log has their events
  (`Journal.LateAppendKeepsWhatItLoaded`; exactly when: `Operators.ForgettingIff`; witnesses:
  `RunTheorems.LateCancellationForgetsAttempt`, `RunTheorems.LateCancellationForgetsCheckpoint`).
- A save leaves the number as it is, so an operator's copy from before it is accepted after it, without any cancellation, and
  puts the old status back (`Journal.SaveDoesNotRefuseOlderCopies`).
- HEAD is committed before completion is journalled, so a crash or an exception in between leaves it ahead of the last
  persisted checkpoint (`RunTheorems.LastCheckpointIsHeadIff`, `Runs.DieAfterCommit`); it is exactly there
  in a run that neither interrupted (`Runs.Run`, `RunLoop.Execute`).
- An exception while finalising turns a completed run into a failed one: the call stands inside the `try` block
  (packages/agent-runtime/src/engine/orchestrator.ts:541-558). A run with all its checkpoints that reaches its end is
  completed exactly when its own entry, both saves, the analysis entry, the evidence and the removal of a worktree that is
  not kept succeed, and has failed exactly when one of them does not (`RunLoop.Execute`, `RunLoop.Finish`).
- An `after` approval belongs to a task and a phase, not to a patch, so one given before the patch was staged counts until
  somebody decides the gate again (`RunSteps.OldApprovalStillCounts`, `Runtime.RunExecution.AcceptWork`).
- `resume` rolls an attempt that is under way back before it asks for the lease, so a resume that the lease refuses has reset
  the holder's worktree and outdated its copy (`Runs.Resume`, `Runs.Continue`; what the holder keeps: `Runs.ResumeBeside`).
- The shell characters refused outside quotes include newline and carriage return, but white space is recognised first, so
  they separate words instead (`CommandLine.LineBreaksSeparate`; the other eight are refused: `CommandLine.ShellSyntaxIsRefused`).
- `.*` does not match line terminators, so `**` has its plain meaning only on one-line paths
  (`Globs.PlainMeaningIffOneLine`).
- Assigning to the key "__proto__" creates no member, so canonical forms, digests and redacted records do not see it
  (`CanonicalJson.ProtoIsInvisible`, `Redaction.Mirrors`).
- With more than one slot, a second request in state ACQUIRED replaces the holder, whose slot is never released
  (`Concurrency.IdleMeansFreeIffOneSlot`).
- Leases exclude other owners exactly as long as the clock does not step back behind an earlier reading
  (`Leases.ExclusiveIffClockForward`, `Leases.SteppedBackClockBreaksExclusion`).

## Model

| member | source | states |
|---|---|---|
| Runs.History | packages/agent-runtime/src/engine/orchestrator.ts:123-386 | every history of a run (one `run` of a plan or of a compiled plan, then any number of resumes, store calls of operators whose calls may stay open across them, and snapshot edits; each process may die anywhere, every file operation may fail, and a resume may find the lease taken) leaves a recoverable journal and a sound manifest and world at every moment, unless a final save overwrote another process's entry; from any moment to any later one nothing durable is undone (attempts and completed tasks unless a late copy forgot some), whatever landed or started had its gate taken up in between, and once a cancellation is on record nothing lands or starts; HEAD is within policy and no attempt's worker was started twice; and unless a late copy forgot checkpoints, at most one landing per executor process has no persisted checkpoint |
| Runs.HistoryStep | packages/agent-runtime/src/engine/orchestrator.ts:207-386 | one step of a history keeps all that, and only a resume can add a landing without a checkpoint |
| Runs.RejectionsBlockHistories | packages/agent-runtime/src/engine/orchestrator.ts:449-510 | over a whole history: if a task's gate read as rejected at one moment and was not approved up to a later one, nothing landed for the task in between, in however many processes, and if it is the `before` gate, no worker started for it |
| Runs.CompletedTasksStay | packages/agent-runtime/src/engine/orchestrator.ts:429-433 | completed tasks keep their whole record, and checkpoints stay, from any moment of a history to any later one up to which no operator's late copy forgot a checkpoint |
| Runs.AttemptsStay | packages/agent-runtime/src/engine/orchestrator.ts:583-604 | attempts stay on record from any moment of a history to any later one up to which no operator's late copy forgot an attempt |
| Runs.CancelledHistoriesStandStill | packages/agent-runtime/src/engine/orchestrator.ts:430-433 | once a cancellation is on record, no later moment of a history has another landing or worker start |
| Runs.HistoryStaysWithin | packages/agent-runtime/src/engine/orchestrator.ts:879-917 | what a persisted state means for the worktree: `worktree.head` differs from the base only as the policy allows, within `maxChangedFiles` (which no compiled plan has below one) for each checkpoint and executor process |
| RunTheorems.HeadIsWithinPolicy | packages/agent-runtime/src/engine/orchestrator.ts:879-917 | whatever failed, crashed or resumed, every path at which HEAD differs from the base, added, changed or removed, is allowed by the plan, by one of its tasks, and by no denied list; none is below `.git`, `.machine` or `node_modules`, and none is a dependency file, at any depth, unless the plan permits it; at most `maxChangedFiles` paths per passage through the checkpoint step |
| RunTheorems.ChangedFilesPerCheckpoint | packages/agent-runtime/src/engine/orchestrator.ts:905-917 | with one landing per checkpoint (no crash, no exception) the changed paths are at most `maxChangedFiles` times the checkpoints |
| RunTheorems.ChangedFilesPerProcess | packages/agent-runtime/src/engine/orchestrator.ts:207-250 | with crashes and exceptions the changed paths are at most `maxChangedFiles` times the checkpoints and executor processes together |
| RunTheorems.WorkerStartsAreBounded | packages/agent-runtime/src/engine/orchestrator.ts:576-604 | however often a run crashes and is resumed, and whatever operators' late copies put back, no attempt's worker is started twice and the task budgets bound the starts; unless a late copy forgot attempts, no more workers are started than attempts are recorded |
| RunTheorems.LandingIsWithinPolicy | packages/agent-runtime/src/engine/policy.ts:103-184 | one checkpoint moves only permitted paths, within the file limit |
| RunTheorems.HistoryIsWithinPolicy | packages/agent-runtime/src/engine/orchestrator.ts:879-917 | the policy bound for every prefix of the checkpoint history |
| RunTheorems.WorkersStartOnLandedWork | packages/agent-runtime/src/engine/orchestrator.ts:449-582 | every worker attempt starts with index and working files equal to the tree the earlier landings made and no ignored files, so nothing unvalidated or unpermitted is visible to it; and for a task with a `before` gate only with an approval as the latest record read |
| RunTheorems.CompletedTasksAreEarned | packages/agent-runtime/src/engine/orchestrator.ts:852-930 | a task is recorded as completed only with an attempt in which every declared validation ran and ended as its plan asks (exit code, time, size, standard output and error, spelled out), whose last recorded decision allowed exactly the change that moved HEAD, and whose `before` or `after` gate was read with an approval as the latest record |
| RunTheorems.RequiredChangesMoveHead | packages/agent-runtime/src/engine/policy.ts:167-173 | a completed task that requires changes moved HEAD to a different tree |
| RunTheorems.CompletedTasksAreAPrefix | packages/agent-runtime/src/engine/orchestrator.ts:417-540 | completed tasks are exactly a prefix of the order, one checkpoint each in order, and a completed run has completed them all |
| RunTheorems.AttemptsFollowDependencies | packages/agent-runtime/src/engine/orchestrator.ts:435-447 | a task with an attempt has all its dependencies completed |
| RunTheorems.AttemptsKeepToTheBudget | packages/agent-runtime/src/engine/orchestrator.ts:573-598 | attempts are numbered from 1 without gap, the first is made by the task's own worker or else the primary, attempt k by worker (k-1) mod n of the duplicate-free list, and there are never more than `maxAttempts` (3 by default), over all resumes |
| RunTheorems.EveryWorkerIsTried | packages/agent-runtime/src/engine/orchestrator.ts:59-65 | n attempts reach each of the n workers |
| RunTheorems.FailedRunsTriedEveryWorker | packages/agent-runtime/src/engine/orchestrator.ts:576-721 | a run fails only by an exception or with one task's whole budget spent, and then every worker the budget had room for was tried |
| RunTheorems.CountersAreTotals | packages/agent-runtime/src/engine/orchestrator.ts:178-189 | in every persisted manifest `attemptCount` is the total of all attempt lists and `completedTaskCount` the number of checkpoints and of completed tasks |
| RunTheorems.EndsHaveCauses | packages/agent-runtime/src/engine/orchestrator.ts:430-461 | a cancelled run was asked to cancel, and so was one that lost anything to a late copy; a stopped one met a changed plan or a rejection of the very gate of the task it stopped at, a waiting one has a gate |
| RunTheorems.HeadIsCheckpointIff | packages/agent-runtime/src/engine/orchestrator.ts:905-928 | HEAD is a recorded checkpoint's commit exactly when no later landing moved the tree |
| RunTheorems.LastCheckpointIsHeadIff | packages/agent-runtime/src/engine/orchestrator.ts:905-928 | the last persisted checkpoint was recorded by a landing, and its commit is HEAD's exactly when no landing after that one moved the tree |
| RunTheorems.LateCancellationForgetsAttempt | packages/agent-runtime/src/engine/orchestrator.ts:282-291 | witness: with the start of an attempt between a cancellation's load and its append, every call is accepted and the journal is settled, but the attempt whose worker ran is no longer on record |
| RunTheorems.LateCancellationForgetsCheckpoint | packages/agent-runtime/src/engine/orchestrator.ts:282-291 | witness: with a completion in between, the completed task and its checkpoint are no longer on record, though the event is |
| Runs.Resume | packages/agent-runtime/src/engine/orchestrator.ts:207-250 | a resume by a process that knows only the disk keeps everything sound and undoes nothing; a terminal run and a foreign snapshot leave the worktree untouched; when the lease refuses, an attempt that was under way has already been rolled back and closed on disk, and without one nothing was touched; without the lease HEAD, landings, starts and counts stay; after a recorded cancellation no worker starts and nothing lands; nothing lands for a task whose gate stands rejected throughout, and no worker starts if it is the `before` gate |
| Runs.RecompileSnapshot | packages/agent-runtime/src/engine/orchestrator.ts:220-222 | the snapshot is taken for the run's plan exactly when it compiles to the recorded digest, and an unmodified snapshot always does |
| Runs.ForeignIffAnotherPlan | packages/agent-runtime/src/engine/orchestrator.ts:220-237 | under a digest that tells the run's plan apart, an accepted snapshot is refused exactly when its plan is another one |
| Runs.CompiledPlansRecompile | packages/agent-runtime/src/engine/plan.ts:300-389 | a compiled plan is accepted again and compiles to itself |
| Runs.StopForPlanChange | packages/agent-runtime/src/engine/orchestrator.ts:222-237 | a changed plan stops the run; tasks, checkpoints and worktree are not touched |
| Runs.RecoverInterruptedTask | packages/agent-runtime/src/engine/orchestrator.ts:1007-1044 | after recovery no task is in flight, and nothing durable was undone; a task that was in flight is rolled back to HEAD and closed on disk, and otherwise the worktree is not touched |
| Runs.RollBack | packages/agent-runtime/src/engine/orchestrator.ts:1022-1042 | an interrupted attempt is rolled back to HEAD, closed as retryable, and the recovery is the last journal entry |
| Runs.CloseInterrupted | packages/agent-runtime/src/engine/orchestrator.ts:1023-1036 | the running attempt becomes a failed one and the task is pending again |
| Runs.Continue | packages/agent-runtime/src/engine/orchestrator.ts:248-401 | recovery, then the lease, then execution: the lease is asked for only after the rollback, so its refusal leaves the attempt under way rolled back and closed |
| Runs.ResumeBeside | packages/agent-runtime/src/engine/orchestrator.ts:207-401 | a resume that the lease refuses while an executor works on the run: the executor's memory stays sound, nothing it persisted is forgotten, HEAD, landings and starts stay; but an attempt under way is rolled back under it, and its next entry is then taken exactly if a cancellation is on record |
| Runs.DieAfterCommit | packages/agent-runtime/src/engine/orchestrator.ts:905-919 | a checkpoint killed after the commit: wherever it may be reached with something staged, this leaves HEAD ahead of every persisted checkpoint |
| Runs.Run | packages/agent-runtime/src/engine/orchestrator.ts:123-205 | a rejected plan creates nothing; a run that ends without a failure of the runtime ends with one landing per checkpoint and HEAD at the last one; completed means every task has its checkpoint |
| Runs.CompileInput | packages/agent-runtime/src/engine/orchestrator.ts:123-127 | a compiled input is taken as it is, any other is compiled, and a rejected one refused |
| Runs.FirstDisk | packages/agent-runtime/src/engine/orchestrator.ts:139-191 | the first persisted manifest is sound and is what the next process reads |
| Runs.Outside | packages/agent-runtime/src/engine/orchestrator.ts:270-386 | one store call of an operator between processes keeps the run sound |
| Runs.EditSnapshot | packages/agent-runtime/src/engine/state.ts:220-224 | editing, replacing or removing the plan snapshot changes nothing else |
| RunLoop.Execute | packages/agent-runtime/src/engine/orchestrator.ts:388-563 | from a quiet manifest to a pause or the end: sound however it ends; a refused lease leaves everything as it was; once it is taken, an exception that leaves this call leaves the run failed; of a run that reached its end the steps that succeeded tell the outcome (`StepsTell`): one with all its checkpoints is completed exactly when its own entry, both saves, the analysis entry, the evidence and the removal of a worktree that is not kept all succeeded, and has failed exactly when one of them did not; a completed run's entry is in the log; HEAD is at the last checkpoint unless an exception failed the run; nothing started or landed after a recorded cancellation; it stops at a gate only if that gate read as rejected in this process; and nothing lands for a task whose gate was rejected when it began and was not approved since, nor does a worker start if it is the `before` gate |
| RunLoop.EndTells | packages/agent-runtime/src/engine/orchestrator.ts:528-558 | a run that got through the loop is completed exactly when every step of the `try` block succeeded, and otherwise the handler's entry is among the steps and the run has failed |
| RunLoop.ThrowTells | packages/agent-runtime/src/engine/orchestrator.ts:542-558 | a run whose loop threw has failed, with none of the closing steps of the `try` block done |
| RunLoop.EndExecution | packages/agent-runtime/src/engine/orchestrator.ts:528-558 | the same outcome from the end of the loop on, with the entries of completion and failure in the log |
| RunProtocol.RejectedTaskLandsNothing | packages/agent-runtime/src/engine/orchestrator.ts:449-510 | if the latest record for a task's gate is a rejection when a process takes the run up, and no approval of it is added, that process lands nothing for the task, and starts no worker for it if it is the `before` gate |
| RunProtocol.RejectedSinceIff | packages/agent-runtime/src/engine/orchestrator.ts:958-967 | a gate read as rejected since some moment exactly if it stood rejected then or a rejection of it was added since |
| RunLoop.Finish | packages/agent-runtime/src/engine/orchestrator.ts:541-558 | `finalize` stands inside the `try` block. If the loop had ended: with every step of `finalize` done the run stays what it was; if a step did not succeed, the handler fails the run, also a completed one; evidence that cannot be written and a worktree that cannot be removed always make it. An exception that leaves this call leaves the run failed in memory |
| RunLoop.ExecuteTasks | packages/agent-runtime/src/engine/orchestrator.ts:406-540 | the run ends in a terminal status or waits at a gate; completed means one checkpoint per task and its own entry in the log |
| RunLoop.CompleteRun | packages/agent-runtime/src/engine/orchestrator.ts:528-540 | the entry of a completed run is journalled; one that is refused finds the holder stale, with the run completed in memory |
| RunLoop.RunTasks | packages/agent-runtime/src/engine/orchestrator.ts:417-526 | the loop meets tasks in order, each as the one after the completed ones; running out of tasks means all are completed |
| RunLoop.Visit | packages/agent-runtime/src/engine/orchestrator.ts:417-525 | one pass of the loop skips a completed task and works on the one after the completed ones; the branches for a task missing from plan or manifest are unreachable |
| RunLoop.RunTask | packages/agent-runtime/src/engine/orchestrator.ts:430-525 | one task either advances by exactly one checkpoint and one landing for the same commit, or leaves both as they were in a status that ends or pauses the run |
| RunLoop.Admit | packages/agent-runtime/src/engine/orchestrator.ts:430-461 | cancellation first, then dependencies (the incomplete branch is shown unreachable), then the `before` gate, read after this call began |
| RunLoop.BeforeGate | packages/agent-runtime/src/engine/orchestrator.ts:449-461 | work goes on only with the gate absent or with an approval as the latest record read in this call; it stops only with a rejection as the latest one |
| RunLoop.StopBefore | packages/agent-runtime/src/engine/orchestrator.ts:451-461 | a rejected `before` gate stops the run at this task |
| RunLoop.HeldGate | packages/agent-runtime/src/engine/orchestrator.ts:463-499 | prepared changes are taken up only with an approval as the latest record read in this call; the branch without an attempt is unreachable |
| RunLoop.RejectHeldChanges | packages/agent-runtime/src/engine/orchestrator.ts:466-489 | rejected changes are rolled back and the attempt is closed |
| RunLoop.HeldChanges | packages/agent-runtime/src/engine/orchestrator.ts:463-510 | prepared changes land, end the run, or free the task for another attempt |
| RunLoop.Finalize | packages/agent-runtime/src/engine/orchestrator.ts:1046-1106 | with operators at work before each save and while evidence is written: it returns with all its steps done, or throws at the first that fails, and it does stop before evidence that cannot be written and a worktree that cannot be removed; the saves persist the manifest, or are lost to a pending transaction, or overwrite another process's entry, which is exactly when the journal is left unrecoverable |
| RunLoop.Save | packages/agent-runtime/src/engine/state.ts:160-162 | one save: safe unless another process journalled since this holder's last entry, and then the journal is left unrecoverable; one that breaks off did the same or nothing |
| RunLoop.SaveIsSafeUnlessBehind | packages/agent-runtime/src/engine/state.ts:160-162 | a saved disk recovers exactly when its numbering matches or a transaction is pending |
| RunLoop.JournalKaizen | packages/agent-runtime/src/engine/orchestrator.ts:1069-1094 | no entry without a proposal; otherwise one entry, a refused one being followed by another attempt; it throws only if the store refused that too |
| RunLoop.Conclude | packages/agent-runtime/src/engine/orchestrator.ts:1069-1104 | analysis entry where the plan asks for it, evidence, second save, and removal of a completed run's worktree, in that order, up to the first that fails |
| RunLoop.WriteEvidence | packages/agent-runtime/src/engine/orchestrator.ts:1096-1097 | throws exactly if the evidence cannot be written |
| RunLoop.RemoveWorktree | packages/agent-runtime/src/engine/orchestrator.ts:1100-1104 | throws exactly if the worktree cannot be removed |
| RunLoop.HandleException | packages/agent-runtime/src/engine/orchestrator.ts:542-558 | an exception fails the run in memory, journal and saves, in that order, up to the first that fails |
| Runtime.RunExecution.Journal | packages/agent-runtime/src/engine/state.ts:226-276 | a journal call with other processes in between: on return the holder's manifest is persisted and the event is the log's last; a holder that knew all attempts and checkpoints still does, however it ends |
| Runtime.RunExecution.JournalEnd | packages/agent-runtime/src/engine/state.ts:226-276 | the same for an entry that ends the run: recorded as done exactly when it is journalled, and refused only to a holder the store does not admit |
| Runtime.RunExecution.Others | packages/agent-runtime/src/engine/orchestrator.ts:270-386 | any number of store calls by operators, in calls begun before or now, keep the run sound, undo nothing durable, and take no attempt or checkpoint away unless a late copy does |
| Runtime.RunExecution.CancellationRequested | packages/agent-runtime/src/engine/orchestrator.ts:985-990 | true exactly when a cancellation is on record |
| Runtime.RunExecution.MarkCancelled | packages/agent-runtime/src/engine/orchestrator.ts:992-1005 | run and task are cancelled and journalled |
| Runtime.RunExecution.ApprovalDecision | packages/agent-runtime/src/engine/orchestrator.ts:958-983 | approved, rejected or waiting exactly as the latest record for the task and phase says, or its absence, at a length of the log reached in this call; not required exactly if the task has no such gate |
| Runtime.RunExecution.RequestApproval | packages/agent-runtime/src/engine/orchestrator.ts:969-982 | the run waits at the gate |
| Runtime.RunExecution.FailAttempt | packages/agent-runtime/src/engine/orchestrator.ts:932-956 | the attempt is closed, the worktree is back at HEAD, and the failure is journalled |
| Runtime.RunExecution.FailAndMaybeCancel | packages/agent-runtime/src/engine/orchestrator.ts:621-630 | a cancelled attempt cancels the run, any other leaves it running |
| Runtime.RunExecution.BeginAttempt | packages/agent-runtime/src/engine/orchestrator.ts:577-604 | a new attempt starts only without a recorded cancellation, on a clean worktree |
| Runtime.RunExecution.StartAttempt | packages/agent-runtime/src/engine/orchestrator.ts:595-604 | the attempt is persisted and journalled, and no worker was ever started for it |
| Runtime.RunExecution.PushAttempt | packages/agent-runtime/src/engine/orchestrator.ts:582-598 | the next number, the next worker in the rotation, and the count |
| Runtime.RunExecution.RecordStart | packages/agent-runtime/src/engine/orchestrator.ts:740-749 | what the worker finds is HEAD as the landings left it, and the reading with which its task was taken up |
| Runtime.RunExecution.ConsumeEvents | packages/agent-runtime/src/engine/orchestrator.ts:739-768 | a throw in the event stream is a retryable worker failure; an abort needs a recorded cancellation |
| Runtime.RunExecution.RunWorker | packages/agent-runtime/src/engine/orchestrator.ts:724-795 | success is reported only by a worker that completed with success while no cancellation is on record |
| Runtime.RunExecution.TryWorker | packages/agent-runtime/src/engine/orchestrator.ts:606-630 | an unregistered or failing worker closes the attempt as retryable |
| Runtime.RunExecution.InspectWork | packages/agent-runtime/src/engine/orchestrator.ts:632-634 | the attempt records the staged difference between HEAD and index |
| Runtime.RunExecution.Decide | packages/agent-runtime/src/engine/orchestrator.ts:635-642 | the decision recorded is the policy's decision on the staged patch |
| Runtime.RunExecution.DecideAndJournal | packages/agent-runtime/src/engine/orchestrator.ts:635-653 | the decision is journalled before any counter moves |
| Runtime.RunExecution.ApplyPolicy | packages/agent-runtime/src/engine/orchestrator.ts:632-664 | a disallowed patch closes the attempt and lands nothing |
| Runtime.RunExecution.AfterGate | packages/agent-runtime/src/engine/orchestrator.ts:666-685 | changes pass exactly with the `after` gate absent or an approval as the latest record read in this call |
| Runtime.RunExecution.StopRejected | packages/agent-runtime/src/engine/orchestrator.ts:673-684 | a rejected patch closes the attempt and stops the run |
| Runtime.RunExecution.RunTaskValidations | packages/agent-runtime/src/engine/validation.ts:4-52 | one result per validation, in order, cut short only by an abort; each has passed exactly if the exit code is the expected one (0 by default), the process neither timed out nor was cancelled nor truncated, the required text is somewhere in its standard output, and the excluded one nowhere in its standard error |
| RunProtocol.JudgeProcess | packages/agent-runtime/src/engine/validation.ts:25-35 | the judgement of one process result, spelled out |
| Runtime.RunExecution.RunAndRecord | packages/agent-runtime/src/engine/orchestrator.ts:826-850 | the results are kept on the attempt and journalled |
| Runtime.RunExecution.Validate | packages/agent-runtime/src/engine/orchestrator.ts:814-877 | no failure means every declared validation ran and passed |
| Runtime.RunExecution.Commit | packages/agent-runtime/src/engine/git.ts:209-223 | HEAD moves to the index only on evidence that the index may land |
| Runtime.RunExecution.EvidenceIsEnough | packages/agent-runtime/src/engine/orchestrator.ts:852-907 | full validation, an allowed decision on the staged difference and an open gate are that evidence |
| Runtime.RunExecution.CommitAttempt | packages/agent-runtime/src/engine/orchestrator.ts:905-907 | the commit belongs to this attempt, its results and its last decision |
| Runtime.RunExecution.CompleteTask | packages/agent-runtime/src/engine/orchestrator.ts:909-918 | the task is completed with the landed commit |
| Runtime.RunExecution.Land | packages/agent-runtime/src/engine/orchestrator.ts:905-929 | commit, then completion, then journal; dying in between leaves HEAD one landing ahead |
| Runtime.RunExecution.RecheckAndLand | packages/agent-runtime/src/engine/orchestrator.ts:879-929 | what lands is the tree the validations left, if the policy still allows it |
| Runtime.RunExecution.AbandonAttempt | packages/agent-runtime/src/engine/orchestrator.ts:805-812 | cancelled before validation: run and attempt closed, worktree back at HEAD |
| Runtime.RunExecution.ValidateAndCheckpoint | packages/agent-runtime/src/engine/orchestrator.ts:797-930 | lands and completes, or closes the attempt with nothing landed; never lands once a cancellation is on record |
| Runtime.RunExecution.AttemptOnce | packages/agent-runtime/src/engine/orchestrator.ts:576-698 | one pass of the loop: a landing, a retryable failure within the budget, or the end of the task |
| Runtime.RunExecution.AcceptWork | packages/agent-runtime/src/engine/orchestrator.ts:632-697 | policy, gate, validation and checkpoint in that order; an `after` approval given before the patch was staged is enough unless somebody decides the gate again |
| Runtime.RunExecution.ExhaustTask | packages/agent-runtime/src/engine/orchestrator.ts:700-720 | the last failure becomes the run's |
| Runtime.RunExecution.ExecuteTask | packages/agent-runtime/src/engine/orchestrator.ts:565-722 | terminates on the budget; completed, or cancelled, waiting, stopped, or failed with the whole budget spent |
| Operators.Append | packages/agent-runtime/src/engine/state.ts:226-276 | accepted exactly if the holder's number is the persisted one or a cancellation is on record: then the holder's whole manifest is persisted under the next number and the log's last event has that number, the run, and the kind, task and worker given; otherwise it throws with nothing persisted; or a file operation fails or the process dies, with one or the other |
| Operators.Load | packages/agent-runtime/src/engine/state.ts:213-218 | returns what a completed recovery shows and changes nothing of it |
| Operators.Cancel | packages/agent-runtime/src/engine/orchestrator.ts:270-294 | a call that nothing interrupts: a terminal run is left alone; otherwise the request is on record, and tasks, checkpoints and decisions stay |
| Operators.RecordApproval | packages/agent-runtime/src/engine/orchestrator.ts:350-386 | a call that nothing interrupts: an unknown task is refused; otherwise the record is the latest for its task and phase |
| Operators.StartCall | packages/agent-runtime/src/engine/orchestrator.ts:282-283 | load and test: the call holds the manifest it loaded, or is over |
| Operators.Act | packages/agent-runtime/src/engine/orchestrator.ts:284-377 | the request or the record is durable, and in the call's copy, or the call breaks off with or without it; a recorded decision is the latest for its task and phase |
| Operators.JournalCall | packages/agent-runtime/src/engine/orchestrator.ts:286-384 | the copy is journalled, however old, exactly if the store admits it, and becomes the persisted manifest; the event names the request, or the decision and its task |
| Operators.OperatorMove | packages/agent-runtime/src/engine/orchestrator.ts:270-386 | every step of every operator is one of these, or its death |
| Operators.OperatorStepKeepsKept | packages/agent-runtime/src/engine/orchestrator.ts:270-386 | whatever operators do between the executor's store calls, however late: landings, starts, approvals, the log, policy and the soundness of the persisted manifest survive; attempts, checkpoints and completed tasks do unless a late copy forgets some |
| Operators.OperatorStepKeepsSound | packages/agent-runtime/src/engine/orchestrator.ts:270-386 | the same with an executor that holds its own copy |
| Operators.ForgettingIff | packages/agent-runtime/src/engine/state.ts:238-264 | the persisted manifest forgets attempts exactly when an operator journals a copy that counts fewer of them, and checkpoints and completed tasks exactly when it counts fewer checkpoints; either happens only to a holder whose number is behind, under a recorded cancellation |
| Operators.OnAppendTrail | packages/agent-runtime/src/engine/state.ts:246-275 | wherever an append by any holder stops, recovery shows the disk before or after it |
| CompiledPlans.FindTask | packages/agent-runtime/src/engine/orchestrator.ts:418 | finds a task with the id whenever there is one |
| RunProtocol.WorkerIds | packages/agent-runtime/src/engine/orchestrator.ts:59-65 | no repetition, never empty, and no named worker missing |
| RunProtocol.WorkersInOrder | packages/agent-runtime/src/engine/orchestrator.ts:59-65 | the task's own worker stands first if it has one, the primary otherwise, and all stand in the order of their first mention |
| RunProtocol.RunOkGrows | packages/agent-runtime/src/engine/orchestrator.ts:388-563 | a sound manifest stays sound while approvals, landings and starts are added |
| RunProtocol.PersistKeepsSound | packages/agent-runtime/src/engine/state.ts:226-276 | persisting the executor's copy under the next number, or nothing, keeps memory, disk and the operators' copies sound |
| RunProtocol.SaveKeepsSound | packages/agent-runtime/src/engine/state.ts:160-162 | a save under the persisted number keeps them sound if the copy is level with what is persisted |
| RunProtocol.AttemptsBackIff | packages/agent-runtime/src/engine/orchestrator.ts:595-604 | of two manifests of a run, the later has no more attempts exactly if it counts as many |
| RunProtocol.CompletedBackIff | packages/agent-runtime/src/engine/orchestrator.ts:909-918 | of two manifests of a run, the later has completed no more exactly if it has as many checkpoints |
| RunProtocol.FrontStepKeepsSound | packages/agent-runtime/src/engine/orchestrator.ts:565-722 | a sound update of the task under way keeps the whole run sound |
| RunProtocol.CompletionKeepsSound | packages/agent-runtime/src/engine/orchestrator.ts:909-918 | completing the task under way on a landing keeps the whole run sound |
| RunProtocol.StatusStepKeepsSound | packages/agent-runtime/src/engine/orchestrator.ts:407-541 | status changes keep the run sound |
| RunSteps.RequestedIsSound | packages/agent-runtime/src/engine/orchestrator.ts:969-975 | waiting at a gate keeps the invariant |
| RunSteps.GateRead | packages/agent-runtime/src/engine/orchestrator.ts:965-967 | the gate is open exactly with an approval as the latest record read, and rejected exactly with a rejection |
| RunSteps.OldApprovalStillCounts | packages/agent-runtime/src/engine/orchestrator.ts:965-966 | an approval older than the reading opens the gate as long as nobody decides it again, whatever patch is staged |
| RunSteps.StartedIsSound | packages/agent-runtime/src/engine/orchestrator.ts:584-598 | a new attempt within the budget keeps the invariant |
| RunSteps.InspectedIsSound | packages/agent-runtime/src/engine/orchestrator.ts:633-634 | recording the patch keeps the invariant |
| RunSteps.ValidatedIsSound | packages/agent-runtime/src/engine/orchestrator.ts:827-832 | recording results keeps the invariant |
| RunSteps.InFlightIsSound | packages/agent-runtime/src/engine/orchestrator.ts:814 | entering validation or checkpointing keeps the invariant |
| RunSteps.FailedAttemptIsSound | packages/agent-runtime/src/engine/orchestrator.ts:939-943 | closing an attempt keeps the invariant |
| RunSteps.DecidedIsSound | packages/agent-runtime/src/engine/orchestrator.ts:642 | recording a decision keeps the invariant |
| RunSteps.CompletedIsSound | packages/agent-runtime/src/engine/orchestrator.ts:909-918 | completion on a landing of the same attempt keeps the invariant |
| RunSteps.ExhaustedIsSound | packages/agent-runtime/src/engine/orchestrator.ts:700-710 | failing a task with its budget spent keeps the invariant |
| RunSteps.CancelledAtIsSound | packages/agent-runtime/src/engine/orchestrator.ts:992-998 | cancelling keeps the invariant, given a recorded request |
| RunSteps.StoppedAtIsSound | packages/agent-runtime/src/engine/orchestrator.ts:451-461 | stopping at a rejection keeps the invariant |
| RunSteps.RejectedAfterIsSound | packages/agent-runtime/src/engine/orchestrator.ts:466-489 | stopping with the attempt closed keeps the invariant |
| RunSteps.RecoveredIsSound | packages/agent-runtime/src/engine/orchestrator.ts:1016-1037 | recovery keeps the invariant |
| RunSteps.AbandonedIsSound | packages/agent-runtime/src/engine/orchestrator.ts:805-812 | closing a cancelled attempt keeps the invariant |
| RunSteps.StoppedIsSound | packages/agent-runtime/src/engine/orchestrator.ts:673-683 | stopping after a closed attempt keeps the invariant |
| RunSteps.InFlightIsFront | packages/agent-runtime/src/engine/orchestrator.ts:1007-1021 | only the task after the completed ones, and the current one, can be in flight |
| RunSteps.CompletedPrefix | packages/agent-runtime/src/engine/orchestrator.ts:429 | the test that skips completed tasks skips exactly those before the front one |
| RunSteps.AllCompleted | packages/agent-runtime/src/engine/orchestrator.ts:528-531 | every task is completed exactly when each has its checkpoint |
| RunSteps.DependenciesAreCompleted | packages/agent-runtime/src/engine/orchestrator.ts:436-447 | the front task's dependencies are completed, so the failing branch is unreachable |
| RunSteps.InitialIsOk | packages/agent-runtime/src/engine/orchestrator.ts:139-190 | the first manifest satisfies the invariant |
| RunSteps.StartKeepsSound | packages/agent-runtime/src/engine/orchestrator.ts:740-749 | recording a worker start on landed work keeps the world sound |
| RunSteps.LandingKeepsSound | packages/agent-runtime/src/engine/orchestrator.ts:907 | recording a backed landing keeps the world sound |
| RunSteps.FailingIsSound | packages/agent-runtime/src/engine/orchestrator.ts:542-548 | an exception may fail the run in any phase |
| RunSteps.PlanChangeIsSound | packages/agent-runtime/src/engine/orchestrator.ts:222-229 | stopping for a changed plan is sound in any phase |
| Journal.AppendIsCrashAtomic | packages/agent-runtime/src/engine/state.ts:181-275 | whatever step an append died at and however many recoveries died after it, the first recovery that completes shows exactly the disk before it or exactly the disk after it |
| Journal.AppendCrashPoint | packages/agent-runtime/src/engine/state.ts:246-275 | the transaction write is the point of no return |
| Journal.RecoverySurvivesCrash | packages/agent-runtime/src/engine/state.ts:181-211 | a recovery that died anywhere is finished by the next with the same result |
| Journal.RecoveryConverges | packages/agent-runtime/src/engine/state.ts:181-211 | any number of crashes inside recovery changes nothing about its result |
| Journal.HoldersKeepTheJournal | packages/agent-runtime/src/engine/state.ts:226-276 | any holders, however stale, in any order: the log stays gap-free and duplicate-free from 1, no old event changes, `nextSequence` is one past the end, and exactly the accepted calls add an event each |
| Journal.SaveManifestIsSafeIffCurrent | packages/agent-runtime/src/engine/state.ts:160-162 | a save keeps the journal consistent exactly when the holder's number is the persisted one; otherwise the next append repeats a number |
| Journal.SaveUnderPendingTransactionIsLost | packages/agent-runtime/src/engine/state.ts:160-162 | a save under a pending transaction is lost |
| Journal.LateAppendKeepsWhatItLoaded | packages/agent-runtime/src/engine/state.ts:226-276 | whatever any holders journalled between a load and the append of that copy, the append is accepted exactly if nothing was accepted in between or a cancellation is on record; the log keeps every event, and tasks and checkpoints become what they were at the load |
| Journal.LastAccepted | packages/agent-runtime/src/engine/state.ts:256-266 | after any calls of any holders the persisted manifest is the copy of the one accepted last |
| Journal.SaveDoesNotRefuseOlderCopies | packages/agent-runtime/src/engine/state.ts:238-244 | a save is not numbered: a copy loaded before it is accepted after it without any cancellation and puts the old status back, while after an entry it is refused |
| Journal.LatestApproval | packages/agent-runtime/src/engine/state.ts:291-300 | the last record for the task and phase, or none if there is none |
| Journal.FindInLog | packages/agent-runtime/src/engine/state.ts:193 | finding an event by number is indexing a well-formed log |
| Journal.RunStateStore.CreateRun | packages/agent-runtime/src/engine/state.ts:150-158 | refuses an existing run; a crash or a failing file operation leaves no manifest without its plan snapshot |
| Journal.RunStateStore.SaveManifest | packages/agent-runtime/src/engine/state.ts:160-162 | replaces the manifest and checks nothing; one that breaks off replaced it or not |
| Journal.RunStateStore.RawEvents | packages/agent-runtime/src/engine/state.ts:164-179 | returns the log exactly when it is well formed |
| Journal.RunStateStore.RecoverPendingEventTransaction | packages/agent-runtime/src/engine/state.ts:181-211 | ends as one completed recovery, or breaks off on its trail; a refused transaction changes nothing |
| Journal.RunStateStore.LoadManifest | packages/agent-runtime/src/engine/state.ts:213-218 | a fresh copy of what recovery shows |
| Journal.RunStateStore.AppendEvent | packages/agent-runtime/src/engine/state.ts:226-276 | accepted, with an event of the given kind, task and worker; stale; or broken off, by a crash or a failing file operation, on the trail of recovery or append; only `nextSequence` of the holder moves |
| Journal.RunStateStore.CommitTransaction | packages/agent-runtime/src/engine/state.ts:261-267 | the four durable steps in order, or the trail up to the one that failed |
| Journal.RunStateStore.ReadEvents | packages/agent-runtime/src/engine/state.ts:278-281 | the recovered log |
| Journal.RunStateStore.RecordApproval | packages/agent-runtime/src/engine/state.ts:283-285 | one record more, or none after a crash or a failing write |
| Journal.RunStateStore.RequestCancellation | packages/agent-runtime/src/engine/state.ts:302-308 | the request is on record, or as before after a crash or a failing write |
| Worktrees.Worktree.StageAndInspect | packages/agent-runtime/src/engine/git.ts:165-191 | reports exactly the paths at which HEAD and index differ, and the ignored files it removes |
| Worktrees.Worktree.ResetWorktree | packages/agent-runtime/src/engine/git.ts:193-196 | index and working files equal HEAD, nothing ignored is left |
| Worktrees.Worktree.CommitCheckpoint | packages/agent-runtime/src/engine/git.ts:209-223 | HEAD becomes the index and its commit is returned; on a crash or throw it may have moved or not |
| Worktrees.Worktree.MoveHead | packages/agent-runtime/src/engine/git.ts:209-222 | a new commit exactly when something is staged |
| Worktrees.ListedPathsParse | packages/agent-runtime/src/engine/git.ts:121-127 | for paths in normal form the parsed list names exactly the listed set |
| Worktrees.ParsedPathsMean | packages/agent-runtime/src/engine/git.ts:121-127 | exactly the entries with something in them, trimmed and with forward slashes |
| Worktrees.DiffMeans | packages/agent-runtime/src/engine/git.ts:165-191 | a path is in the difference of two trees exactly if one has it and the other has not, or with other contents; no difference means the same tree |
| Worktrees.SameCommitSameTree | packages/agent-runtime/src/engine/git.ts:209-223 | two points of one history with the same commit have the same tree |
| Leases.NoTwoOwnersHold | packages/agent-runtime/src/engine/state.ts:333-383 | over every run of calls with a clock that does not run backwards, two owners that both hold an unexpired, unreleased lease are the same owner |
| Leases.ExclusiveIffClockForward | packages/agent-runtime/src/engine/state.ts:333-362 | over all runs of calls with readings up to `last`, at most one owner holds an unexpired lease at `now` exactly if `now` is not before `last` |
| Leases.StepKeepsExclusive | packages/agent-runtime/src/engine/state.ts:333-383 | every call keeps an unexpired lease the one in the file |
| Leases.DisplacedOwnerIsPowerless | packages/agent-runtime/src/engine/state.ts:364-383 | a displaced owner can neither renew nor remove the new owner's lease |
| Leases.RenewingOwnersKeepTheLease | packages/agent-runtime/src/engine/state.ts:364-376 | an owner who renews before its lease runs out keeps it through every run of calls of others, each of whose acquisitions is refused in its name |
| Leases.SteppedBackClockBreaksExclusion | packages/agent-runtime/src/engine/state.ts:338-343 | at every moment before the reading of a takeover, the displaced owner and the new one both hold unexpired leases |
| Leases.LeaseStore.AcquireLease | packages/agent-runtime/src/engine/state.ts:333-362 | refused exactly while another owner's lease is unexpired |
| Leases.LeaseStore.RenewLease | packages/agent-runtime/src/engine/state.ts:364-376 | refused to any owner but the file's |
| Leases.LeaseStore.ReleaseLease | packages/agent-runtime/src/engine/state.ts:378-383 | removes only the caller's own lease |
| TaskGraph.GraphIsSoundAndComplete | packages/agent-runtime/src/engine/plan.ts:253-280 | no error exactly when every dependency is known and the graph is acyclic; then the order is a permutation with every dependency before its dependents |
| TaskGraph.ReportedCyclesAreReal | packages/agent-runtime/src/engine/plan.ts:268-270 | every reported cycle is a dependency walk that ends on an id it already contains |
| TaskGraph.NoErrorsMeansSound | packages/agent-runtime/src/engine/plan.ts:253-280 | the order holds each task once, after its dependencies |
| TaskGraph.AcyclicMeansNoErrors | packages/agent-runtime/src/engine/plan.ts:253-280 | a known, acyclic graph is never refused |
| TaskGraph.OrderedMeansAcyclic | packages/agent-runtime/src/engine/plan.ts:276 | an order with dependencies first excludes cycles |
| TaskGraph.EnteringShrinks | packages/agent-runtime/src/engine/plan.ts:272-274 | the recursion terminates on the unmarked ids |
| TaskGraph.ValidateGraph | packages/agent-runtime/src/engine/plan.ts:253-280 | the imperative walk refines its specification |
| TaskGraph.GraphVisitor.VisitTask | packages/agent-runtime/src/engine/plan.ts:265-277 | one recursive visit refines its specification |
| TaskGraph.GraphVisitor.CheckReferences | packages/agent-runtime/src/engine/plan.ts:255-261 | exactly the unknown and self references are reported |
| PlanCompiler.CompileMachinePlan | packages/agent-runtime/src/engine/plan.ts:300-389 | compiles exactly the accepted plans: every check, distinct ids, known and acyclic dependencies; the result is the plan with its repository path resolved from the directory given, and the digest is that of this plan |
| PlanCompiler.RepositoryPathWalks | packages/agent-runtime/src/engine/plan.ts:369-379 | where a compiled plan's repository is: "." is the plan's own directory, a segment its entry, ".." from an entry the directory again, "../.." two levels up, and "/" and its ".." the root |
| PlanCompiler.RepositoryPathConcatenates | packages/agent-runtime/src/engine/plan.ts:369-379 | a longer path is followed from where the shorter one leads, and an absolute one leads to the same place from everywhere |
| PlanCompiler.AcceptedPlansCompile | packages/agent-runtime/src/engine/plan.ts:367-388 | an accepted plan's order holds each task once, after its dependencies, and each task has a validation |
| PlanCompiler.RecompilingChangesNothing | packages/agent-runtime/src/engine/plan.ts:370-388 | compiling a compiled plan again, from anywhere, gives the same plan, order and digest |
| PlanCompiler.ResolvingIsIdempotent | packages/agent-runtime/src/engine/plan.ts:372-374 | a resolved path is absolute and resolves to itself |
| PlanCompiler.ResolvingWalks | packages/agent-runtime/src/engine/plan.ts:370-372 | from a resolved directory a segment leads to its entry, ".." leads back, "." stays, and the root is its own parent |
| PlanCompiler.ResolvingConcatenates | packages/agent-runtime/src/engine/plan.ts:370-372 | resolving a path is resolving its parts one after the other |
| PlanCompiler.ResolvingFromUnresolved | packages/agent-runtime/src/engine/plan.ts:370-372 | the directory to resolve from need not be resolved itself |
| PlanCompiler.RelativePathsStayInside | packages/agent-runtime/src/engine/plan.ts:54-63 | an accepted path never leads out of the directory it is resolved from |
| PlanCompiler.RelativePathMeans | packages/agent-runtime/src/engine/plan.ts:54-63 | accepted exactly with something in it, not absolute, without a NUL, and with no segment of two dots between slashes of either kind |
| PlanCompiler.ValidIdMeans | packages/agent-runtime/src/engine/plan.ts:14 | the ids accepted, by length and alphabet |
| PlanCompiler.IdsAreSegments | packages/agent-runtime/src/engine/plan.ts:44-52 | an accepted id is one proper path segment |
| PlanCompiler.FilledMeans | packages/agent-runtime/src/engine/plan.ts:38-43 | a text is filled exactly if some character is not white space |
| PlanCompiler.AcceptedPlansAreBounded | packages/agent-runtime/src/engine/plan.ts:15-16 | 1 to 1,000 tasks with 1 to 100 validations each, and every `dependsOn` names a task |
| PlanCompiler.ValidateTask | packages/agent-runtime/src/engine/plan.ts:182-227 | an error exactly for a task that breaks a rule |
| PlanCompiler.ValidateTasks | packages/agent-runtime/src/engine/plan.ts:353-365 | an error exactly for a broken or repeated task |
| PlanCompiler.ValidateCommand | packages/agent-runtime/src/engine/plan.ts:87-134 | an error exactly for a broken validation command |
| PlanCompiler.ValidateCommands | packages/agent-runtime/src/engine/plan.ts:207-209 | an error exactly if some command is broken |
| PlanCompiler.ValidateWorker | packages/agent-runtime/src/engine/plan.ts:136-180 | an error exactly for a broken worker |
| PlanCompiler.ValidateWorkers | packages/agent-runtime/src/engine/plan.ts:324-334 | an error exactly for a broken or repeated worker |
| PlanCompiler.ValidatePolicy | packages/agent-runtime/src/engine/plan.ts:229-251 | an error exactly for a broken policy |
| PlanCompiler.ValidatePathPatterns | packages/agent-runtime/src/engine/plan.ts:65-72 | an error exactly if some pattern leaves the repository |
| PlanCompiler.ValidateStrategy | packages/agent-runtime/src/engine/plan.ts:336-349 | an error exactly for a malformed worker id |
| PlanCompiler.ValidateHead | packages/agent-runtime/src/engine/plan.ts:307-351 | an error exactly if a plan-level check fails |
| PlanCompiler.SetSizeTellsRepeats | packages/agent-runtime/src/engine/plan.ts:333 | comparing set size with list length finds exactly the repeats |
| CanonicalJson.CanonicalIffSame | packages/agent-runtime/src/engine/plan.ts:282-294 | two JSON values have the same canonical form exactly when they differ in nothing but key order, outside members called "__proto__" |
| CanonicalJson.CanonicalIsIdempotent | packages/agent-runtime/src/engine/plan.ts:282-290 | canonicalising twice is canonicalising once |
| CanonicalJson.CanonicalIsSame | packages/agent-runtime/src/engine/plan.ts:282-290 | the canonical form says the same as the value |
| CanonicalJson.DigestIffSame | packages/agent-runtime/src/engine/plan.ts:296-298 | key order never changes a digest, and a collision-free hash loses nothing else |
| CanonicalJson.ProtoIsInvisible | packages/agent-runtime/src/engine/plan.ts:285-286 | adding a member "__proto__" does not change the digest |
| CanonicalJson.BeforeIsTotalOrder | packages/agent-runtime/src/engine/plan.ts:286 | the order in which sorted keys are listed is total, array indices first |
| CanonicalJson.BeforeMeans | packages/agent-runtime/src/engine/plan.ts:286 | array indices come before all other keys, by their numeric value; the other keys come by code unit |
| CanonicalJson.IndexKeyMeans | packages/agent-runtime/src/engine/plan.ts:286 | the keys a JavaScript object lists first: decimal without leading zeros, up to 2^32 - 2 |
| Globs.GlobCompilerPreservesMeaning | packages/agent-runtime/src/engine/policy.ts:23-51 | for every glob and path the emitted expression is well formed and matches exactly when the glob does, with `**` confined to one line; on one-line paths that is the plain meaning |
| Globs.PlainMeaningIffOneLine | packages/agent-runtime/src/engine/policy.ts:39-41 | exactly the paths without line terminators are matched by the plain meaning under every glob |
| Globs.EmittedReadsBack | packages/agent-runtime/src/engine/policy.ts:27-51 | the emitted text parses to the intended pieces, so every metacharacter is escaped |
| Globs.PiecesMean | packages/agent-runtime/src/engine/policy.ts:31-51 | the pieces match as the direct matcher says |
| Globs.LinesDoNotMatter | packages/agent-runtime/src/engine/policy.ts:39-41 | on one-line paths the confinement of `**` makes no difference |
| Globs.GlobToRegExp | packages/agent-runtime/src/engine/policy.ts:31-51 | the loop emits the specified expression |
| Globs.MatchesAny | packages/agent-runtime/src/engine/policy.ts:53-56 | true exactly when some glob matches |
| Globs.NormalizingMeans | packages/agent-runtime/src/engine/policy.ts:23-25 | with the slashes forward, one "./" in front is dropped, and anything else stays |
| Policy.AllowedIffAccepted | packages/agent-runtime/src/engine/policy.ts:103-184 | a patch is allowed exactly when every path is permitted, nothing ignored or linked outside was created, the limits hold, and required changes exist |
| Policy.DecisionDependsOnSets | packages/agent-runtime/src/engine/policy.ts:111-117 | the whole decision depends on path sets, patch text and size alone |
| Policy.TighteningIsMonotone | packages/agent-runtime/src/engine/policy.ts:64-184 | tightening a limit or list never turns a rejection into an acceptance |
| Policy.ListsTighten | packages/agent-runtime/src/engine/policy.ts:64-155 | shrinking allowed lists, growing denied lists and lowering limits is tightening |
| Policy.CleanPathIsPermitted | packages/agent-runtime/src/engine/policy.ts:64-101 | a path has no violation exactly when it is permitted |
| Policy.EvaluatePatchPolicy | packages/agent-runtime/src/engine/policy.ts:103-184 | the imperative evaluation refines the decision |
| Policy.DependencyChangesAreReported | packages/agent-runtime/src/engine/policy.ts:58-99 | a decision reports a dependency change exactly if the plan does not permit them and some changed path, once normalised, is a listed name or ends in a slash and one |
| Policy.DependencyChangeMeans | packages/agent-runtime/src/engine/policy.ts:58-62 | the check finds the listed names at any depth, and nothing else |
| Policy.DependencyFilesAre | packages/agent-runtime/src/engine/policy.ts:5-21 | the listed manifests and lockfiles, in any directory |
| Policy.PermittedMeans | packages/agent-runtime/src/engine/policy.ts:64-101 | whatever plan and task say, a permitted path is no dependency file without permission, and not below a protected directory |
| Policy.ProtectedIsDenied | packages/agent-runtime/src/engine/policy.ts:4 | every one-line path below `.git`, `.machine` or `node_modules` is denied |
| Policy.BinaryPatchesAreRefused | packages/agent-runtime/src/engine/policy.ts:156-164 | a patch with a binary change anywhere in its text is allowed only where the plan permits it |
| Policy.PathViolation | packages/agent-runtime/src/engine/policy.ts:64-101 | the violations of one path, in order |
| Policy.NormalPathsAreTheSet | packages/agent-runtime/src/engine/policy.ts:111 | the sorted, duplicate-free list has exactly the normalised paths, each once |
| Kaizen.DraftAllowsNothingNew | packages/agent-runtime/src/engine/kaizen.ts:162-197 | every patch the draft allows, the source plan's policy allows for any task that adds no path restriction |
| Kaizen.DraftCompiles | packages/agent-runtime/src/engine/kaizen.ts:162-197 | the draft of an accepted plan is accepted by the compiler |
| Kaizen.DraftsStartApproved | packages/agent-runtime/src/engine/kaizen.ts:188 | in any run of a draft, every worker start has an approval as the latest record read for its one task |
| Kaizen.DraftsStaySmall | packages/agent-runtime/src/engine/kaizen.ts:173-186 | a patch a draft allows changes 1 to 200 paths, no more than the source plan allows, in at most 2 MiB |
| Kaizen.DraftingIsIdempotent | packages/agent-runtime/src/engine/kaizen.ts:162-198 | drafting from a draft gives the draft of its source, and a draft's own runs are not analysed |
| Kaizen.DraftsRunLikeTheirSource | packages/agent-runtime/src/engine/kaizen.ts:162-198 | a draft runs on its source's repository and base, with the workers of any task that names none of its own |
| Kaizen.UniqueValidations | packages/agent-runtime/src/engine/kaizen.ts:134-142 | the first validation with each id, in order, at most eight |
| Kaizen.FirstByIdKeepsIds | packages/agent-runtime/src/engine/kaizen.ts:134-142 | nothing is invented, no id is lost, none is repeated |
| Kaizen.DraftValidationsAreAccepted | packages/agent-runtime/src/engine/kaizen.ts:163-185 | a draft has between one and eight validations, all accepted |
| CommandLine.QuotingRoundTrips | packages/agent-runtime/src/process.ts:279-335 | double-quoting a list and splitting it again returns the list exactly when it is not empty, holds no empty argument and starts with a permitted executable |
| CommandLine.AcceptedCommandsConcatenate | packages/agent-runtime/src/process.ts:279-335 | two accepted commands joined with a space read as the one's tokens and then the other's |
| CommandLine.SplitLegacyCommand | packages/agent-runtime/src/process.ts:279-335 | the loop refines the fold over characters |
| CommandLine.TokensAreOnlyAppended | packages/agent-runtime/src/process.ts:285-326 | what was read before does not influence what is read next |
| CommandLine.EscapedReadsBack | packages/agent-runtime/src/process.ts:293-306 | escaped text inside double quotes reads back unchanged |
| CommandLine.PlainWordReadsAsItself | packages/agent-runtime/src/process.ts:308-325 | a word without blanks, quotes, backslashes and shell syntax is read unchanged |
| CommandLine.ShellSyntaxIsRefused | packages/agent-runtime/src/process.ts:316-320 | outside quotes, each of eight shell characters makes a command unsafe, whatever follows |
| CommandLine.LineBreaksSeparate | packages/agent-runtime/src/process.ts:312-320 | the two line breaks listed with them are read as blanks |
| CommandLine.SingleQuotedReadsBack | packages/agent-runtime/src/process.ts:298-307 | single-quoted text reads back unchanged, backslashes and shell syntax included |
| CommandLine.ExecutableMeans | packages/agent-runtime/src/process.ts:74-91 | trimmed, an executable is accepted exactly without control characters and with a last segment that is no denied shell in small letters |
| CommandLine.DeniedShellsAreRefused | packages/agent-runtime/src/process.ts:22-38 | a denied shell is refused in any directory and any spelling |
| Evidence.VerifyEvidenceBundle | packages/agent-runtime/src/engine/evidence.ts:182-271 | valid exactly when every checksum line is well formed, names are distinct, admissible and those of the payload files present, hashes agree, and a signature that is present with a key at hand is a file that the scheme accepts for the checksum text under the verification key, or under the public key of the signing key when there is none; the status is missing, untrusted, verified or invalid in exactly these four cases |
| Evidence.ChecksumsFixTheFiles | packages/agent-runtime/src/engine/evidence.ts:217-254 | tamper evidence: under a hash that tells contents apart, two exact bundles with the same checksum file have the same files with the same contents, but for the signature |
| Evidence.AdmissibleMeans | packages/agent-runtime/src/engine/evidence.ts:228-233 | a name may be listed exactly if it is one segment without two dots in a row and not one of the bundle's own |
| Evidence.LineMeans | packages/agent-runtime/src/engine/evidence.ts:220-227 | a line is read exactly if it is 64 hexadecimal digits, two blanks, and a name to its end |
| Evidence.ChecksumLinesMean | packages/agent-runtime/src/engine/evidence.ts:220 | the lines that count are those of the text with something in them |
| Evidence.WriteAndVerify | packages/agent-runtime/src/engine/evidence.ts:135-271 | every bundle just written verifies, without keys or with keys that belong together, with the expected signature status |
| Evidence.WriteEvidenceBundle | packages/agent-runtime/src/engine/evidence.ts:135-180 | the bundle holds the redacted records, is exact, and is signed exactly when there is a key |
| Evidence.SealBundle | packages/agent-runtime/src/engine/evidence.ts:167-179 | listing payload files and hashes makes an exact bundle |
| Evidence.ListedBundleAgrees | packages/agent-runtime/src/engine/evidence.ts:170-173 | names and hashes survive the checksum file |
| Evidence.CleanIffAgree | packages/agent-runtime/src/engine/evidence.ts:215-248 | no finding exactly when every line agrees with the directory and no name repeats |
| Evidence.CheckListed | packages/agent-runtime/src/engine/evidence.ts:220-248 | the loop over checksum lines refines its specification, throwing where a listed name is a folder |
| Evidence.ListUnexpected | packages/agent-runtime/src/engine/evidence.ts:250-254 | exactly the unlisted files and the folders, sorted |
| Evidence.FixedNamesArePayload | packages/agent-runtime/src/engine/evidence.ts:146-165 | the eight record names can be listed |
| Evidence.LineReadsBack | packages/agent-runtime/src/engine/evidence.ts:173 | a written checksum line parses to its hash and name |
| Redaction.RedactionIsBounded | packages/observability/src/diagnostics/index.ts:61-124 | on every object graph, circular or not: nesting at most `MAX_DEPTH`, at most `MAX_NODES` containers, every sensitive key redacted, and an unreported redaction changed nothing but members called "__proto__" |
| Redaction.LongListsKeepTheirFront | packages/observability/src/diagnostics/index.ts:88-97 | a list too long is redacted as its first 1,000 items, with the number of the dropped ones after them |
| Redaction.LargeRecordsKeepTheirFront | packages/observability/src/diagnostics/index.ts:99-108 | a record too large is redacted as its first 1,000 entries, with the number of the dropped ones under a marker |
| Redaction.RedactIsGood | packages/observability/src/diagnostics/index.ts:61-109 | the same for every value, depth and state of the counter |
| Redaction.RedactValue | packages/observability/src/diagnostics/index.ts:61-109 | the stateful recursion refines the function of the threaded state |
| Redaction.RedactArray | packages/observability/src/diagnostics/index.ts:88-97 | the same for arrays |
| Redaction.RedactRecordObject | packages/observability/src/diagnostics/index.ts:99-108 | the same for objects |
| Redaction.RedactText | packages/observability/src/diagnostics/index.ts:50-59 | the method refines the specified redaction of a text, and a changed text is always reported where the scrubber reports its own changes |
| Redaction.RedactRecord | packages/observability/src/diagnostics/index.ts:111-124 | the result is always a record |
| Redaction.AssignMeans | packages/observability/src/diagnostics/index.ts:102 | assigning a field replaces or adds it, and "__proto__" adds none |
| Concurrency.RunsFromStartAreGood | packages/core/src/control/concurrency.ts:76-290 | in every run slots stay within the limit, acquiring means a free slot, the count is confirmations minus completed releases so the clamp never acts, and everybody is served in the order of asking: the agents the machine makes acquiring, then those waiting, are in the order in which they asked, nobody is lost but by removal, and agents acquire and release in that order |
| Concurrency.HeadIsPromoted | packages/core/src/control/concurrency.ts:195-222 | after a completed release with agents waiting, the head of the queue and nobody else may confirm |
| Concurrency.RemovingMeans | packages/core/src/control/concurrency.ts:269-281 | removal takes away exactly the entries of agents with a timed-out one, and changes nothing else |
| Concurrency.WaitsAsAsked | packages/core/src/control/concurrency.ts:81-110 | a request that has to wait times out when its own time is over, or the default if it has none |
| Concurrency.StepKeepsGood | packages/core/src/control/concurrency.ts:76-290 | every transition keeps that |
| Concurrency.EveryRunIsGood | packages/core/src/control/concurrency.ts:76-290 | so does every sequence of transitions |
| Concurrency.IdleMeansFreeIffOneSlot | packages/core/src/control/concurrency.ts:84-91 | no slot is held in state IDLE, in every run, exactly when the limit is at most one |
| Concurrency.LeakRun | packages/core/src/control/concurrency.ts:84-91 | with a higher limit a second request strands the first holder's slot |
| Concurrency.RemovingKeepsOrder | packages/core/src/control/concurrency.ts:269-281 | removing timed-out agents keeps the others in order |
| Concurrency.TimedOutMeans | packages/core/src/control/concurrency.ts:246-250 | an agent is reported exactly when it has a timed-out entry |
| Concurrency.CheckDeadlocks | packages/core/src/control/concurrency.ts:242-264 | a deadlock is reported exactly when some entry has timed out |

## Left out

- Runtime.RunExecution.Others: one store call is one step; interleaving two processes inside one `appendEvent` or `acquireLease` is not modelled, because the code does not protect it. Operators act before every journal call, gate reading, cancellation check, validation and save of the executor; its other steps do not touch what they share.
- RunLoop.Finalize: whether the evidence can be written, what the analysis finds, and whether the worktree can be removed, are inputs; the removed directory still has files in the model, which nothing reads any more; after a save that overwrote another process's entry the model stops following the run.
- RunLoop.Execute: the outcome of taking the lease is an input, and renewal and release are in `Leases` alone; a throw while releasing is not modelled.
- Runs.ResumeBeside: a refused resume falls between two calls of the holder; one whose reset falls between the git commands of a single checkpoint of the holder is not modelled, and two executors that both hold the lease (a clock that stepped back, an expired lease) are not either.
- Leases.LeaseStore.AcquireLease: creating the lease file is one step; a crash between creating and writing it leaves an empty file that no later call can parse.
- Journal.RunStateStore.AppendEvent: every file operation that writes may fail before or after its effect; a torn last line of the log after a crash inside one append is not modelled, as the three file primitives are atomic, and reading a file does not fail.
- Journal.RunManifest.Snapshot: task states and attempts are values inside the manifest, replaced on update; that the orchestrator and the manifest share them by reference (packages/agent-runtime/src/engine/state.ts:268-272) is not captured.
- Operators.RecordApproval: the membership test reads an object property, so names that every object inherits would pass it; the model uses the run's tasks.
- Worktrees.Worktree.Edit: workers and validation commands edit files and index but do not move HEAD; paths are in the normal form git prints; the worktree directory exists at every call.
- Worktrees.Worktree.StageAndInspect: how a link is found to leave the worktree is an arbitrary list.
- Runtime.RunExecution.RunTaskValidations: spawning, timeouts and signals are an arbitrary process result; the directory check is a possible throw.
- Runtime.RunExecution.ConsumeEvents: the worker is an arbitrary stream of events and edits; the abort signal may come at any event once a cancellation is on record.
- Runs.CompileInput: a compiled input is recognised by its type, and is one that the compiler made.
- Runs.Resume: run directories, the state root, the repository root and worker registration are given; `listManifests` is left out because it only loads each run.
- PlanCompiler.CompileMachinePlan: input is typed, so shape checks (strings, arrays, objects, environment maps) are not modelled, nor error texts; `isAbsolute` and `resolve` are POSIX; the digest is any function of the plan, `CanonicalJson` says what its canonical form tells apart.
- CanonicalJson.CanonicalIffSame: the text that `JSON.stringify` prints and SHA-256 are one hash parameter.
- Globs.GlobCompilerPreservesMeaning: characters are code points, while the emitted expressions step through UTF-16 units outside the basic plane.
- CommandLine.SplitLegacyCommand: `basename` is POSIX, and lower-casing is ASCII, which is exact for the denied names.
- Kaizen.DraftPlan: the rest of the objective text and the proposal id are parameters; the aggregation in `analyze` and the proposal's review states are left out because they would add only counting.
- Evidence.WriteEvidenceBundle: the record texts, the redaction patterns, SHA-256 and Ed25519 are parameters; links in the directory are left out.
- Evidence.VerifyEvidenceBundle: a key variable set to the empty text is not modelled; keys are given or not.
- Redaction.RedactText: the length limit counts code points, where the code counts UTF-16 units.
- Redaction.RedactValue: the secret patterns are parameters, strings are code points, and texts with a number in them carry the number.
- Concurrency.RequestAcquisition: that a second request in state ACQUIRING replaces the first is kept as the code has it.
- Timestamps, messages, durations, evidence paths and titles: nothing proved depends on them.
- Process spawning, MCP, providers, SQLite, the command line interface, the desktop application and the GUI server: foreign calls and display.
- Readiness gates, integration validators, retry budget, stop conditions, scope check, registries, permission engine, drift detector, circuit breaker and backups: each is settled by reading one function.
