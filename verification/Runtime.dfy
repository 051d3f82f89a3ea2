/**
  * The durable run of packages/agent-runtime/src/engine/orchestrator.ts.
  *
  * A `RunExecution` holds what `execute` hands from method to method: the compiled plan, the store, the
  * manifest in memory, the worktree and the registered workers. Every durable step may kill the process
  * (`Crashed`) or fail while the process goes on (`Thrown`), and every git call may throw; other processes
  * cancel and approve in between. Each method shows that however it ends, what is on disk satisfies the
  * invariant (`Durable`), and that unless the process died the manifest in memory does too (`Live`).
  */
module Runtime {
  import opened Basics
  import opened Policy
  import opened PlanTypes
  import opened RunTypes
  import opened Worktrees
  import opened Journal
  import opened CompiledPlans
  import opened RunProtocol
  import opened RunSteps
  import opened Operators

  /** How the loop of `executeTask` goes on after one pass. */
  datatype Pass = Again | Returned(completed: bool)

  datatype GateResult = GateApproved | GateRejected | GateWaiting | GateNotRequired

  /** The steps by which a process ends a run, each recorded when it has succeeded. */
  datatype ClosingStep = CompletedEntry | FailedEntry | KaizenEntry | EvidenceWritten | ManifestSaved | WorktreeRemoved

  /** The entries that end a run. */
  predicate Closes(kind: EventKind) {
    kind.RunCompletedEvent? || kind.RunFailedEvent? || kind.KaizenProposedEvent? || kind.KaizenFailedEvent?
  }

  function StepOf(kind: EventKind): ClosingStep
    requires Closes(kind)
  {
    if kind.RunCompletedEvent? then CompletedEntry else if kind.RunFailedEvent? then FailedEntry else KaizenEntry
  }

  /** What the latest record for a gate decides. */
  function Verdict(record: Option<ApprovalRecord>): GateResult {
    if record.None? then GateWaiting else if record.value.approved then GateApproved else GateRejected
  }

  /** What is durable at one moment. */
  datatype Moment = Moment(view: Manifest, world: World, log: seq<RunEvent>)

  /**
    * Nothing durable is undone: events, approvals, landings and starts, and unless an operator's late copy
    * overtook a newer manifest, completed tasks and attempts.
    */
  ghost predicate After(a: Moment, b: Moment) {
    Follows(b.world.lost, a.view, b.view) && Grows(a.world, b.world) && a.log <= b.log
  }

  lemma AfterTransitive(a: Moment, b: Moment, d: Moment)
    requires After(a, b) && After(b, d)
    ensures After(a, d)
  {
    FollowsTransitive(d.world.lost, a.view, b.view, d.view);
  }

  /** How many landings the persisted checkpoints do not account for, as long as no late copy forgot checkpoints. */
  ghost function Gap(m: Moment): nat {
    if m.world.lost.checkpoints || |m.world.landings| < |m.view.checkpoints| then 0
    else |m.world.landings| - |m.view.checkpoints|
  }

  lemma GapOnlyShrinks(a: Moment, b: Moment)
    requires After(a, b) && |b.world.landings| == |a.world.landings|
    ensures Gap(b) <= Gap(a)
  {
  }

  lemma LandingIsAfter(a: Moment, b: Moment)
    requires b == a.(world := a.world.(landings := b.world.landings))
    requires a.world.landings <= b.world.landings && |b.world.landings| <= |a.world.landings| + 1
    ensures After(a, b) && Gap(b) <= Gap(a) + 1
  {
  }

  predicate AnyFailed(results: seq<ValidationResult>) {
    exists i :: 0 <= i < |results| && !results[i].passed
  }

  lemma PassedIffNoneFailed(task: Task, results: seq<ValidationResult>)
    requires Reported(task, results)
    ensures AllPassed(task, results) <==>
            |results| == |task.validations| && !AnyFailed(results)
  {
    hide MeetsExpectation;
    if |results| == |task.validations| && !AnyFailed(results) {
      forall i | 0 <= i < |results| ensures MeetsExpectation(task.validations[i], results[i].process) {
        assert results[i].passed;
      }
    }
  }

  lemma StaysCancelled(a: Moment, b: Moment)
    requires After(a, b)
    ensures a.world.cancelled ==> b.world.cancelled
  {
  }

  lemma ApprovalsGrow(a: Moment, b: Moment)
    requires After(a, b)
    ensures a.world.approvals <= b.world.approvals
  {
  }

  lemma AfterReflexive(a: Moment)
    ensures After(a, a)
  {
  }

  class RunExecution {
    ghost const compiled: CompiledPlan
    const current: CompiledPlan
    const store: RunStateStore
    const manifest: RunManifest
    const worktree: Worktree
    const workers: set<string>
    ghost var closing: seq<ClosingStep>

    /** `compiled` is the plan the run was created from, `current` the one this process compiled. */
    constructor (ghost compiled: CompiledPlan, current: CompiledPlan, store: RunStateStore, manifest: RunManifest,
                 worktree: Worktree, workers: set<string>)
      ensures this.compiled == compiled && this.current == current && this.store == store && this.manifest == manifest
      ensures this.worktree == worktree && this.workers == workers && closing == []
    {
      this.compiled, this.current := compiled, current;
      this.store, this.manifest, this.worktree, this.workers := store, manifest, worktree, workers;
      closing := [];
    }

    ghost function World(): World
      reads store, worktree
    {
      RunProtocol.World.World(worktree.base, worktree.landings, worktree.starts, store.approvalsFile,
                              store.cancellationFile, store.calls, store.lost)
    }

    /** What survives the process: the journal recovers, HEAD is the last landing, and the manifest is sound. */
    ghost predicate Durable()
      reads store, worktree
    {
      && CompiledOk(compiled)
      && JournalOk(store)
      && worktree.Valid()
      && Kept(compiled, View(store), World())
    }

    ghost predicate Live()
      reads store, worktree, manifest
    {
      && CompiledOk(compiled)
      && JournalOk(store)
      && worktree.Valid()
      && manifest.runId == store.runId
      && Sound(compiled, View(store), manifest.Snapshot(), World())
    }

    ghost function Here(): Moment
      requires JournalOk(store)
      reads store, worktree
    {
      Moment(View(store), World(), Log(store))
    }

    /** The task is the one after the completed ones. */
    ghost predicate AtFront(task: Task)
      reads manifest
    {
      current == compiled && At(compiled, manifest.Snapshot(), task)
    }

    /** An attempt of the task is under way. */
    ghost predicate Trying(task: Task)
      reads manifest
    {
      && AtFront(task)
      && manifest.taskStates[task.id].attempts != []
      && manifest.status == RunActive
      && manifest.currentTaskId == Some(task.id)
    }

    function Tries(task: Task): nat
      requires task.id in manifest.taskStates
      reads manifest
    {
      |manifest.taskStates[task.id].attempts|
    }

    function LastAttempt(task: Task): Attempt
      requires task.id in manifest.taskStates && manifest.taskStates[task.id].attempts != []
      reads manifest
    {
      Last(manifest.taskStates[task.id].attempts)
    }

    /** A manifest value with the numbering the executor's copy has now. */
    ghost function Now(m: Manifest): Manifest
      reads manifest
    {
      m.(nextSequence := manifest.nextSequence)
    }

    /** Every attempt and checkpoint the executor knows is persisted, unless a late copy overtook it. */
    ghost predicate Flushed()
      reads store, manifest
    {
      JournalOk(store) && Level(store.lost, manifest.Snapshot(), View(store))
    }

    // ---- store access, with other processes in between ----

    /** Any number of store calls by operators, old and new ones. */
    method Others()
      requires Live()
      modifies store
      ensures Live() && Durable() && After(old(Here()), Here())
      ensures old(Flushed()) ==> Flushed()
    {
      hide Sound, Kept, CompiledOk, JournalOk, View, Log, Worktree.Valid, After;
      SoundIsKept(compiled, View(store), manifest.Snapshot(), World());
      AfterReflexive(Here());
      var moves: nat := *;
      while moves > 0
        invariant Live() && Durable() && After(old(Here()), Here())
        invariant old(Flushed()) ==> Flushed()
      {
        ghost var before := Here();
        OthersMove();
        AfterTransitive(old(Here()), before, Here());
        moves := moves - 1;
      }
    }

    method OthersMove()
      requires Live()
      modifies store
      ensures Live() && Durable() && After(old(Here()), Here())
      ensures old(Flushed()) ==> Flushed()
    {
      hide Sound, Kept, CompiledOk, JournalOk, View, Log, Worktree.Valid, OperatorStep, Advanced;
      CallsAreOurs();
      ghost var before, w := SharedBy(store), World();
      OperatorMove(store);
      OperatorStepKeepsSound(compiled, before, SharedBy(store), manifest.Snapshot(), w);
      SoundIsKept(compiled, View(store), manifest.Snapshot(), World());
    }

    lemma CallsAreOurs()
      requires Live()
      ensures CallsBelong(store)
    {
      hide WorldOk, RunOk, CompiledOk, Log, Worktree.Valid, View, JournalOk, Advanced;
      ViewIsOurs(store);
    }

    /** The event is the log's last, under the next number. */
    ghost predicate Journalled(draft: EventDraft)
      requires JournalOk(store)
      reads store
    {
      Log(store) != []
      && Last(Log(store)) == RunEvent(|Log(store)|, store.runId, draft.kind, draft.taskId, draft.workerId)
    }

    /** An entry of the work. */
    method Journal(draft: EventDraft) returns (r: Exit<()>)
      requires Live()
      modifies store, manifest`nextSequence
      ensures Durable() && After(old(Here()), Here())
      ensures !r.Crashed? ==> Live()
      ensures r.Thrown? ==> !r.fault.LeaseHeld?
      ensures r.Done? ==> Current(store, manifest) && Journalled(draft) && View(store) == manifest.Snapshot()
      ensures r.Done? ==> |old(Log(store))| < |Log(store)|
      ensures r.Done? || old(Flushed()) ==> Flushed()
    {
      r := Enter(draft);
    }

    /**
      * An entry that ends the run, recorded when it has succeeded; one that the store refuses found its holder
      * stale.
      */
    method JournalEnd(draft: EventDraft) returns (r: Exit<()>)
      requires Live() && Closes(draft.kind)
      modifies store, manifest`nextSequence, this`closing
      ensures Durable() && After(old(Here()), Here())
      ensures !r.Crashed? ==> Live()
      ensures r.Done? || r == Thrown(StaleManifest) || r.BrokeOff()
      ensures r.Done? ==> Current(store, manifest) && Journalled(draft) && View(store) == manifest.Snapshot()
      ensures r.Done? ==> |old(Log(store))| < |Log(store)|
      ensures r.Done? || old(Flushed()) ==> Flushed()
      ensures closing == if r.Done? then old(closing) + [StepOf(draft.kind)] else old(closing)
      ensures r == Thrown(StaleManifest) ==>
                !Admits(View(store), store.cancellationFile, manifest.Snapshot())
    {
      r := Enter(draft);
      closing := if r.Done? then closing + [StepOf(draft.kind)] else closing;
    }

    method Enter(draft: EventDraft) returns (r: Exit<()>)
      requires Live()
      modifies store, manifest`nextSequence
      ensures Durable() && After(old(Here()), Here())
      ensures !r.Crashed? ==> Live()
      ensures r.Done? ==> Current(store, manifest) && Journalled(draft) && View(store) == manifest.Snapshot()
      ensures r.Done? ==> |old(Log(store))| < |Log(store)|
      ensures r.Done? || old(Flushed()) ==> Flushed()
      ensures r.Done? || r == Thrown(StaleManifest) || r.BrokeOff()
      ensures r == Thrown(StaleManifest) ==>
                !Admits(View(store), store.cancellationFile, manifest.Snapshot())
    {
      hide Sound, Kept, CompiledOk, JournalOk, View, Log, Worktree.Valid;
      Others();
      ghost var view, memory, middle := View(store), manifest.Snapshot(), Here();
      ViewIsOurs(store);
      r := Append(store, manifest, draft);
      PersistKeepsSound(compiled, view, View(store), memory, manifest.Snapshot(), World());
      SoundIsKept(compiled, View(store), manifest.Snapshot(), World());
      AfterTransitive(old(Here()), middle, Here());
    }

    // ---- the worktree: HEAD, landings and starts are out of these calls' reach ----

    method Reset() returns (r: Exit<()>)
      requires Live()
      modifies worktree`index, worktree`working, worktree`ignored
      ensures Live() && Durable()
      ensures r.Done? ==> worktree.Clean()
      ensures r.Thrown? ==> r.fault == GitFailure
    {
      hide Sound, Kept, CompiledOk, JournalOk, View, Log, Worktree.Valid;
      SoundIsKept(compiled, View(store), manifest.Snapshot(), World());
      r := worktree.ResetWorktree();
    }

    method Stage() returns (r: Exit<StagedPatch>)
      requires Live()
      modifies worktree`index, worktree`working, worktree`ignored
      ensures Live() && Durable()
      ensures r.Done? ==> worktree.index == old(worktree.working)
      ensures r.Done? ==> PathSet(r.value.changedFiles) == Diff(worktree.head, worktree.index)
    {
      hide Sound, Kept, CompiledOk, JournalOk, View, Log, Worktree.Valid;
      SoundIsKept(compiled, View(store), manifest.Snapshot(), World());
      r := worktree.StageAndInspect();
    }

    method Edit()
      requires Live()
      modifies worktree`index, worktree`working, worktree`ignored
      ensures Live() && Durable()
    {
      hide Sound, Kept, CompiledOk, JournalOk, View, Log, Worktree.Valid;
      SoundIsKept(compiled, View(store), manifest.Snapshot(), World());
      worktree.Edit();
    }

    // ---- the run's steps ----

    method CancellationRequested() returns (requested: bool)
      requires Live()
      modifies store, manifest`cancellationRequested
      ensures Live() && After(old(Here()), Here())
      ensures requested == store.cancellationFile && (old(store.cancellationFile) ==> requested)
      ensures manifest.cancellationRequested == requested
      ensures old(Flushed()) ==> Flushed()
    {
      hide Sound, Kept, CompiledOk, JournalOk, View, Log, Worktree.Valid;
      Others();
      FlagMeansRequested(compiled, View(store), manifest.Snapshot(), World());
      requested := manifest.cancellationRequested || store.cancellationFile;
      if requested {
        FlaggedIsSound(compiled, View(store), manifest.Snapshot(), World());
        manifest.cancellationRequested := true;
      }
    }

    method MarkCancelled(task: Task) returns (r: Exit<()>)
      requires Live() && AtFront(task) && store.cancellationFile
      modifies store, manifest`status, manifest`failure, manifest`taskStates, manifest`nextSequence
      ensures Durable() && After(old(Here()), Here())
      ensures !r.Crashed? ==> Live() && manifest.Snapshot() == Now(CancelledAt(old(manifest.Snapshot()), task.id))
      ensures r.Done? ==>
                Current(store, manifest) && Journalled(EventDraft(RunCancelledEvent, manifest.currentTaskId, None))
      ensures r.Done? ==> Flushed()
    {
      hide Sound, Kept, CompiledOk, JournalOk, View, Log, Worktree.Valid, TaskOf;
      CancelledAtIsSound(compiled, View(store), manifest.Snapshot(), World(), task);
      manifest.status := RunCancelled;
      manifest.failure := Some(RunFailure(CancelledRun, false));
      var state := manifest.taskStates[task.id];
      manifest.taskStates := manifest.taskStates[task.id := state.(status := TaskCancelled, phase := PhasePending)];
      r := Journal(EventDraft(RunCancelledEvent, manifest.currentTaskId, None));
    }

    /**
      * Reads the approval log, then `consulted` records long: the latest one for the gate decides, and without one
      * the run waits.
      */
    method ApprovalDecision(task: Task, phase: ApprovalPhase) returns (r: Exit<GateResult>, ghost consulted: nat)
      requires Live() && AtFront(task)
      requires phase.AfterChange? ==> manifest.taskStates[task.id].attempts != []
      requires phase.BeforeChange? ==> !manifest.taskStates[task.id].phase.InFlight() && !manifest.status.Terminal()
      modifies store, manifest`status, manifest`taskStates, manifest`metrics, manifest`nextSequence
      ensures Durable() && After(old(Here()), Here())
      ensures !r.Crashed? ==> Live()
      ensures r.Done? && r.value != GateWaiting ==> manifest.Snapshot() == old(manifest.Snapshot())
      ensures r.Done? && (old(Flushed()) || r.value == GateWaiting) ==> Flushed()
      ensures old(|store.approvalsFile|) <= consulted <= |store.approvalsFile|
      ensures r == Done(GateNotRequired) <==> task.Approval().NoGate? || GatePhase(task.Approval()) != phase
      ensures r.Done? && r.value != GateNotRequired ==>
                r.value == Verdict(LatestFor(task, store.approvalsFile, consulted))
      ensures !r.Done? ==> LatestFor(task, store.approvalsFile, consulted) == None
      ensures r == Done(GateWaiting) ==> manifest.Snapshot() == Now(Requested(old(manifest.Snapshot()), task.id, phase))
      ensures r.Thrown? ==> manifest.Snapshot() == Now(Requested(old(manifest.Snapshot()), task.id, phase))
    {
      hide Sound, Kept, CompiledOk, JournalOk, View, Log, Worktree.Valid, TaskOf;
      SoundIsKept(compiled, View(store), manifest.Snapshot(), World());
      consulted := |store.approvalsFile|;
      if task.Approval().NoGate? || GatePhase(task.Approval()) != phase {
        return Done(GateNotRequired), consulted;
      }
      Others();
      consulted := |store.approvalsFile|;
      ghost var approvals, before := store.approvalsFile, Here();
      assert approvals[..consulted] == approvals;
      var record := LatestApproval(store.approvalsFile, task.id, phase);
      if record.Some? {
        return Done(if record.value.approved then GateApproved else GateRejected), consulted;
      }
      var requested := RequestApproval(task, phase);
      assert store.approvalsFile[..consulted] == approvals;
      AfterTransitive(old(Here()), before, Here());
      if !requested.Done? {
        return requested.PropagateFailure(), consulted;
      }
      return Done(GateWaiting), consulted;
    }

    /** A reading of an open gate, or of a rejected one. */
    lemma ReadingMeans(task: Task, since: nat, consulted: nat)
      requires AtFront(task) && !task.Approval().NoGate? && since <= consulted <= |store.approvalsFile|
      ensures var verdict := Verdict(LatestFor(task, store.approvalsFile, consulted));
              && (verdict == GateApproved <==> GateOpen(task, store.approvalsFile, GateReading(since, consulted)))
              && (verdict == GateRejected ==>
                    RejectionOnRecord(compiled, manifest.Snapshot(), store.approvalsFile, since))
    {
      hide TaskOf, LatestFor;
      GateRead(compiled, manifest.Snapshot(), task, store.approvalsFile, since, consulted);
    }

    /** The end of `approvalDecision`: the run waits at this gate. */
    method RequestApproval(task: Task, phase: ApprovalPhase) returns (r: Exit<()>)
      requires Live() && AtFront(task)
      requires !task.Approval().NoGate? && GatePhase(task.Approval()) == phase
      requires phase.AfterChange? ==> manifest.taskStates[task.id].attempts != []
      requires phase.BeforeChange? ==> !manifest.taskStates[task.id].phase.InFlight() && !manifest.status.Terminal()
      modifies store, manifest`status, manifest`taskStates, manifest`metrics, manifest`nextSequence
      ensures Durable() && After(old(Here()), Here())
      ensures !r.Crashed? ==> Live() && manifest.Snapshot() == Now(Requested(old(manifest.Snapshot()), task.id, phase))
      ensures r.Done? ==> Flushed()
    {
      hide Sound, Kept, CompiledOk, JournalOk, View, Log, Worktree.Valid, TaskOf;
      RequestedIsSound(compiled, View(store), manifest.Snapshot(), World(), task, phase);
      var state := manifest.taskStates[task.id];
      if state.status != TaskAwaitingApproval {
        manifest.metrics := manifest.metrics.(approvalWaitCount := manifest.metrics.approvalWaitCount + 1);
      }
      state := state.(status := TaskAwaitingApproval,
                      phase := if phase.BeforeChange? then AwaitingBefore else AwaitingAfter);
      manifest.taskStates := manifest.taskStates[task.id := state];
      manifest.status := RunAwaitingApproval;
      r := Journal(EventDraft(ApprovalRequestedEvent, Some(task.id), None));
    }

    /** Closes the attempt, rolls the worktree back to HEAD, and journals. */
    method FailAttempt(task: Task, attemptFailure: RunFailure) returns (r: Exit<()>)
      requires Live() && AtFront(task) && manifest.taskStates[task.id].attempts != []
      modifies store, manifest`taskStates, manifest`nextSequence, worktree`index, worktree`working, worktree`ignored
      ensures Durable() && After(old(Here()), Here())
      ensures !r.Crashed? ==>
                Live() && manifest.Snapshot() == Now(FailedAttempt(old(manifest.Snapshot()), task.id, attemptFailure))
      ensures !r.Crashed? ==>
                LastAttempt(task) == old(LastAttempt(task)).(
                  status := if attemptFailure.category.CancelledRun? then AttemptCancelled else AttemptFailed,
                  failure := Some(attemptFailure))
      ensures r.Done? ==> worktree.Clean()
      ensures r.Done? ==> Journalled(EventDraft(AttemptFailedEvent, Some(task.id), Some(LastAttempt(task).workerId)))
      ensures r.Done? ==> Flushed()
    {
      hide Sound, Kept, CompiledOk, JournalOk, View, Log, Worktree.Valid, TaskOf;
      FailedAttemptIsSound(compiled, View(store), manifest.Snapshot(), World(), task, attemptFailure);
      var state := manifest.taskStates[task.id];
      state := WithLast(state, Closed(Last(state.attempts), attemptFailure));
      state := state.(status := if attemptFailure.category.CancelledRun? then TaskCancelled else TaskRunning,
                      phase := PhasePending);
      manifest.taskStates := manifest.taskStates[task.id := state];
      var _ :- Reset();
      r := Journal(EventDraft(AttemptFailedEvent, Some(task.id), Some(Last(state.attempts).workerId)));
    }

    // ---- validations ----

    /**
      * `runTaskValidations`: one process after the other until the abort signal, which only a recorded
      * cancellation sets. A command may edit the worktree; resolving its directory or starting it may throw.
      */
    method RunTaskValidations(task: Task) returns (r: Exit<seq<ValidationResult>>, aborted: bool)
      requires Live() && AtFront(task)
      modifies store, worktree`index, worktree`working, worktree`ignored
      ensures Live() && Durable() && After(old(Here()), Here())
      ensures aborted ==> store.cancellationFile
      ensures r.Done? ==> Reported(task, r.value) && (!aborted ==> |r.value| == |task.validations|)
      ensures r.Done? ==> forall i :: 0 <= i < |r.value| ==>
                var v, p := task.validations[i], r.value[i].process;
                r.value[i].passed <==>
                  && p.exitCode == (if v.expectedExitCode.Some? then v.expectedExitCode.value else 0)
                  && !p.timedOut && !p.cancelled && !p.truncated
                  && (v.stdoutIncludes.Some? ==>
                        exists k :: 0 <= k <= |p.stdout| && v.stdoutIncludes.value <= p.stdout[k..])
                  && (v.stderrExcludes.Some? ==>
                        forall k :: 0 <= k <= |p.stderr| ==> !(v.stderrExcludes.value <= p.stderr[k..]))
    {
      hide Sound, Kept, CompiledOk, JournalOk, View, Log, Worktree.Valid, TaskOf, At, MeetsExpectation;
      SoundIsKept(compiled, View(store), manifest.Snapshot(), World());
      aborted := false;
      var results: seq<ValidationResult> := [];
      var index := 0;
      while index < |task.validations| && !aborted
        invariant 0 <= index <= |task.validations|
        invariant Live() && Durable() && After(old(Here()), Here())
        invariant aborted ==> store.cancellationFile
        invariant Reported(task, results) && (!aborted ==> |results| == index)
        decreases |task.validations| - index, !aborted
      {
        ghost var before := Here();
        Others();
        AfterTransitive(old(Here()), before, Here());
        var signalled: bool := *;
        if store.cancellationFile && signalled {
          aborted := true;
        } else {
          var refused: bool := *;
          if refused {
            return Thrown(ProcessFailure), aborted;
          }
          Edit();
          var process: ProcessResult := *;
          var validation := task.validations[index];
          var passed := JudgeProcess(validation, process);
          results := results + [ValidationResult(validation.id, process, passed)];
          index := index + 1;
        }
      }
      var late: bool := *;
      if store.cancellationFile && late {
        aborted := true;
      }
      var dies: bool := *;
      if dies { return Crashed, aborted; }
      ReportsMean(task, results);
      return Done(results), aborted;
    }

    method EnterPhase(task: Task, phase: TaskPhase)
      requires Live() && Trying(task) && phase.InFlight()
      modifies manifest`taskStates
      ensures Live() && Trying(task) && manifest.Snapshot() == InPhase(old(manifest.Snapshot()), task.id, phase)
    {
      hide Sound, CompiledOk, JournalOk, View, Log, Worktree.Valid, TaskOf;
      InFlightIsSound(compiled, View(store), manifest.Snapshot(), World(), task, phase);
      var state := manifest.taskStates[task.id];
      manifest.taskStates := manifest.taskStates[task.id := state.(phase := phase)];
    }

    method KeepResults(task: Task, results: seq<ValidationResult>)
      requires Live() && Trying(task)
      modifies manifest`taskStates
      ensures Live() && Trying(task) && Tries(task) == old(Tries(task))
      ensures LastAttempt(task) == old(LastAttempt(task)).(validations := results)
    {
      hide Sound, CompiledOk, JournalOk, View, Log, Worktree.Valid, TaskOf;
      ValidatedIsSound(compiled, View(store), manifest.Snapshot(), World(), task, results);
      var state := manifest.taskStates[task.id];
      manifest.taskStates := manifest.taskStates[task.id := WithLast(state, Last(state.attempts).(validations := results))];
    }

    /** Journals one event per result. */
    method JournalResults(task: Task, results: seq<ValidationResult>) returns (r: Exit<()>)
      requires Live()
      modifies store, manifest`nextSequence
      ensures Durable() && After(old(Here()), Here())
      ensures !r.Crashed? ==> Live()
    {
      hide Sound, Kept, CompiledOk, JournalOk, View, Log, Worktree.Valid;
      SoundIsKept(compiled, View(store), manifest.Snapshot(), World());
      for index := 0 to |results|
        invariant Live() && Durable() && After(old(Here()), Here())
      {
        ghost var before := Here();
        r := Journal(EventDraft(ValidationFinishedEvent(results[index].passed), Some(task.id), None));
        AfterTransitive(old(Here()), before, Here());
        if !r.Done? {
          return r;
        }
      }
      r := Done(());
    }

    method CountValidationFailure()
      requires Live()
      modifies manifest`metrics
      ensures Live()
      ensures manifest.metrics ==
              old(manifest.metrics).(validationFailureCount := old(manifest.metrics.validationFailureCount) + 1)
    {
      hide Sound, CompiledOk, JournalOk, View, Log, Worktree.Valid;
      ghost var before := manifest.Snapshot();
      manifest.metrics := manifest.metrics.(validationFailureCount := manifest.metrics.validationFailureCount + 1);
      FreeCountersAreSound(compiled, View(store), before, manifest.Snapshot(), World());
    }

    /** Runs the validations, keeps their results on the attempt and journals them. */
    method RunAndRecord(task: Task) returns (r: Exit<seq<ValidationResult>>, aborted: bool)
      requires Live() && Trying(task)
      modifies store, manifest`taskStates, manifest`nextSequence, worktree`index, worktree`working, worktree`ignored
      ensures Durable() && After(old(Here()), Here())
      ensures !r.Crashed? ==> Live() && Trying(task) && Tries(task) == old(Tries(task))
      ensures r.Done? ==> r.value == LastAttempt(task).validations
      ensures r.Done? ==> Reported(task, r.value) && (!aborted ==> |r.value| == |task.validations|)
      ensures aborted ==> store.cancellationFile
    {
      hide Sound, Kept, CompiledOk, JournalOk, View, Log, Worktree.Valid, TaskOf, Reported;
      r, aborted := RunTaskValidations(task);
      if !r.Done? {
        return;
      }
      KeepResults(task, r.value);
      ghost var before := Here();
      var journalled := JournalResults(task, r.value);
      AfterTransitive(old(Here()), before, Here());
      if journalled.Crashed? {
        return Crashed, aborted;
      }
      if journalled.Thrown? {
        return Thrown(journalled.fault), aborted;
      }
    }

    /** Runs and records the validations; `None` means all of them ran and passed. */
    method Validate(task: Task) returns (r: Exit<Option<RunFailure>>)
      requires Live() && Trying(task)
      modifies store, manifest`taskStates, manifest`metrics
      modifies manifest`nextSequence, worktree`index, worktree`working, worktree`ignored
      ensures Durable() && After(old(Here()), Here())
      ensures !r.Crashed? ==> Live() && Trying(task) && Tries(task) == old(Tries(task))
      ensures r == Done(None) ==> AllPassed(task, LastAttempt(task).validations)
      ensures r.Done? && r.value.Some? ==>
                || (r.value.value == RunFailure(ValidationFailed, true) && !AllPassed(task, LastAttempt(task).validations))
                || (r.value.value == RunFailure(CancelledRun, false) && store.cancellationFile)
    {
      hide Sound, Kept, CompiledOk, JournalOk, View, Log, Worktree.Valid, TaskOf, Reported, AllPassed, AnyFailed;
      EnterPhase(task, Validating);
      var _ :- Journal(EventDraft(ValidationStartedEvent, Some(task.id), Some(LastAttempt(task).workerId)));
      ghost var before := Here();
      var run, aborted := RunAndRecord(task);
      AfterTransitive(old(Here()), before, Here());
      var results :- run;
      PassedIffNoneFailed(task, results);
      if AnyFailed(results) || |results| != |task.validations| || aborted {
        CountValidationFailure();
        return Done(Some(if aborted then RunFailure(CancelledRun, false) else RunFailure(ValidationFailed, true)));
      }
      r := Done(None);
    }

    // ---- policy and checkpoint ----

    /** Evaluates the staged patch and records the decision. */
    method Decide(task: Task, patch: StagedPatch) returns (decision: PolicyDecision)
      requires Live() && Trying(task)
      modifies manifest`policyDecisions
      ensures Live() && Trying(task) && Tries(task) == old(Tries(task)) && LastAttempt(task) == old(LastAttempt(task))
      ensures decision == Decision(PolicyOf(compiled), task, LastAttempt(task).number, patch)
      ensures decision.taskId == task.id && decision.attempt == LastAttempt(task).number
      ensures manifest.policyDecisions == old(manifest.policyDecisions) + [decision]
    {
      hide Sound, CompiledOk, JournalOk, View, Log, Worktree.Valid, TaskOf, Violations;
      decision := EvaluatePatchPolicy(task, current.plan.policy, LastAttempt(task).number, patch);
      DecidedIsSound(compiled, View(store), manifest.Snapshot(), World(), task, decision);
      manifest.policyDecisions := manifest.policyDecisions + [decision];
    }

    method CountViolations(decision: PolicyDecision)
      requires Live()
      modifies manifest`metrics
      ensures Live()
      ensures manifest.metrics ==
              old(manifest.metrics).(policyViolationCount := old(manifest.metrics.policyViolationCount) + |decision.violations|)
    {
      hide Sound, CompiledOk, JournalOk, View, Log, Worktree.Valid;
      ghost var before := manifest.Snapshot();
      var count := manifest.metrics.policyViolationCount + |decision.violations|;
      manifest.metrics := manifest.metrics.(policyViolationCount := count);
      FreeCountersAreSound(compiled, View(store), before, manifest.Snapshot(), World());
    }

    lemma CommitIsNoEvidence(evidence: Landing, landing: Landing)
      requires LandingOk(compiled, store.approvalsFile, evidence) && landing == evidence.(commit := landing.commit)
      ensures LandingOk(compiled, store.approvalsFile, landing)
    {
      hide TaskOf, AllPassed, GateOpen, Decision, PathSet, Diff;
    }

    /** Moves HEAD to the index on evidence that the index may land. */
    method Commit(ghost evidence: Landing) returns (r: Exit<nat>, ghost landing: Landing)
      requires Live()
      requires LandingOk(compiled, store.approvalsFile, evidence.(before := worktree.head, after := worktree.index))
      modifies worktree`head, worktree`headCommit, worktree`landings
      ensures Live() && Durable() && After(old(Here()), Here())
      ensures landing == evidence.(before := old(worktree.head), after := worktree.index, commit := landing.commit)
      ensures r.Done? ==> worktree.landings == old(worktree.landings) + [landing] && r.value == landing.commit
      ensures TakenUp(old(World()), World(), evidence.gate.since)
      ensures Gap(Here()) <= Gap(old(Here())) + 1
    {
      hide Sound, Kept, CompiledOk, JournalOk, View, Log, Worktree.Valid, LandingOk, After, Gap, Chained;
      ghost var w, before, start := World(), worktree.head, Here();
      SoundIsKept(compiled, View(store), manifest.Snapshot(), w);
      r := worktree.CommitCheckpoint(evidence);
      landing := evidence.(before := before, after := worktree.index, commit := worktree.headCommit);
      if worktree.landings != w.landings {
        CommitIsNoEvidence(evidence.(before := before, after := worktree.index), landing);
        LandingKeepsSound(compiled, View(store), manifest.Snapshot(), w, landing);
        SoundIsKept(compiled, View(store), manifest.Snapshot(), World());
      }
      LandingIsAfter(start, Here());
    }

    /** The landing is the front task's last attempt, judged by the last recorded decision. */
    ghost predicate Backs(task: Task, patch: StagedPatch, landing: Landing)
      requires Trying(task)
      reads manifest, worktree
    {
      && landing in worktree.landings && landing.taskId == task.id
      && landing.attempt == LastAttempt(task).number && landing.validations == LastAttempt(task).validations
      && manifest.policyDecisions != [] && Last(manifest.policyDecisions) == landing.decision
      && landing.decision.taskId == task.id && landing.decision.attempt == landing.attempt
      && landing.patch == patch
    }

    /** The memory side of a checkpoint. */
    method CompleteTask(task: Task, patch: StagedPatch, commit: nat, ghost landing: Landing)
      requires Live() && Trying(task)
      requires Backs(task, patch, landing) && landing.commit == commit
      modifies manifest
      ensures Live() && manifest.Snapshot() == Completed(old(manifest.Snapshot()), task.id, patch, commit)
      ensures manifest.checkpoints == old(manifest.checkpoints) + [Checkpoint(task.id, commit)]
      ensures manifest.status == old(manifest.status) && manifest.currentTaskId == old(manifest.currentTaskId)
      ensures task.id in manifest.taskStates
      ensures manifest.taskStates[task.id].attempts != []
      ensures LastAttempt(task) ==
              old(LastAttempt(task)).(status := AttemptCompleted, failure := None, changedFiles := patch.changedFiles,
                                      patchBytes := patch.patchBytes)
    {
      hide Sound, CompiledOk, JournalOk, View, Log, Worktree.Valid, TaskOf;
      CompletedIsSound(compiled, View(store), manifest.Snapshot(), World(), task, landing);
      var state := manifest.taskStates[task.id];
      state := WithLast(state, Finished(Last(state.attempts), patch));
      state := state.(status := TaskCompleted, phase := PhaseCompleted, checkpoint := Some(commit));
      manifest.taskStates := manifest.taskStates[task.id := state];
      manifest.checkpoints := manifest.checkpoints + [Checkpoint(task.id, commit)];
      manifest.metrics := manifest.metrics.(completedTaskCount := manifest.metrics.completedTaskCount + 1);
    }

    /** Nothing stands between this attempt and HEAD: validated, allowed as staged, and the gate read as open. */
    ghost predicate MayLand(task: Task, patch: StagedPatch, gate: GateReading)
      requires Trying(task)
      reads manifest, store, worktree
    {
      && AllPassed(task, LastAttempt(task).validations)
      && GateOpen(task, store.approvalsFile, gate)
      && manifest.policyDecisions != []
      && Last(manifest.policyDecisions) == Decision(PolicyOf(compiled), task, LastAttempt(task).number, patch)
      && Last(manifest.policyDecisions).allowed
      && Last(manifest.policyDecisions).taskId == task.id
      && Last(manifest.policyDecisions).attempt == LastAttempt(task).number
      && PathSet(patch.changedFiles) == Diff(worktree.head, worktree.index)
    }

    ghost function Evidence(task: Task, patch: StagedPatch, gate: GateReading): Landing
      requires Trying(task) && manifest.policyDecisions != []
      reads manifest, worktree
    {
      var a := LastAttempt(task);
      Landing(task.id, a.number, a.validations, patch, Last(manifest.policyDecisions), gate,
              worktree.head, worktree.index, 0)
    }

    lemma EvidenceIsEnough(task: Task, patch: StagedPatch, gate: GateReading)
      requires Trying(task) && MayLand(task, patch, gate)
      ensures LandingOk(compiled, store.approvalsFile, Evidence(task, patch, gate))
    {
      hide TaskOf, AllPassed, GateOpen, Violations, PathSet, Diff;
    }

    method CommitAttempt(task: Task, patch: StagedPatch, ghost gate: GateReading)
      returns (r: Exit<nat>, ghost landing: Landing)
      requires Live() && Trying(task) && MayLand(task, patch, gate)
      modifies manifest`taskStates, worktree`head, worktree`headCommit, worktree`landings
      ensures Live() && Durable() && After(old(Here()), Here()) && Trying(task)
      ensures r.Done? ==> worktree.landings == old(worktree.landings) + [landing] && r.value == landing.commit
      ensures r.Done? ==> Backs(task, patch, landing)
      ensures r.Done? ==> landing.before == old(worktree.head) && landing.after == worktree.index
      ensures TakenUp(old(World()), World(), gate.since)
      ensures Gap(Here()) <= Gap(old(Here())) + 1
    {
      hide Sound, Kept, CompiledOk, JournalOk, View, Log, Worktree.Valid;
      hide TaskOf, LandingOk, AllPassed, GateOpen, Decision, PathSet, Diff, After;
      EvidenceIsEnough(task, patch, gate);
      ghost var evidence := Evidence(task, patch, gate);
      EnterPhase(task, Checkpointing);
      r, landing := Commit(evidence);
      if r.Done? {
        assert worktree.landings[|worktree.landings| - 1] == landing;
      }
    }

    /**
      * Commits, completes the task in memory and journals it. The commit comes first: dying or throwing
      * before the event is prepared leaves HEAD one landing ahead of the persisted checkpoints.
      */
    method Land(task: Task, patch: StagedPatch, ghost gate: GateReading) returns (r: Exit<()>)
      requires Live() && Trying(task) && MayLand(task, patch, gate)
      modifies store, manifest, worktree`head, worktree`headCommit, worktree`landings
      modifies worktree`index, worktree`working, worktree`ignored
      ensures Durable() && After(old(Here()), Here())
      ensures !r.Crashed? ==> Live()
      ensures r.Done? ==> task.id in manifest.taskStates && manifest.taskStates[task.id].attempts != []
      ensures r.Done? ==>
                && |worktree.landings| == |old(worktree.landings)| + 1
                && |manifest.checkpoints| == |old(manifest.checkpoints)| + 1
                && manifest.checkpoints == old(manifest.checkpoints) + [Checkpoint(task.id, Last(worktree.landings).commit)]
                && manifest.status == RunActive && manifest.currentTaskId == Some(task.id)
                && Journalled(EventDraft(TaskCompletedEvent, Some(task.id),
                                         Some(Last(manifest.taskStates[task.id].attempts).workerId)))
      ensures r.Done? ==>
                Last(worktree.landings).before == old(worktree.head) && Last(worktree.landings).after == old(worktree.index)
      ensures r.Done? ==> Flushed()
      ensures TakenUp(old(World()), World(), gate.since)
      ensures Gap(Here()) <= Gap(old(Here())) + (if r.Done? then 0 else 1)
    {
      hide Sound, Kept, CompiledOk, JournalOk, View, Log;
      hide Worktree.Valid, TaskOf, After, Completed, Backs, MayLand, Decision;
      ViewIsBehind();
      ghost var landing;
      var committed;
      committed, landing := CommitAttempt(task, patch, gate);
      var commit :- committed;
      ghost var before := Here();
      CompleteTask(task, patch, commit, landing);
      r := Journal(EventDraft(TaskCompletedEvent, Some(task.id), Some(LastAttempt(task).workerId)));
      AfterTransitive(old(Here()), before, Here());
      GapOnlyShrinks(before, Here());
    }

    // ---- one attempt ----

    /** The persisted manifest never has a checkpoint that memory has not. */
    lemma ViewIsBehind()
      requires Live()
      ensures !store.lost.checkpoints ==> |View(store).checkpoints| <= |manifest.checkpoints|
    {
      hide WorldOk, RunOk, HeldOk, JournalOk, View, Log, Worktree.Valid, CompiledOk;
    }

    /** How an attempt ended for the loop around it. */
    ghost predicate AttemptClosed(task: Task)
      reads manifest
    {
      && AtFront(task)
      && manifest.taskStates[task.id].attempts != []
      && manifest.taskStates[task.id].phase == PhasePending
      && LastAttempt(task).status != AttemptRunning
      && LastAttempt(task).failure.Some?
      && manifest.currentTaskId == Some(task.id)
    }

    /** Fails the attempt, and the run with it when the failure is the operator's cancellation. */
    method FailAndMaybeCancel(task: Task, f: RunFailure) returns (r: Exit<()>)
      requires Live() && Trying(task)
      requires f.category.CancelledRun? ==> store.cancellationFile
      modifies store, manifest`status, manifest`failure, manifest`taskStates
      modifies manifest`nextSequence, worktree`index, worktree`working, worktree`ignored
      ensures Durable() && After(old(Here()), Here())
      ensures !r.Crashed? ==> Live()
      ensures r.Done? ==> AttemptClosed(task) && Tries(task) == old(Tries(task)) && LastAttempt(task).failure == Some(f)
      ensures r.Done? ==> manifest.checkpoints == old(manifest.checkpoints)
      ensures r.Done? ==> manifest.status == if f.category.CancelledRun? then RunCancelled else RunActive
      ensures r.Done? ==> Flushed()
    {
      hide Sound, Kept, CompiledOk, JournalOk, View, Log, Worktree.Valid, TaskOf;
      var _ :- FailAttempt(task, f);
      if f.category.CancelledRun? {
        ghost var before := Here();
        r := MarkCancelled(task);
        AfterTransitive(old(Here()), before, Here());
      } else {
        r := Done(());
      }
    }

    /** The re-check after validation: stages, decides, and either lands or fails the attempt. */
    method RecheckAndLand(task: Task, ghost gate: GateReading) returns (r: Exit<bool>)
      requires Live() && Trying(task)
      requires AllPassed(task, LastAttempt(task).validations) && GateOpen(task, store.approvalsFile, gate)
      modifies store, manifest, worktree`head, worktree`headCommit, worktree`landings
      modifies worktree`index, worktree`working, worktree`ignored
      ensures Durable() && After(old(Here()), Here())
      ensures !r.Crashed? ==> Live()
      ensures r == Done(true) ==> Advanced1(old(manifest.checkpoints), old(worktree.landings))
      ensures r == Done(true) ==> manifest.status == RunActive && manifest.currentTaskId == Some(task.id)
      ensures r == Done(false) ==>
                AttemptClosed(task) && Tries(task) == old(Tries(task)) && manifest.status == RunActive
      ensures r == Done(false) ==> LastAttempt(task).failure == Some(RunFailure(PolicyViolated, true))
      ensures r == Done(false) ==>
                manifest.checkpoints == old(manifest.checkpoints) && worktree.landings == old(worktree.landings)
      ensures r == Done(true) ==>
                Last(worktree.landings).before == old(worktree.head) && Last(worktree.landings).after == old(worktree.working)
      ensures r.Done? ==> Flushed()
      ensures TakenUp(old(World()), World(), gate.since)
      ensures Gap(Here()) <= Gap(old(Here())) + (if r.Done? then 0 else 1)
    {
      hide Sound, Kept, CompiledOk, JournalOk, View, Log, RunExecution.Flushed;
      hide Worktree.Valid, TaskOf, AllPassed, GateOpen, Decision, PathSet, Diff;
      var patch :- Stage();
      var decision := Decide(task, patch);
      assert Last(manifest.policyDecisions) == decision;
      if !decision.allowed {
        CountViolations(decision);
        ghost var before := Here();
        var failed := FailAndMaybeCancel(task, RunFailure(PolicyViolated, true));
        GapOnlyShrinks(before, Here());
        var _ :- failed;
        return Done(false);
      }
      var _ :- Land(task, patch, gate);
      r := Done(true);
    }

    /** One more checkpoint in memory and one more landing in the worktree, for the same commit. */
    ghost predicate Advanced1(checkpoints: seq<Checkpoint>, landings: seq<Landing>)
      reads manifest, worktree
    {
      && |manifest.checkpoints| == |checkpoints| + 1 && checkpoints <= manifest.checkpoints
      && |worktree.landings| == |landings| + 1
      && Last(manifest.checkpoints).commit == Last(worktree.landings).commit
    }

    /** Cancelled before validation: the run and the attempt are closed, the worktree is rolled back. */
    method AbandonAttempt(task: Task) returns (r: Exit<()>)
      requires Live() && Trying(task) && store.cancellationFile
      modifies store, manifest`status, manifest`failure, manifest`taskStates
      modifies manifest`nextSequence, worktree`index, worktree`working, worktree`ignored
      ensures Durable() && After(old(Here()), Here())
      ensures !r.Crashed? ==> Live()
      ensures r.Done? ==>
                AtFront(task) && manifest.status == RunCancelled && manifest.checkpoints == old(manifest.checkpoints)
      ensures r.Done? ==> manifest.taskStates[task.id].attempts != [] && LastAttempt(task).status == AttemptCancelled
      ensures r.Done? ==> Flushed()
    {
      hide Sound, Kept, CompiledOk, JournalOk, View, Log, Worktree.Valid, TaskOf;
      var _ :- MarkCancelled(task);
      AbandonedIsSound(compiled, View(store), manifest.Snapshot(), World(), task);
      var state := manifest.taskStates[task.id];
      state := WithLast(state, Closed(Last(state.attempts), RunFailure(CancelledRun, false)));
      manifest.taskStates := manifest.taskStates[task.id := state];
      r := Reset();
    }

    /** `validateAndCheckpoint`: true when the task landed and is completed. */
    method ValidateAndCheckpoint(task: Task, ghost gate: GateReading) returns (r: Exit<bool>)
      requires Live() && Trying(task) && GateOpen(task, store.approvalsFile, gate)
      modifies store, manifest, worktree`head, worktree`headCommit, worktree`landings
      modifies worktree`index, worktree`working, worktree`ignored
      ensures Durable() && After(old(Here()), Here())
      ensures !r.Crashed? ==> Live()
      ensures r.Done? ==>
                CheckpointOk(task, r.value, old(Tries(task)), old(manifest.checkpoints), old(worktree.landings))
      ensures old(store.cancellationFile) ==> r != Done(true) && worktree.landings == old(worktree.landings)
      ensures TakenUp(old(World()), World(), gate.since)
      ensures Gap(Here()) <= Gap(old(Here())) + (if r.Done? then 0 else 1)
    {
      hide Sound, Kept, CompiledOk, JournalOk, View, Log, Gap;
      hide Worktree.Valid, TaskOf, AllPassed, GateOpen, AttemptsOk, After, RunExecution.Flushed;
      ghost var approvals := store.approvalsFile;
      var requested := CancellationRequested();
      ghost var before := Here();
      if requested {
        var abandoned := AbandonAttempt(task);
        AfterTransitive(old(Here()), before, Here());
        GapOnlyShrinks(old(Here()), Here());
        var _ :- abandoned;
        return Done(false);
      }
      GateStaysOpen(task, approvals, gate, old(Here()));
      r := ValidateAndLand(task, gate);
      AfterTransitive(old(Here()), before, Here());
      GapOnlyShrinks(old(Here()), before);
    }

    /** What `validateAndCheckpoint` tells its caller. */
    ghost predicate CheckpointOk(task: Task, completed: bool, tries: nat, checkpoints: seq<Checkpoint>,
                                 landings: seq<Landing>)
      reads store, manifest, worktree
    {
      && Flushed()
      && if completed then
           && Advanced1(checkpoints, landings)
           && manifest.status == RunActive && manifest.currentTaskId == Some(task.id)
         else
           && AtFront(task) && manifest.checkpoints == checkpoints && worktree.landings == landings
           && (manifest.status != RunCancelled ==>
                 && manifest.status == RunActive && AttemptClosed(task) && Tries(task) == tries
                 && LastAttempt(task).failure.value in
                      {RunFailure(ValidationFailed, true), RunFailure(PolicyViolated, true)})
    }

    /** The validations, and with all of them passed the re-check and the landing. */
    method ValidateAndLand(task: Task, ghost gate: GateReading) returns (r: Exit<bool>)
      requires Live() && Trying(task) && GateOpen(task, store.approvalsFile, gate)
      modifies store, manifest, worktree`head, worktree`headCommit, worktree`landings
      modifies worktree`index, worktree`working, worktree`ignored
      ensures Durable() && After(old(Here()), Here())
      ensures !r.Crashed? ==> Live()
      ensures r.Done? ==>
                CheckpointOk(task, r.value, old(Tries(task)), old(manifest.checkpoints), old(worktree.landings))
      ensures TakenUp(old(World()), World(), gate.since)
      ensures Gap(Here()) <= Gap(old(Here())) + (if r.Done? then 0 else 1)
    {
      hide Sound, Kept, CompiledOk, JournalOk, View, Log, Gap;
      hide Worktree.Valid, TaskOf, AllPassed, GateOpen, AttemptsOk, After, RunExecution.Flushed;
      ghost var approvals := store.approvalsFile;
      var verdict := Validate(task);
      GapOnlyShrinks(old(Here()), Here());
      var problem :- verdict;
      ghost var before := Here();
      if problem.Some? {
        var failed := FailAndMaybeCancel(task, problem.value);
        AfterTransitive(old(Here()), before, Here());
        GapOnlyShrinks(old(Here()), Here());
        var _ :- failed;
        return Done(false);
      }
      GateStaysOpen(task, approvals, gate, old(Here()));
      r := RecheckAndLand(task, gate);
      AfterTransitive(old(Here()), before, Here());
    }

    lemma GateStaysOpen(task: Task, approvals: seq<ApprovalRecord>, gate: GateReading, start: Moment)
      requires JournalOk(store) && After(start, Here()) && start.world.approvals == approvals
      requires GateOpen(task, approvals, gate)
      ensures GateOpen(task, store.approvalsFile, gate)
    {
      GateOpenGrows(task, approvals, store.approvalsFile, gate);
    }

    // ---- the worker ----

    /** The front task may start an attempt. */
    ghost predicate Ready(task: Task)
      reads manifest
    {
      && AtFront(task)
      && manifest.status == RunActive
      && manifest.currentTaskId == Some(task.id)
      && !manifest.taskStates[task.id].phase.InFlight()
      && manifest.taskStates[task.id].phase != AwaitingAfter
    }

    /** The last attempt is persisted and no worker has been started for it. */
    ghost predicate Unstarted(task: Task)
      requires JournalOk(store) && task.id in manifest.taskStates
      reads store, manifest, worktree
    {
      && task.id in View(store).taskStates
      && Tries(task) <= |View(store).taskStates[task.id].attempts|
      && forall i :: 0 <= i < |worktree.starts| && worktree.starts[i].taskId == task.id ==>
           worktree.starts[i].attempt < Tries(task)
    }

    /** Records what the worker of the last attempt finds. */
    ghost method RecordStart(task: Task, entry: GateReading)
      requires Live() && Trying(task) && worktree.Clean() && Unstarted(task) && EntryOpen(task, entry)
      modifies worktree`starts
      ensures Live() && Durable() && After(old(Here()), Here())
      ensures worktree.starts == old(worktree.starts) +
              [Start(task.id, Tries(task), WorkerOf(compiled.plan, task, Tries(task)), entry,
                     worktree.head, worktree.head, map[], |worktree.landings|)]
      ensures TakenUp(old(World()), World(), entry.since)
    {
      hide Sound, Kept, CompiledOk, JournalOk, View, Log, TaskOf, WorkerOf;
      hide StartOk, StartAdmitted, StartedOnce, StartsCounted, EntryRead, Chained;
      var worker := WorkerOf(compiled.plan, task, Tries(task));
      var start := Start(task.id, Tries(task), worker, entry, worktree.head, worktree.head, map[], |worktree.landings|);
      ghost var w := World();
      StartIsOk(task, entry, start);
      SoundStartsAreCounted(compiled, View(store), manifest.Snapshot(), w);
      OneMoreStart(View(store), worktree.starts, start);
      StartKeepsSound(compiled, View(store), manifest.Snapshot(), w, start);
      worktree.starts := worktree.starts + [start];
      SoundIsKept(compiled, View(store), manifest.Snapshot(), World());
    }

    lemma StartIsOk(task: Task, entry: GateReading, s: Start)
      requires Live() && Trying(task) && EntryOpen(task, entry)
      requires s == Start(task.id, Tries(task), WorkerOf(compiled.plan, task, Tries(task)), entry,
                          worktree.head, worktree.head, map[], |worktree.landings|)
      ensures StartOk(compiled, worktree.base, worktree.landings, s)
      ensures StartAdmitted(compiled, store.approvalsFile, s)
    {
      hide Sound, Kept, CompiledOk, JournalOk, View, Log, TaskOf, WorkerOf, Chained, EntryRead;
      LastIsNumbered(compiled, View(store), manifest.Snapshot(), World(), task);
      assert worktree.landings[..|worktree.landings|] == worktree.landings;
    }

    /**
      * The worker's event stream: each event is journalled, and a throw from the worker or from the
      * journal ends the stream as a retryable failure. `None` means it ran to its end.
      */
    method ConsumeEvents(task: Task) returns (r: Exit<Option<RunFailure>>, reported: Option<bool>, aborted: bool)
      requires Live()
      modifies store, manifest`nextSequence, worktree`index, worktree`working, worktree`ignored
      ensures Durable() && After(old(Here()), Here())
      ensures !r.Crashed? ==> Live()
      ensures r.Done? || r.Crashed?
      ensures r.Done? && r.value.Some? ==> r.value.value == RunFailure(WorkerFailed, true)
      ensures aborted ==> store.cancellationFile
    {
      hide Sound, Kept, CompiledOk, JournalOk, View, Log, Worktree.Valid, TaskOf;
      SoundIsKept(compiled, View(store), manifest.Snapshot(), World());
      reported, aborted := None, false;
      var events: nat := *;
      while events > 0
        invariant Live() && Durable() && After(old(Here()), Here())
        invariant aborted ==> store.cancellationFile
      {
        ghost var before := Here();
        Edit();
        var throws: bool := *;
        if throws {
          return Done(Some(RunFailure(WorkerFailed, true))), reported, aborted;
        }
        var journalled := Journal(EventDraft(WorkerReportedEvent, Some(task.id), None));
        AfterTransitive(old(Here()), before, Here());
        if journalled.Crashed? {
          return Crashed, reported, aborted;
        }
        if journalled.Thrown? {
          return Done(Some(RunFailure(WorkerFailed, true))), reported, aborted;
        }
        var completion: bool := *;
        if completion {
          var success: bool := *;
          reported := Some(success);
        }
        if store.cancellationFile {
          aborted := true;
        }
        events := events - 1;
      }
      Edit();
      r := Done(None);
    }

    method CountWorkerFailure()
      requires Live()
      modifies manifest`metrics
      ensures Live()
      ensures manifest.metrics ==
              old(manifest.metrics).(workerFailureCount := old(manifest.metrics.workerFailureCount) + 1)
    {
      hide Sound, CompiledOk, JournalOk, View, Log, Worktree.Valid;
      ghost var before := manifest.Snapshot();
      manifest.metrics := manifest.metrics.(workerFailureCount := manifest.metrics.workerFailureCount + 1);
      FreeCountersAreSound(compiled, View(store), before, manifest.Snapshot(), World());
    }

    /** `runWorker`: `None` means the worker reported success and no cancellation is on record. */
    method RunWorker(task: Task, ghost entry: GateReading) returns (r: Exit<Option<RunFailure>>)
      requires Live() && Trying(task) && worktree.Clean() && Unstarted(task) && EntryOpen(task, entry)
      modifies store, manifest`metrics, manifest`nextSequence
      modifies worktree`index, worktree`working, worktree`ignored, worktree`starts
      ensures Durable() && After(old(Here()), Here())
      ensures r.Done? || r.Crashed?
      ensures r.Done? ==> Live() && Trying(task)
      ensures r.Done? && r.value.Some? ==>
                || r.value.value in {RunFailure(WorkerFailed, true), RunFailure(WorkerProtocol, true)}
                || (r.value.value == RunFailure(CancelledRun, false) && store.cancellationFile)
      ensures |worktree.starts| == |old(worktree.starts)| + 1
      ensures TakenUp(old(World()), World(), entry.since)
    {
      hide Sound, Kept, CompiledOk, JournalOk, View, Log, Worktree.Valid, TaskOf, WorkerOf;
      RecordStart(task, entry);
      ghost var before := Here();
      var ended, reported, aborted := ConsumeEvents(task);
      AfterTransitive(old(Here()), before, Here());
      var thrown :- ended;
      if thrown.Some? {
        return Done(thrown);
      }
      before := Here();
      Others();
      AfterTransitive(old(Here()), before, Here());
      if aborted || store.cancellationFile {
        return Done(Some(RunFailure(CancelledRun, false)));
      }
      if reported.None? {
        return Done(Some(RunFailure(WorkerProtocol, true)));
      }
      if !reported.value {
        CountWorkerFailure();
        return Done(Some(RunFailure(WorkerFailed, true)));
      }
      r := Done(None);
    }

    // ---- the loop of executeTask ----

    method PushAttempt(task: Task)
      requires Live() && Ready(task) && Tries(task) < task.Budget()
      modifies manifest`taskStates, manifest`metrics
      ensures Live() && Trying(task) && Tries(task) == old(Tries(task)) + 1
      ensures LastAttempt(task) == NewAttempt(Tries(task), WorkerOf(compiled.plan, task, Tries(task)))
      ensures manifest.Snapshot() == Started(old(manifest.Snapshot()), task.id, LastAttempt(task).workerId)
    {
      hide Sound, CompiledOk, JournalOk, View, Log, Worktree.Valid, TaskOf, WorkerIds;
      StartedIsSound(compiled, View(store), manifest.Snapshot(), World(), task);
      var workerIds := WorkerIds(current.plan, task);
      var state := manifest.taskStates[task.id];
      var attemptNumber := |state.attempts| + 1;
      var workerId := workerIds[(attemptNumber - 1) % |workerIds|];
      assert workerId == WorkerOf(compiled.plan, task, attemptNumber);
      state := state.(attempts := state.attempts + [NewAttempt(attemptNumber, workerId)],
                      status := TaskRunning, phase := Working);
      manifest.taskStates := manifest.taskStates[task.id := state];
      manifest.metrics := manifest.metrics.(attemptCount := manifest.metrics.attemptCount + 1);
    }

    /** The new attempt is persisted before its worker is looked up. */
    method StartAttempt(task: Task) returns (r: Exit<()>)
      requires Live() && Ready(task) && Tries(task) < task.Budget() && !store.cancellationFile
      modifies store, manifest`taskStates, manifest`metrics, manifest`nextSequence
      ensures Durable() && After(old(Here()), Here())
      ensures !r.Crashed? ==> Live()
      ensures r.Done? ==> Trying(task) && Tries(task) == old(Tries(task)) + 1 && Unstarted(task)
      ensures r.Done? ==> Journalled(EventDraft(AttemptStartedEvent, Some(task.id), Some(LastAttempt(task).workerId)))
      ensures r.Done? ==> Flushed()
    {
      hide Sound, Kept, CompiledOk, JournalOk, View, Log, Worktree.Valid, TaskOf, After, WorkerOf;
      StartedOnlyBefore(compiled, View(store), manifest.Snapshot(), World(), task);
      PushAttempt(task);
      r := Journal(EventDraft(AttemptStartedEvent, Some(task.id), Some(LastAttempt(task).workerId)));
    }

    /** Cancellation check, rollback to HEAD, and a new attempt on record; false when the run is cancelled. */
    method BeginAttempt(task: Task) returns (r: Exit<bool>)
      requires Live() && Ready(task) && Tries(task) < task.Budget()
      modifies store, manifest, worktree`index, worktree`working, worktree`ignored
      ensures Durable() && After(old(Here()), Here())
      ensures !r.Crashed? ==> Live()
      ensures r.Done? ==> manifest.checkpoints == old(manifest.checkpoints) && AtFront(task)
      ensures r == Done(true) ==> Trying(task) && Tries(task) == old(Tries(task)) + 1 && worktree.Clean()
      ensures r == Done(true) ==> Unstarted(task)
      ensures r == Done(false) ==> manifest.status == RunCancelled
      ensures r.Done? ==> Flushed()
      ensures old(store.cancellationFile) ==> r != Done(true)
    {
      hide Sound, Kept, CompiledOk, JournalOk, View, Log, Worktree.Valid, TaskOf, After, WorkerOf, RunExecution.Flushed;
      var requested := CancellationRequested();
      ghost var before := Here();
      if requested {
        var marked := MarkCancelled(task);
        AfterTransitive(old(Here()), before, Here());
        var _ :- marked;
        return Done(false);
      }
      SoundIsKept(compiled, View(store), manifest.Snapshot(), World());
      var _ :- Reset();
      var started := StartAttempt(task);
      AfterTransitive(old(Here()), before, Here());
      var _ :- started;
      r := Done(true);
    }

    /** The gate a task must have passed before an attempt; the `after` gate is read later. */
    ghost predicate EntryOpen(task: Task, entry: GateReading)
      reads store
    {
      EntryRead(task, store.approvalsFile, entry)
    }

    lemma EntryStaysOpen(task: Task, entry: GateReading, start: Moment)
      requires JournalOk(store) && After(start, Here())
      requires EntryRead(task, start.world.approvals, entry)
      ensures EntryOpen(task, entry)
    {
      hide GateOpen;
      if !task.Approval().GateAfter? {
        GateOpenGrows(task, start.world.approvals, store.approvalsFile, entry);
      }
    }

    /** What each way to end a pass means, for the attempts, checkpoints and landings before it. */
    ghost predicate PassOk(task: Task, pass: Pass, tries: nat, checkpoints: seq<Checkpoint>, landings: seq<Landing>,
                           floor: nat)
      reads store, manifest, worktree
    {
      match pass
      case Again =>
        Flushed() && Failed(task, tries) && manifest.checkpoints == checkpoints && worktree.landings == landings
      case Returned(true) =>
        && Flushed()
        && Advanced1(checkpoints, landings) && manifest.status == RunActive && manifest.currentTaskId == Some(task.id)
      case Returned(false) =>
        && Flushed() && AtFront(task) && manifest.checkpoints == checkpoints && worktree.landings == landings
        && manifest.status in {RunCancelled, RunAwaitingApproval, RunStopped}
        && (manifest.status == RunStopped ==>
              RejectionOnRecord(compiled, manifest.Snapshot(), store.approvalsFile, floor))
    }

    /** A rejection read since a later moment was read since an earlier one. */
    lemma PassSince(task: Task, pass: Pass, tries: nat, checkpoints: seq<Checkpoint>, landings: seq<Landing>,
                    floor: nat, earlier: nat)
      requires PassOk(task, pass, tries, checkpoints, landings, floor) && earlier <= floor
      ensures PassOk(task, pass, tries, checkpoints, landings, earlier)
    {
      hide RejectionOnRecord, Failed, AtFront, Advanced1;
      if pass == Returned(false) && manifest.status == RunStopped {
        RejectionGrows(compiled, manifest.Snapshot(), manifest.Snapshot(), store.approvalsFile, store.approvalsFile,
                       floor, earlier);
      }
    }

    /** The last attempt is closed with a retryable failure, and the task may try again. */
    ghost predicate Failed(task: Task, tries: nat)
      reads manifest
    {
      && Ready(task) && AttemptClosed(task) && Tries(task) == tries
      && LastAttempt(task).failure.value.retryable
    }

    method TryWorker(task: Task, ghost entry: GateReading) returns (r: Exit<Option<Pass>>)
      requires Live() && Trying(task) && worktree.Clean() && Unstarted(task) && EntryOpen(task, entry)
      modifies store, manifest, worktree`index, worktree`working, worktree`ignored, worktree`starts
      ensures Durable() && After(old(Here()), Here())
      ensures !r.Crashed? ==> Live()
      ensures TakenUp(old(World()), World(), entry.since)
      ensures r == Done(None) ==>
                Trying(task) && Tries(task) == old(Tries(task)) && manifest.checkpoints == old(manifest.checkpoints)
      ensures r.Done? && r.value.Some? ==>
                PassOk(task, r.value.value, old(Tries(task)), old(manifest.checkpoints), worktree.landings,
                       old(|store.approvalsFile|))
    {
      hide Sound, Kept, CompiledOk, JournalOk, View, Log;
      hide Worktree.Valid, TaskOf, After, Advanced1, RunExecution.Flushed, RejectionOnRecord, TakenUp;
      if LastAttempt(task).workerId !in workers {
        var unavailable := FailAndMaybeCancel(task, RunFailure(WorkerUnavailable, true));
        NothingTakenUp(old(World()), World(), entry.since);
        var _ :- unavailable;
        return Done(Some(Again));
      }
      var ran := RunWorker(task, entry);
      var problem :- ran;
      if problem.None? {
        return Done(None);
      }
      ghost var before := Here();
      var failed := FailAndMaybeCancel(task, problem.value);
      AfterTransitive(old(Here()), before, Here());
      TakenUpStays(old(World()), before.world, World(), entry.since);
      var _ :- failed;
      if problem.value.category.CancelledRun? {
        return Done(Some(Returned(false)));
      }
      if !problem.value.retryable {
        assert false;
      }
      r := Done(Some(Again));
    }

    /** Stages the worker's changes onto the attempt record. */
    method InspectWork(task: Task) returns (r: Exit<StagedPatch>)
      requires Live() && Trying(task)
      modifies manifest`taskStates, worktree`index, worktree`working, worktree`ignored
      ensures Live() && Durable() && Trying(task) && Tries(task) == old(Tries(task))
      ensures After(old(Here()), Here())
      ensures r.Done? ==> manifest.Snapshot() == Inspected(old(manifest.Snapshot()), task.id, r.value)
      ensures r.Done? ==> PathSet(r.value.changedFiles) == Diff(worktree.head, worktree.index)
    {
      hide Sound, Kept, CompiledOk, JournalOk, View, Log, Worktree.Valid, TaskOf;
      var patch :- Stage();
      InspectedIsSound(compiled, View(store), manifest.Snapshot(), World(), task, patch);
      var state := manifest.taskStates[task.id];
      state := WithLast(state, Last(state.attempts).(changedFiles := patch.changedFiles, patchBytes := patch.patchBytes));
      manifest.taskStates := manifest.taskStates[task.id := state];
      r := Done(patch);
    }

    /** Decides about the staged patch and journals the decision before any counter moves. */
    method DecideAndJournal(task: Task, patch: StagedPatch) returns (r: Exit<PolicyDecision>)
      requires Live() && Trying(task)
      modifies store, manifest`policyDecisions, manifest`nextSequence
      ensures Durable() && After(old(Here()), Here())
      ensures !r.Crashed? ==> Live() && Trying(task) && Tries(task) == old(Tries(task))
      ensures r.Done? ==> r.value == Decision(PolicyOf(compiled), task, LastAttempt(task).number, patch)
      ensures r.Done? ==> Journalled(EventDraft(PolicyDecidedEvent, Some(task.id), Some(LastAttempt(task).workerId)))
    {
      hide Sound, Kept, CompiledOk, JournalOk, View, Log, Worktree.Valid, TaskOf, After, Decision;
      var decision := Decide(task, patch);
      var _ :- Journal(EventDraft(PolicyDecidedEvent, Some(task.id), Some(LastAttempt(task).workerId)));
      r := Done(decision);
    }

    /** The first policy decision of an attempt. */
    method ApplyPolicy(task: Task) returns (r: Exit<Option<Pass>>)
      requires Live() && Trying(task)
      modifies store, manifest, worktree`index, worktree`working, worktree`ignored
      ensures Durable() && After(old(Here()), Here())
      ensures !r.Crashed? ==> Live()
      ensures r == Done(None) ==>
                Trying(task) && Tries(task) == old(Tries(task)) && manifest.checkpoints == old(manifest.checkpoints)
      ensures r.Done? && r.value.Some? ==> r.value.value == Again
      ensures r.Done? && r.value.Some? ==>
                PassOk(task, r.value.value, old(Tries(task)), old(manifest.checkpoints), worktree.landings,
                       old(|store.approvalsFile|))
    {
      hide Sound, Kept, CompiledOk, JournalOk, View, Log, RunExecution.Flushed;
      hide Worktree.Valid, TaskOf, After, Decision, Advanced1, Journalled;
      var patch :- InspectWork(task);
      ghost var before := Here();
      var decided := DecideAndJournal(task, patch);
      AfterTransitive(old(Here()), before, Here());
      var decision :- decided;
      if decision.allowed {
        return Done(None);
      }
      CountViolations(decision);
      before := Here();
      var failed := FailAndMaybeCancel(task, RunFailure(PolicyViolated, true));
      AfterTransitive(old(Here()), before, Here());
      var _ :- failed;
      r := Done(Some(Again));
    }

    /** Closes the attempt as rejected and stops the run. */
    method StopRejected(task: Task, ghost floor: nat) returns (r: Exit<()>)
      requires Live() && Trying(task)
      requires RejectionOnRecord(compiled, manifest.Snapshot(), store.approvalsFile, floor)
      modifies store, manifest`status, manifest`failure, manifest`taskStates, manifest`nextSequence
      modifies worktree`index, worktree`working, worktree`ignored
      ensures Durable() && After(old(Here()), Here())
      ensures !r.Crashed? ==> Live()
      ensures r.Done? ==> AtFront(task) && manifest.status == RunStopped
      ensures r.Done? ==> manifest.failure == Some(RunFailure(ApprovalRejected, false))
      ensures r.Done? ==> manifest.checkpoints == old(manifest.checkpoints)
      ensures r.Done? ==> RejectionOnRecord(compiled, manifest.Snapshot(), store.approvalsFile, floor)
      ensures r.Done? ==> Flushed()
    {
      hide Sound, Kept, CompiledOk, JournalOk, View, Log, Worktree.Valid, TaskOf, RejectionOnRecord;
      ghost var before, approvals := manifest.Snapshot(), store.approvalsFile;
      var rejected := RunFailure(ApprovalRejected, false);
      var _ :- FailAttempt(task, rejected);
      RejectionGrows(compiled, before, manifest.Snapshot(), approvals, store.approvalsFile, floor, 0);
      RejectionGrows(compiled, before, manifest.Snapshot(), approvals, store.approvalsFile, floor, floor);
      StoppedIsSound(compiled, View(store), manifest.Snapshot(), World(), task);
      ghost var stopping := manifest.Snapshot();
      manifest.status := RunStopped;
      manifest.failure := Some(rejected);
      RejectionGrows(compiled, stopping, manifest.Snapshot(), store.approvalsFile, store.approvalsFile, floor, floor);
      r := Done(());
    }

    /** The `after` gate; `gate` is the reading it was found open with. */
    method AfterGate(task: Task, ghost entry: GateReading) returns (r: Exit<Option<Pass>>, ghost gate: GateReading)
      requires Live() && Trying(task) && EntryOpen(task, entry)
      modifies store, manifest, worktree`index, worktree`working, worktree`ignored
      ensures Durable() && After(old(Here()), Here())
      ensures !r.Crashed? ==> Live()
      ensures r == Done(None) ==>
                Trying(task) && Tries(task) == old(Tries(task)) && manifest.checkpoints == old(manifest.checkpoints)
      ensures entry.since <= gate.since <= gate.consulted <= |store.approvalsFile|
      ensures task.Approval().GateAfter? ==> old(|store.approvalsFile|) <= gate.since
      ensures r.Done? ==> (r.value.None? <==> GateOpen(task, store.approvalsFile, gate))
      ensures r.Done? && r.value.Some? ==>
                PassOk(task, r.value.value, old(Tries(task)), old(manifest.checkpoints), worktree.landings,
                       old(|store.approvalsFile|))
    {
      hide Sound, Kept, CompiledOk, JournalOk, View, Log, Worktree.Valid, TaskOf, GateOpen, RejectionOnRecord;
      hide After, LatestFor, RunExecution.Flushed;
      SoundIsKept(compiled, View(store), manifest.Snapshot(), World());
      gate := entry;
      AfterReflexive(Here());
      if !task.Approval().GateAfter? {
        return Done(None), gate;
      }
      var read: Exit<GateResult>;
      ghost var consulted;
      read, consulted := ApprovalDecision(task, AfterChange);
      gate := GateReading(old(|store.approvalsFile|), consulted);
      if !read.Done? {
        return read.PropagateFailure(), gate;
      }
      ReadingMeans(task, gate.since, gate.consulted);
      if read.value == GateWaiting {
        return Done(Some(Returned(false))), gate;
      }
      if read.value == GateRejected {
        ghost var before := Here();
        var refused := RefuseAfter(task, gate);
        AfterTransitive(old(Here()), before, Here());
        if !refused.Done? {
          return refused.PropagateFailure(), gate;
        }
        return Done(Some(refused.value)), gate;
      }
      return Done(None), gate;
    }

    method RefuseAfter(task: Task, ghost gate: GateReading) returns (r: Exit<Pass>)
      requires Live() && Trying(task) && gate.since <= gate.consulted <= |store.approvalsFile|
      requires RejectionOnRecord(compiled, manifest.Snapshot(), store.approvalsFile, gate.since)
      modifies store, manifest`status, manifest`failure, manifest`taskStates, manifest`nextSequence
      modifies worktree`index, worktree`working, worktree`ignored
      ensures Durable() && After(old(Here()), Here())
      ensures !r.Crashed? ==> Live()
      ensures gate.consulted <= |store.approvalsFile|
      ensures GateOpen(task, store.approvalsFile, gate) <==> old(GateOpen(task, store.approvalsFile, gate))
      ensures r.Done? ==>
                PassOk(task, r.value, old(Tries(task)), old(manifest.checkpoints), worktree.landings, gate.since)
      ensures r.Done? ==> r.value == Returned(false)
    {
      hide Sound, Kept, CompiledOk, JournalOk, View, Log, Worktree.Valid, TaskOf, GateOpen, RejectionOnRecord;
      hide After, RunExecution.Flushed;
      ghost var before, approvals := Here(), store.approvalsFile;
      var stopped := StopRejected(task, gate.since);
      ApprovalsGrow(before, Here());
      GateOpenStays(task, approvals, store.approvalsFile, gate);
      var _ :- stopped;
      r := Done(Returned(false));
    }

    /** One pass of the loop in `executeTask`, from the cancellation check to the checkpoint. */
    method AttemptOnce(task: Task, ghost entry: GateReading) returns (r: Exit<Pass>)
      requires Live() && Ready(task) && Tries(task) < task.Budget() && EntryOpen(task, entry)
      modifies store, manifest, worktree
      ensures Durable() && After(old(Here()), Here())
      ensures !r.Crashed? ==> Live()
      ensures r.Done? ==> PassOk(task, r.value, old(Tries(task)) + 1, old(manifest.checkpoints), old(worktree.landings),
                                 old(|store.approvalsFile|))
      ensures TakenUp(old(World()), World(), entry.since)
      ensures old(store.cancellationFile) ==>
                worktree.landings == old(worktree.landings) && worktree.starts == old(worktree.starts)
      ensures old(store.cancellationFile) ==> r != Done(Returned(true))
      ensures Gap(Here()) <= Gap(old(Here())) + (if r.Done? then 0 else 1)
    {
      hide Sound, Kept, CompiledOk, JournalOk, View, Log, Worktree.Valid, TaskOf, GateOpen, After, Advanced1, Gap;
      ghost var tries := Tries(task) + 1;
      var begun := BeginAttempt(task);
      GapOnlyShrinks(old(Here()), Here());
      var started :- begun;
      if !started {
        return Done(Returned(false));
      }
      ghost var before := Here();
      EntryStaysOpen(task, entry, old(Here()));
      var worked := TryWorker(task, entry);
      AfterTransitive(old(Here()), before, Here());
      GapOnlyShrinks(old(Here()), Here());
      var failed :- worked;
      if failed.Some? {
        ApprovalsGrow(old(Here()), before);
        PassSince(task, failed.value, tries, old(manifest.checkpoints), old(worktree.landings),
                  |before.world.approvals|, old(|store.approvalsFile|));
        return Done(failed.value);
      }
      EntryStaysOpen(task, entry, old(Here()));
      before := Here();
      ApprovalsGrow(old(Here()), before);
      r := AcceptWork(task, entry);
      AfterTransitive(old(Here()), before, Here());
      if r.Done? {
        PassSince(task, r.value, tries, old(manifest.checkpoints), old(worktree.landings),
                  |before.world.approvals|, old(|store.approvalsFile|));
      }
    }

    /** The latest record for the task's gate approves. */
    ghost predicate Approved(task: Task)
      reads store
    {
      LatestFor(task, store.approvalsFile, |store.approvalsFile|) == Some(GateRecord(task, true))
    }

    /** A gate that was open at the start is found closed only if somebody decided it again. */
    lemma GateRefused(task: Task, gate: GateReading, start: Moment)
      requires start.world.approvals <= store.approvalsFile
      requires |start.world.approvals| <= gate.since <= gate.consulted <= |store.approvalsFile|
      requires !GateOpen(task, store.approvalsFile, gate)
      requires LatestFor(task, start.world.approvals, |start.world.approvals|) == Some(GateRecord(task, true))
      ensures !NoneSince(task, store.approvalsFile, |start.world.approvals|)
    {
      hide GateOpen, GateRecord;
      var early := |start.world.approvals|;
      if NoneSince(task, store.approvalsFile, early) {
        assert store.approvalsFile[..early] == start.world.approvals[..early];
        OldApprovalStillCounts(task, store.approvalsFile, early, gate);
      }
    }

    /** The second half of a pass: policy, `after` gate, validation and checkpoint. */
    method AcceptWork(task: Task, ghost entry: GateReading) returns (r: Exit<Pass>)
      requires Live() && Trying(task) && EntryOpen(task, entry)
      modifies store, manifest, worktree`head, worktree`headCommit, worktree`landings
      modifies worktree`index, worktree`working, worktree`ignored
      ensures Durable() && After(old(Here()), Here())
      ensures !r.Crashed? ==> Live()
      ensures r.Done? ==> PassOk(task, r.value, old(Tries(task)), old(manifest.checkpoints), old(worktree.landings),
                                 old(|store.approvalsFile|))
      ensures TakenUp(old(World()), World(), entry.since)
      ensures r == Done(Returned(false)) && task.Approval().GateAfter? && old(Approved(task)) ==>
                manifest.status == RunCancelled || !NoneSince(task, store.approvalsFile, old(|store.approvalsFile|))
      ensures Gap(Here()) <= Gap(old(Here())) + (if r.Done? then 0 else 1)
    {
      hide Sound, Kept, CompiledOk, JournalOk, View, Log, Worktree.Valid, TaskOf, GateOpen, After, Advanced1, Gap;
      hide TakenUp;
      var judged := ApplyPolicy(task);
      GapOnlyShrinks(old(Here()), Here());
      NothingTakenUp(old(World()), World(), entry.since);
      var refused :- judged;
      if refused.Some? {
        return Done(refused.value);
      }
      EntryStaysOpen(task, entry, old(Here()));
      ghost var before := Here();
      ApprovalsGrow(old(Here()), before);
      ghost var gate;
      var read: Exit<Option<Pass>>;
      read, gate := AfterGate(task, entry);
      AfterTransitive(old(Here()), before, Here());
      ApprovalsGrow(old(Here()), Here());
      GapOnlyShrinks(old(Here()), Here());
      NothingTakenUp(old(World()), World(), entry.since);
      var held :- read;
      if held.Some? {
        if old(Approved(task)) && task.Approval().GateAfter? {
          GateRefused(task, gate, old(Here()));
        }
        PassSince(task, held.value, old(Tries(task)), old(manifest.checkpoints), old(worktree.landings),
                  |before.world.approvals|, old(|store.approvalsFile|));
        return Done(held.value);
      }
      before := Here();
      var landed := ValidateAndCheckpoint(task, gate);
      AfterTransitive(old(Here()), before, Here());
      TakenUpTransitive(old(World()), before.world, World(), entry.since, gate.since);
      var completed :- landed;
      if completed {
        return Done(Returned(true));
      }
      if manifest.status == RunCancelled {
        return Done(Returned(false));
      }
      if LastAttempt(task).failure.Some? && !LastAttempt(task).failure.value.retryable {
        assert false;
      }
      r := Done(Again);
    }

    /** The budget is spent: the task and the run fail. */
    method ExhaustTask(task: Task) returns (r: Exit<()>)
      requires Live() && AtFront(task) && Tries(task) >= task.Budget()
      modifies store, manifest`status, manifest`failure, manifest`taskStates, manifest`nextSequence
      ensures Durable() && After(old(Here()), Here())
      ensures !r.Crashed? ==> Live()
      ensures !r.Crashed? ==> manifest.Snapshot() == Now(Exhausted(old(manifest.Snapshot()), task.id))
      ensures r.Done? ==> Journalled(EventDraft(TaskFailedEvent, Some(task.id), None))
      ensures r.Done? ==> Flushed()
    {
      hide Sound, Kept, CompiledOk, JournalOk, View, Log, Worktree.Valid, TaskOf;
      ExhaustedIsSound(compiled, View(store), manifest.Snapshot(), World(), task);
      var state := manifest.taskStates[task.id];
      manifest.failure := if state.attempts != [] && Last(state.attempts).failure.Some? then Last(state.attempts).failure
                          else Some(RunFailure(WorkerFailed, false));
      manifest.status := RunFailed;
      manifest.taskStates := manifest.taskStates[task.id := state.(status := TaskFailed, phase := PhasePending)];
      r := Journal(EventDraft(TaskFailedEvent, Some(task.id), None));
    }

    /**
      * `executeTask`: true when the task is completed; false when the run was cancelled, waits, was
      * stopped by a rejection, or failed with the whole budget spent.
      */
    method ExecuteTask(task: Task, ghost entry: GateReading) returns (r: Exit<bool>)
      requires Live() && Ready(task) && EntryOpen(task, entry)
      modifies store, manifest, worktree
      ensures Durable() && After(old(Here()), Here())
      ensures !r.Crashed? ==> Live()
      ensures r == Done(true) ==> Advanced1(old(manifest.checkpoints), old(worktree.landings))
      ensures r == Done(true) ==> manifest.status == RunActive && manifest.currentTaskId == Some(task.id)
      ensures r == Done(false) ==>
                && AtFront(task)
                && manifest.checkpoints == old(manifest.checkpoints) && worktree.landings == old(worktree.landings)
                && manifest.status in {RunCancelled, RunAwaitingApproval, RunStopped, RunFailed}
                && (manifest.status == RunFailed ==> Tries(task) >= task.Budget())
                && (manifest.status == RunStopped ==>
                      RejectionOnRecord(compiled, manifest.Snapshot(), store.approvalsFile, old(|store.approvalsFile|)))
      ensures r.Done? ==> Flushed()
      ensures TakenUp(old(World()), World(), entry.since)
      ensures Gap(Here()) <= Gap(old(Here())) + (if r.Done? then 0 else 1)
    {
      hide Sound, Kept, CompiledOk, JournalOk, View, Log;
      hide Worktree.Valid, TaskOf, GateOpen, After, Advanced1, Gap, RunExecution.Flushed;
      AfterReflexive(Here());
      SoundIsKept(compiled, View(store), manifest.Snapshot(), World());
      while Tries(task) < task.Budget()
        invariant Live() && Durable() && Ready(task) && EntryOpen(task, entry)
        invariant After(old(Here()), Here()) && Gap(Here()) <= Gap(old(Here()))
        invariant TakenUp(old(World()), World(), entry.since)
        invariant manifest.checkpoints == old(manifest.checkpoints) && worktree.landings == old(worktree.landings)
        decreases task.Budget() - Tries(task)
      {
        ghost var before := Here();
        var passed := AttemptOnce(task, entry);
        AfterTransitive(old(Here()), before, Here());
        TakenUpTransitive(old(World()), before.world, World(), entry.since, entry.since);
        var pass :- passed;
        ApprovalsGrow(old(Here()), before);
        if pass.Returned? {
          PassSince(task, pass, old(Tries(task)), old(manifest.checkpoints), old(worktree.landings),
                    |before.world.approvals|, old(|store.approvalsFile|));
          return Done(pass.completed);
        }
        EntryStaysOpen(task, entry, before);
      }
      ghost var before := Here();
      var exhausted := ExhaustTask(task);
      AfterTransitive(old(Here()), before, Here());
      GapOnlyShrinks(before, Here());
      var _ :- exhausted;
      r := Done(false);
    }
  }
}
