/**
  * `execute` of packages/agent-runtime/src/engine/orchestrator.ts: the loop over the tasks, the catch
  * handler around it, and the saves of `finalize`.
  */
module RunLoop {
  import opened Basics
  import opened PlanTypes
  import opened RunTypes
  import opened Worktrees
  import opened Journal
  import opened CompiledPlans
  import opened RunProtocol
  import opened RunSteps
  import opened Operators
  import opened Runtime

  /** How the loop over the tasks goes on after one of them. */
  datatype TaskEnd = NextTask | LeaveLoop | Pause

  /** The front task is not in flight. */
  ghost predicate Quiet(x: RunExecution)
    reads x.manifest
  {
    |x.manifest.checkpoints| < |x.compiled.taskOrder| ==>
      && Front(x.compiled, x.manifest.Snapshot()) in x.manifest.taskStates
      && !x.manifest.taskStates[Front(x.compiled, x.manifest.Snapshot())].phase.InFlight()
  }

  /** HEAD is the last checkpoint: one landing for each, and the last ones are the same commit. */
  ghost predicate Rested(checkpoints: seq<Checkpoint>, landings: seq<Landing>) {
    |landings| == |checkpoints|
    && (checkpoints != [] ==> Last(checkpoints).commit == Last(landings).commit)
  }

  ghost predicate AtRest(x: RunExecution)
    reads x.manifest, x.worktree
  {
    Rested(x.manifest.checkpoints, x.worktree.landings)
  }

  /** A run that stopped did so because, since the log had `floor` approvals, the front task's gate read as rejected. */
  ghost predicate StoppedByGate(x: RunExecution, floor: nat)
    reads x.store, x.manifest
  {
    x.manifest.status == RunStopped ==>
      RejectionOnRecord(x.compiled, x.manifest.Snapshot(), x.store.approvalsFile, floor)
  }

  lemma StoppedSince(x: RunExecution, floor: nat, earlier: nat)
    requires StoppedByGate(x, floor) && earlier <= floor
    ensures StoppedByGate(x, earlier)
  {
    hide RejectionOnRecord;
    if x.manifest.status == RunStopped {
      RejectionGrows(x.compiled, x.manifest.Snapshot(), x.manifest.Snapshot(), x.store.approvalsFile,
                     x.store.approvalsFile, floor, earlier);
    }
  }

  /** What each way to end a task means. */
  ghost predicate TaskEndOk(x: RunExecution, task: Task, end: TaskEnd, checkpoints: seq<Checkpoint>,
                            landings: seq<Landing>, floor: nat)
    reads x.store, x.manifest, x.worktree
  {
    match end
    case NextTask =>
      && x.Flushed() && x.Advanced1(checkpoints, landings)
      && x.manifest.status == RunActive && x.manifest.currentTaskId == Some(task.id)
    case LeaveLoop =>
      && x.manifest.checkpoints == checkpoints && x.worktree.landings == landings
      && x.manifest.status in {RunCancelled, RunStopped, RunFailed}
      && StoppedByGate(x, floor) && x.Flushed()
    case Pause =>
      && x.manifest.checkpoints == checkpoints && x.worktree.landings == landings
      && x.manifest.status == RunAwaitingApproval
  }

  /** No worker was started and nothing landed. */
  ghost predicate NothingMore(x: RunExecution, landings: seq<Landing>, starts: seq<Start>)
    reads x.worktree
  {
    x.worktree.landings == landings && x.worktree.starts == starts
  }

  /** The task may be worked on, or its changes await their gate. */
  ghost predicate Entered(x: RunExecution, task: Task)
    reads x.manifest
  {
    && x.AtFront(task)
    && x.manifest.status == RunActive
    && x.manifest.currentTaskId == Some(task.id)
    && !x.manifest.taskStates[task.id].phase.InFlight()
  }

  method SetCurrent(x: RunExecution, task: Task)
    requires x.Live() && x.AtFront(task)
    modifies x.manifest`currentTaskId
    ensures x.Live() && x.AtFront(task) && x.manifest.currentTaskId == Some(task.id)
    ensures x.Durable() && After(old(x.Here()), x.Here())
  {
    hide Sound, Kept, CompiledOk, JournalOk, View, Log, Worktree.Valid, TaskOf;
    CurrentIsSound(x.compiled, View(x.store), x.manifest.Snapshot(), x.World(), task);
    x.manifest.currentTaskId := Some(task.id);
    SoundIsKept(x.compiled, View(x.store), x.manifest.Snapshot(), x.World());
  }

  /** A rejected `before` gate: the run stops at this task, and only the save of `finalize` records it. */
  method StopBefore(x: RunExecution, task: Task, ghost floor: nat)
    requires x.Live() && x.AtFront(task) && x.Flushed()
    requires RejectionOnRecord(x.compiled, x.manifest.Snapshot(), x.store.approvalsFile, floor)
    modifies x.manifest`status, x.manifest`failure, x.manifest`taskStates
    ensures x.Live() && x.manifest.Snapshot() == StoppedAt(old(x.manifest.Snapshot()), task.id)
    ensures StoppedByGate(x, floor) && x.Flushed()
    ensures x.Durable() && After(old(x.Here()), x.Here())
  {
    hide Sound, Kept, CompiledOk, JournalOk, View, Log, Worktree.Valid, TaskOf, RejectionOnRecord;
    ghost var before, approvals := x.manifest.Snapshot(), x.store.approvalsFile;
    RejectionGrows(x.compiled, before, before, approvals, approvals, floor, 0);
    StoppedAtIsSound(x.compiled, View(x.store), x.manifest.Snapshot(), x.World(), task);
    var state := x.manifest.taskStates[task.id];
    x.manifest.failure := Some(RunFailure(ApprovalRejected, false));
    x.manifest.status := RunStopped;
    x.manifest.taskStates := x.manifest.taskStates[task.id := state.(status := TaskFailed)];
    RejectionGrows(x.compiled, before, x.manifest.Snapshot(), approvals, approvals, floor, floor);
    SoundIsKept(x.compiled, View(x.store), x.manifest.Snapshot(), x.World());
  }

  /** The `before` gate; `entry` is the reading it was found open with. */
  method BeforeGate(x: RunExecution, task: Task) returns (r: Exit<Option<TaskEnd>>, ghost entry: GateReading)
    requires x.Live() && Entered(x, task) && x.Flushed()
    modifies x.store, x.manifest
    ensures x.Durable() && After(old(x.Here()), x.Here())
    ensures !r.Crashed? ==> x.Live()
    ensures r == Done(None) ==>
              x.EntryOpen(task, entry) && x.Flushed() && x.manifest.Snapshot() == old(x.manifest.Snapshot())
    ensures entry.since == old(|x.store.approvalsFile|)
    ensures r.Done? && r.value.Some? ==>
              TaskEndOk(x, task, r.value.value, old(x.manifest.checkpoints), x.worktree.landings,
                        old(|x.store.approvalsFile|))
  {
    hide Sound, Kept, CompiledOk, JournalOk, View, Log, Worktree.Valid, TaskOf, RejectionOnRecord, GateOpen, After;
    var read: Exit<GateResult>;
    ghost var consulted;
    read, consulted := x.ApprovalDecision(task, BeforeChange);
    entry := GateReading(old(|x.store.approvalsFile|), consulted);
    if !read.Done? {
      return read.PropagateFailure(), entry;
    }
    if read.value == GateWaiting {
      return Done(Some(Pause)), entry;
    }
    NoBeforeGate(task, x.store.approvalsFile, entry);
    if read.value != GateNotRequired {
      x.ReadingMeans(task, entry.since, entry.consulted);
    }
    if read.value == GateRejected {
      ghost var before := x.Here();
      StopBefore(x, task, entry.since);
      AfterTransitive(old(x.Here()), before, x.Here());
      return Done(Some(LeaveLoop)), entry;
    }
    return Done(None), entry;
  }

  lemma NoBeforeGate(task: Task, approvals: seq<ApprovalRecord>, gate: GateReading)
    requires gate.since <= gate.consulted <= |approvals|
    ensures task.Approval().NoGate? ==> GateOpen(task, approvals, gate)
    ensures GatePhase(task.Approval()) != BeforeChange ==> task.Approval().GateAfter?
  {
  }

  /** Cancellation, the current task, its dependencies, and the `before` gate. */
  method Admit(x: RunExecution, task: Task) returns (r: Exit<Option<TaskEnd>>, ghost entry: GateReading)
    requires x.Live() && x.AtFront(task) && x.manifest.status == RunActive && Quiet(x) && x.Flushed()
    modifies x.store, x.manifest
    ensures x.Durable() && After(old(x.Here()), x.Here())
    ensures !r.Crashed? ==> x.Live()
    ensures r == Done(None) ==>
              Entered(x, task) && x.EntryOpen(task, entry) && x.manifest.checkpoints == old(x.manifest.checkpoints)
    ensures old(|x.store.approvalsFile|) <= entry.since
    ensures r == Done(None) ==> x.Flushed()
    ensures r.Done? && r.value.Some? ==>
              TaskEndOk(x, task, r.value.value, old(x.manifest.checkpoints), x.worktree.landings,
                        old(|x.store.approvalsFile|))
    ensures old(x.store.cancellationFile) ==> r != Done(None)
  {
    hide Sound, Kept, CompiledOk, JournalOk, View, Log, Worktree.Valid, TaskOf, GateOpen, After;
    entry := GateReading(|x.store.approvalsFile|, 0);
    var requested := x.CancellationRequested();
    ghost var before := x.Here();
    if requested {
      var marked := x.MarkCancelled(task);
      AfterTransitive(old(x.Here()), before, x.Here());
      if !marked.Done? {
        return marked.PropagateFailure(), entry;
      }
      return Done(Some(LeaveLoop)), entry;
    }
    SetCurrent(x, task);
    DependenciesAreCompleted(x.compiled, View(x.store), x.manifest.Snapshot(), x.World(), task);
    if exists d :: d in task.Dependencies()
         && !(d in x.manifest.taskStates && x.manifest.taskStates[d].status == TaskCompleted) {
      assert false;
    }
    ApprovalsGrow(old(x.Here()), before);
    r, entry := BeforeGate(x, task);
    AfterTransitive(old(x.Here()), before, x.Here());
    if r.Done? && r.value == Some(LeaveLoop) {
      StoppedSince(x, |before.world.approvals|, old(|x.store.approvalsFile|));
    }
  }

  // ---- changes that waited for their `after` gate ----

  /** A rejected `after` gate: the changes are rolled back and the attempt is closed. */
  method RejectHeldChanges(x: RunExecution, task: Task, ghost floor: nat) returns (r: Exit<()>)
    requires x.Live() && x.AtFront(task) && x.manifest.taskStates[task.id].attempts != [] && x.Flushed()
    requires RejectionOnRecord(x.compiled, x.manifest.Snapshot(), x.store.approvalsFile, floor)
    modifies x.manifest`status, x.manifest`failure, x.manifest`taskStates
    modifies x.worktree`index, x.worktree`working, x.worktree`ignored
    ensures x.Live() && x.Durable() && After(old(x.Here()), x.Here())
    ensures r.Done? ==>
              x.worktree.Clean() && x.manifest.Snapshot() == RejectedAfter(old(x.manifest.Snapshot()), task.id)
    ensures r.Done? ==> StoppedByGate(x, floor) && x.Flushed()
  {
    hide Sound, Kept, CompiledOk, JournalOk, View, Log, Worktree.Valid, TaskOf, RejectionOnRecord, After;
    AfterReflexive(x.Here());
    var _ :- x.Reset();
    ghost var before, approvals := x.manifest.Snapshot(), x.store.approvalsFile;
    RejectionGrows(x.compiled, before, before, approvals, approvals, floor, 0);
    RejectedAfterIsSound(x.compiled, View(x.store), x.manifest.Snapshot(), x.World(), task);
    var state := x.manifest.taskStates[task.id];
    var rejected := RunFailure(ApprovalRejected, false);
    x.manifest.failure := Some(rejected);
    x.manifest.status := RunStopped;
    state := WithLast(state, Closed(Last(state.attempts), rejected)).(status := TaskFailed);
    x.manifest.taskStates := x.manifest.taskStates[task.id := state];
    RejectionGrows(x.compiled, before, x.manifest.Snapshot(), approvals, approvals, floor, floor);
    SoundIsKept(x.compiled, View(x.store), x.manifest.Snapshot(), x.World());
    r := Done(());
  }

  /** Reads the `after` gate of changes prepared by an earlier process; `None` means it is open. */
  method HeldGate(x: RunExecution, task: Task) returns (r: Exit<Option<TaskEnd>>, ghost gate: GateReading)
    requires x.Live() && Entered(x, task) && x.manifest.taskStates[task.id].phase == AwaitingAfter && x.Flushed()
    modifies x.store, x.manifest, x.worktree`index, x.worktree`working, x.worktree`ignored
    ensures x.Durable() && After(old(x.Here()), x.Here())
    ensures !r.Crashed? ==> x.Live()
    ensures r == Done(None) ==> x.Trying(task) && x.manifest.checkpoints == old(x.manifest.checkpoints)
    ensures r == Done(None) ==>
              GateOpen(task, x.store.approvalsFile, gate) && task.Approval().GateAfter?
    ensures gate.since == old(|x.store.approvalsFile|)
    ensures r.Done? && r.value.Some? ==>
              TaskEndOk(x, task, r.value.value, old(x.manifest.checkpoints), x.worktree.landings,
                        old(|x.store.approvalsFile|))
  {
    hide Sound, Kept, CompiledOk, JournalOk, View, Log;
    hide Worktree.Valid, TaskOf, RejectionOnRecord, GateOpen, After, StoppedByGate, RunExecution.Flushed;
    FrontFacts(x.compiled, View(x.store), x.manifest.Snapshot(), x.World(), task);
    var read: Exit<GateResult>;
    ghost var consulted;
    read, consulted := x.ApprovalDecision(task, AfterChange);
    gate := GateReading(old(|x.store.approvalsFile|), consulted);
    if !read.Done? {
      return read.PropagateFailure(), gate;
    }
    if read.value == GateWaiting {
      return Done(Some(Pause)), gate;
    }
    x.ReadingMeans(task, gate.since, gate.consulted);
    if read.value == GateRejected {
      ghost var before := x.Here();
      var rejected := RejectHeldChanges(x, task, gate.since);
      AfterTransitive(old(x.Here()), before, x.Here());
      if !rejected.Done? {
        return rejected.PropagateFailure(), gate;
      }
      return Done(Some(LeaveLoop)), gate;
    }
    if x.manifest.taskStates[task.id].attempts == [] {
      assert false;
    }
    return Done(None), gate;
  }

  /** The held changes are validated and land, or the attempt fails and the task may try again. */
  method HeldChanges(x: RunExecution, task: Task) returns (r: Exit<Option<TaskEnd>>)
    requires x.Live() && Entered(x, task) && x.manifest.taskStates[task.id].phase == AwaitingAfter && x.Flushed()
    modifies x.store, x.manifest, x.worktree
    ensures x.Durable() && After(old(x.Here()), x.Here())
    ensures !r.Crashed? ==> x.Live()
    ensures r == Done(None) ==>
              && x.Ready(task) && task.Approval().GateAfter?
              && x.manifest.checkpoints == old(x.manifest.checkpoints) && x.worktree.landings == old(x.worktree.landings)
    ensures r.Done? && r.value.Some? ==>
              TaskEndOk(x, task, r.value.value, old(x.manifest.checkpoints), old(x.worktree.landings),
                        old(|x.store.approvalsFile|))
    ensures TakenUp(old(x.World()), x.World(), old(|x.store.approvalsFile|))
    ensures Gap(x.Here()) <= Gap(old(x.Here())) + (if r.Done? then 0 else 1)
  {
    hide Sound, Kept, CompiledOk, JournalOk, View, Log;
    hide Worktree.Valid, TaskOf, GateOpen, After, RunExecution.Advanced1, Gap;
    ghost var gate;
    var read: Exit<Option<TaskEnd>>;
    read, gate := HeldGate(x, task);
    GapOnlyShrinks(old(x.Here()), x.Here());
    var ended :- read;
    if ended.Some? {
      return Done(ended);
    }
    ghost var before := x.Here();
    var landed := x.ValidateAndCheckpoint(task, gate);
    AfterTransitive(old(x.Here()), before, x.Here());
    TakenUpTransitive(old(x.World()), before.world, x.World(), gate.since, gate.since);
    var completed :- landed;
    if completed {
      return Done(Some(NextTask));
    }
    if x.manifest.status == RunCancelled {
      return Done(Some(LeaveLoop));
    }
    r := Done(None);
  }

  lemma EndSince(x: RunExecution, task: Task, end: TaskEnd, checkpoints: seq<Checkpoint>, landings: seq<Landing>,
                floor: nat, earlier: nat)
    requires TaskEndOk(x, task, end, checkpoints, landings, floor) && earlier <= floor
    ensures TaskEndOk(x, task, end, checkpoints, landings, earlier)
  {
    hide RunExecution.Advanced1, StoppedByGate;
    if end == LeaveLoop {
      StoppedSince(x, floor, earlier);
    }
  }

  // ---- the loop over the tasks ----

  method RunTask(x: RunExecution, task: Task) returns (r: Exit<TaskEnd>)
    requires x.Live() && x.AtFront(task) && x.manifest.status == RunActive && Quiet(x) && x.Flushed()
    modifies x.store, x.manifest, x.worktree
    ensures x.Durable() && After(old(x.Here()), x.Here())
    ensures !r.Crashed? ==> x.Live()
    ensures r.Done? ==> TaskEndOk(x, task, r.value, old(x.manifest.checkpoints), old(x.worktree.landings),
                                  old(|x.store.approvalsFile|))
    ensures TakenUp(old(x.World()), x.World(), old(|x.store.approvalsFile|))
    ensures old(x.store.cancellationFile) ==> NothingMore(x, old(x.worktree.landings), old(x.worktree.starts))
    ensures Gap(x.Here()) <= Gap(old(x.Here())) + (if r.Done? then 0 else 1)
  {
    hide Sound, Kept, CompiledOk, JournalOk, View, Log;
    hide Worktree.Valid, TaskOf, GateOpen, After, RunExecution.Advanced1, Gap, TakenUp;
    var admission: Exit<Option<TaskEnd>>;
    ghost var entry;
    admission, entry := Admit(x, task);
    GapOnlyShrinks(old(x.Here()), x.Here());
    NothingTakenUp(old(x.World()), x.World(), old(|x.store.approvalsFile|));
    var refused :- admission;
    if refused.Some? {
      return Done(refused.value);
    }
    ghost var before := x.Here();
    if x.manifest.taskStates[task.id].phase == AwaitingAfter {
      var held := HeldChanges(x, task);
      AfterTransitive(old(x.Here()), before, x.Here());
      ApprovalsGrow(old(x.Here()), before);
      TakenUpTransitive(old(x.World()), before.world, x.World(), old(|x.store.approvalsFile|), |before.world.approvals|);
      var ended :- held;
      if ended.Some? {
        EndSince(x, task, ended.value, old(x.manifest.checkpoints), old(x.worktree.landings),
                |before.world.approvals|, old(|x.store.approvalsFile|));
        return Done(ended.value);
      }
      x.EntryStaysOpen(task, entry, before);
      before := x.Here();
    }
    ApprovalsGrow(old(x.Here()), before);
    r := WorkOn(x, task, entry);
    AfterTransitive(old(x.Here()), before, x.Here());
    TakenUpTransitive(old(x.World()), before.world, x.World(), old(|x.store.approvalsFile|), entry.since);
    if r.Done? {
      EndSince(x, task, r.value, old(x.manifest.checkpoints), old(x.worktree.landings), |before.world.approvals|,
               old(|x.store.approvalsFile|));
    }
  }

  /** The task's attempts, and what their end means for the loop. */
  method WorkOn(x: RunExecution, task: Task, ghost entry: GateReading) returns (r: Exit<TaskEnd>)
    requires x.Live() && x.Ready(task) && x.EntryOpen(task, entry)
    modifies x.store, x.manifest, x.worktree
    ensures x.Durable() && After(old(x.Here()), x.Here())
    ensures !r.Crashed? ==> x.Live()
    ensures r.Done? ==> TaskEndOk(x, task, r.value, old(x.manifest.checkpoints), old(x.worktree.landings),
                                  old(|x.store.approvalsFile|))
    ensures TakenUp(old(x.World()), x.World(), entry.since)
    ensures Gap(x.Here()) <= Gap(old(x.Here())) + (if r.Done? then 0 else 1)
  {
    hide Sound, Kept, CompiledOk, JournalOk, View, Log;
    hide Worktree.Valid, TaskOf, GateOpen, After, RunExecution.Advanced1, Gap, RunExecution.Flushed;
    var completed :- x.ExecuteTask(task, entry);
    r := Done(if completed then NextTask else if x.manifest.status == RunAwaitingApproval then Pause else LeaveLoop);
  }

  /** After a landing, the next task is quiet and HEAD is its predecessor's checkpoint. */
  lemma NextTaskIsQuiet(x: RunExecution, task: Task, checkpoints: seq<Checkpoint>, landings: seq<Landing>)
    requires x.Live() && x.manifest.currentTaskId == Some(task.id)
    requires x.Advanced1(checkpoints, landings)
    requires |checkpoints| < |x.compiled.taskOrder| && x.compiled.taskOrder[|checkpoints|] == task.id
    ensures |checkpoints| < |x.manifest.checkpoints| <= |x.compiled.taskOrder| && Quiet(x)
    ensures Rested(checkpoints, landings) ==> AtRest(x)
  {
    hide Kept, JournalOk, View, Log, Worktree.Valid, TaskOf, WorldOk, Sound;
    var m := x.manifest.Snapshot();
    AllCompleted(x.compiled, View(x.store), m, x.World());
    if |m.checkpoints| < |x.compiled.taskOrder| {
      assert x.compiled.taskOrder[|checkpoints|] != x.compiled.taskOrder[|m.checkpoints|];
      NextIsQuiet(x.compiled, View(x.store), m, x.World(), task.id);
    }
  }

  /** The tasks in order: completed ones are skipped, and each of the others is the front one when its turn comes. */
  method RunTasks(x: RunExecution) returns (r: Exit<TaskEnd>)
    requires x.Live() && x.current == x.compiled && x.manifest.status == RunActive && Quiet(x) && x.Flushed()
    modifies x.store, x.manifest, x.worktree
    ensures x.Durable() && After(old(x.Here()), x.Here())
    ensures !r.Crashed? ==> x.Live()
    ensures r == Done(NextTask) ==> x.manifest.status == RunActive && |x.manifest.checkpoints| == |x.compiled.taskOrder|
    ensures r == Done(LeaveLoop) ==> x.manifest.status in {RunCancelled, RunStopped, RunFailed}
    ensures r.Done? && r.value != NextTask ==> |x.manifest.checkpoints| < |x.compiled.taskOrder|
    ensures r == Done(Pause) ==> x.manifest.status == RunAwaitingApproval
    ensures r == Done(LeaveLoop) ==> StoppedByGate(x, old(|x.store.approvalsFile|))
    ensures r.Done? && r.value != Pause ==> x.Flushed()
    ensures r.Done? && old(AtRest(x)) ==> AtRest(x)
    ensures TakenUp(old(x.World()), x.World(), old(|x.store.approvalsFile|))
    ensures old(x.store.cancellationFile) ==> NothingMore(x, old(x.worktree.landings), old(x.worktree.starts))
    ensures Gap(x.Here()) <= Gap(old(x.Here())) + (if r.Done? then 0 else 1)
  {
    hide Sound, Kept, CompiledOk, JournalOk, View, Log, Gap, StoppedByGate, RunExecution.Flushed;
    hide Worktree.Valid, TaskOf, After, RunExecution.Advanced1, Rested, Quiet, TakenUp;
    AfterReflexive(x.Here());
    NothingTakenUp(x.World(), x.World(), |x.store.approvalsFile|);
    SoundIsKept(x.compiled, View(x.store), x.manifest.Snapshot(), x.World());
    for index := 0 to |x.current.taskOrder|
      invariant x.Live() && x.Durable() && x.Flushed() && After(old(x.Here()), x.Here())
      invariant Gap(x.Here()) <= Gap(old(x.Here()))
      invariant x.manifest.status == RunActive && index <= |x.manifest.checkpoints| && Quiet(x)
      invariant old(AtRest(x)) ==> AtRest(x)
      invariant TakenUp(old(x.World()), x.World(), old(|x.store.approvalsFile|))
      invariant old(x.store.cancellationFile) ==> NothingMore(x, old(x.worktree.landings), old(x.worktree.starts))
    {
      StaysCancelled(old(x.Here()), x.Here());
      ghost var before := x.Here();
      var visited := Visit(x, index);
      AfterTransitive(old(x.Here()), before, x.Here());
      ApprovalsGrow(old(x.Here()), before);
      TakenUpTransitive(old(x.World()), before.world, x.World(), old(|x.store.approvalsFile|), |before.world.approvals|);
      var end :- visited;
      if end == LeaveLoop {
        StoppedSince(x, |before.world.approvals|, old(|x.store.approvalsFile|));
      }
      if end != NextTask {
        return Done(end);
      }
    }
    AllCompleted(x.compiled, View(x.store), x.manifest.Snapshot(), x.World());
    r := Done(NextTask);
  }

  /** One pass of the loop: a task that is not completed is the front one. */
  method Visit(x: RunExecution, index: nat) returns (r: Exit<TaskEnd>)
    requires x.Live() && x.current == x.compiled && x.manifest.status == RunActive && Quiet(x) && x.Flushed()
    requires index < |x.current.taskOrder| && index <= |x.manifest.checkpoints|
    modifies x.store, x.manifest, x.worktree
    ensures x.Durable() && After(old(x.Here()), x.Here())
    ensures !r.Crashed? ==> x.Live()
    ensures r == Done(NextTask) ==> x.manifest.status == RunActive && index < |x.manifest.checkpoints| && Quiet(x)
    ensures r == Done(LeaveLoop) ==> x.manifest.status in {RunCancelled, RunStopped, RunFailed}
    ensures r.Done? && r.value != NextTask ==> |x.manifest.checkpoints| < |x.compiled.taskOrder|
    ensures r == Done(Pause) ==> x.manifest.status == RunAwaitingApproval
    ensures r == Done(LeaveLoop) ==> StoppedByGate(x, old(|x.store.approvalsFile|))
    ensures r.Done? && r.value != Pause ==> x.Flushed()
    ensures r.Done? && old(AtRest(x)) ==> AtRest(x)
    ensures TakenUp(old(x.World()), x.World(), old(|x.store.approvalsFile|))
    ensures old(x.store.cancellationFile) ==> NothingMore(x, old(x.worktree.landings), old(x.worktree.starts))
    ensures Gap(x.Here()) <= Gap(old(x.Here())) + (if r.Done? then 0 else 1)
  {
    hide Sound, Kept, CompiledOk, JournalOk, View, Log, Gap, StoppedByGate, RunExecution.Flushed;
    hide Worktree.Valid, TaskOf, After, RunExecution.Advanced1, Rested, Quiet, TakenUp;
    AfterReflexive(x.Here());
    NothingTakenUp(x.World(), x.World(), |x.store.approvalsFile|);
    SoundIsKept(x.compiled, View(x.store), x.manifest.Snapshot(), x.World());
    CompletedPrefix(x.compiled, View(x.store), x.manifest.Snapshot(), x.World(), index);
    var id := x.current.taskOrder[index];
    if id !in x.manifest.taskStates {
      assert false;
    } else if x.manifest.taskStates[id].status != TaskCompleted {
      FrontTask(x.compiled, View(x.store), x.manifest.Snapshot(), x.World());
      var found := FindTask(x.current.plan.tasks, id);
      if found.None? {
        assert false;
      }
      var task := found.value;
      ghost var checkpoints, landings := x.manifest.checkpoints, x.worktree.landings;
      r := RunTask(x, task);
      if r == Done(NextTask) {
        NextTaskIsQuiet(x, task, checkpoints, landings);
      }
    } else {
      r := Done(NextTask);
    }
  }

  // ---- the start and the end of a run ----

  method StartRun(x: RunExecution) returns (r: Exit<()>)
    requires x.Live() && Quiet(x) && !x.manifest.status.Terminal()
    modifies x.store, x.manifest`status, x.manifest`failure, x.manifest`nextSequence
    ensures x.Durable() && After(old(x.Here()), x.Here())
    ensures !r.Crashed? ==> x.Live() && x.manifest.status == RunActive && x.manifest.failure == None
    ensures !r.Crashed? ==> Quiet(x)
    ensures r.Done? ==> x.Flushed()
  {
    hide Sound, Kept, CompiledOk, JournalOk, View, Log, Worktree.Valid;
    StartingIsSound(x.compiled, View(x.store), x.manifest.Snapshot(), x.World());
    x.manifest.status := RunActive;
    x.manifest.failure := None;
    r := x.Journal(EventDraft(RunStartedEvent, x.manifest.currentTaskId, None));
  }

  /** An event of the kind was journalled after the first `from` ones. */
  ghost predicate LoggedSince(log: seq<RunEvent>, from: nat, kind: EventKind) {
    exists i :: from <= i < |log| && log[i].kind == kind
  }

  lemma LastIsLogged(x: RunExecution, draft: EventDraft, from: nat)
    requires JournalOk(x.store) && x.Journalled(draft) && from < |Log(x.store)|
    ensures LoggedSince(Log(x.store), from, draft.kind)
  {
    hide JournalOk, Log;
    assert Log(x.store)[|Log(x.store)| - 1].kind == draft.kind;
  }

  lemma StaysLogged(a: Moment, b: Moment, from: nat, kind: EventKind)
    requires After(a, b) && LoggedSince(a.log, from, kind)
    ensures LoggedSince(b.log, from, kind)
  {
    var i :| from <= i < |a.log| && a.log[i].kind == kind;
    assert b.log[i].kind == kind;
  }

  /** The completed run's own entry; one that the store refuses leaves the copy completed and the holder stale. */
  method CompleteRun(x: RunExecution) returns (r: Exit<()>)
    requires x.Live() && |x.manifest.checkpoints| == |x.compiled.taskOrder|
    modifies x.store, x.manifest`status, x.manifest`currentTaskId, x.manifest`nextSequence, x`closing
    ensures x.Durable() && After(old(x.Here()), x.Here())
    ensures !r.Crashed? ==> x.Live() && x.manifest.status == RunCompleted
    ensures r.Done? ==> x.Flushed() && LoggedSince(Log(x.store), |old(Log(x.store))|, RunCompletedEvent)
    ensures x.closing == if r.Done? then old(x.closing) + [CompletedEntry] else old(x.closing)
    ensures r.Done? || r.BrokeOff() || !Admits(View(x.store), x.store.cancellationFile, x.manifest.Snapshot())
  {
    hide Sound, Kept, CompiledOk, JournalOk, View, Log, Worktree.Valid, RunExecution.Journalled;
    EndingIsSound(x.compiled, View(x.store), x.manifest.Snapshot(), x.World());
    x.manifest.status := RunCompleted;
    x.manifest.currentTaskId := None;
    ghost var before := x.Here();
    r := x.JournalEnd(EventDraft(RunCompletedEvent, None, None));
    if r.Done? {
      LastIsLogged(x, EventDraft(RunCompletedEvent, None, None), |before.log|);
    }
  }

  /** The `try` block up to `finalize`: true when the run ended, false when it waits for an approval. */
  method ExecuteTasks(x: RunExecution) returns (r: Exit<bool>)
    requires x.Live() && x.current == x.compiled && Quiet(x) && !x.manifest.status.Terminal()
    modifies x.store, x.manifest, x.worktree, x`closing
    ensures x.Durable() && After(old(x.Here()), x.Here())
    ensures !r.Crashed? ==> x.Live()
    ensures r == Done(true) ==> x.manifest.status.Terminal() && x.Flushed()
    ensures r == Done(true) ==>
              (x.manifest.status == RunCompleted <==> |x.manifest.checkpoints| == |x.compiled.taskOrder|)
    ensures r == Done(false) ==> |x.manifest.checkpoints| < |x.compiled.taskOrder|
    ensures r == Done(false) ==> x.manifest.status == RunAwaitingApproval
    ensures r == Done(true) ==> StoppedByGate(x, old(|x.store.approvalsFile|))
    ensures r.Done? && old(AtRest(x)) ==> AtRest(x)
    ensures r == Done(true) && x.manifest.status == RunCompleted ==>
              LoggedSince(Log(x.store), |old(Log(x.store))|, RunCompletedEvent)
    ensures x.closing == old(x.closing) + Opening(r == Done(true), x.manifest.status)
    ensures TakenUp(old(x.World()), x.World(), old(|x.store.approvalsFile|))
    ensures old(x.store.cancellationFile) ==> NothingMore(x, old(x.worktree.landings), old(x.worktree.starts))
    ensures Gap(x.Here()) <= Gap(old(x.Here())) + (if r.Done? then 0 else 1)
  {
    hide Sound, Kept, CompiledOk, JournalOk, View, Log, LoggedSince;
    hide Worktree.Valid, After, Rested, Quiet, Gap, RunExecution.Flushed, RejectionOnRecord;
    var started := StartRun(x);
    GapOnlyShrinks(old(x.Here()), x.Here());
    var _ :- started;
    StaysCancelled(old(x.Here()), x.Here());
    ghost var before := x.Here();
    var looped := RunTasks(x);
    AfterTransitive(old(x.Here()), before, x.Here());
    ApprovalsGrow(old(x.Here()), before);
    TakenUpTransitive(old(x.World()), before.world, x.World(), old(|x.store.approvalsFile|), |before.world.approvals|);
    var end :- looped;
    if end == Pause {
      return Done(false);
    }
    if end == LeaveLoop {
      StoppedSince(x, |before.world.approvals|, old(|x.store.approvalsFile|));
    }
    r := EndLoop(x, old(x.Here()));
  }

  /** The entry of a completed run, once the block got so far. */
  function Opening(ended: bool, status: RunStatus): seq<ClosingStep> {
    if ended && status == RunCompleted then [CompletedEntry] else []
  }

  /** After the loop: with every task completed, the run is. */
  method EndLoop(x: RunExecution, ghost start: Moment) returns (r: Exit<bool>)
    requires x.Live() && x.Durable() && After(start, x.Here()) && x.Flushed()
    requires x.manifest.status in {RunActive, RunCancelled, RunStopped, RunFailed}
    requires x.manifest.status == RunActive <==> |x.manifest.checkpoints| == |x.compiled.taskOrder|
    modifies x.store, x.manifest`status, x.manifest`currentTaskId, x.manifest`nextSequence, x`closing
    ensures x.Durable() && After(start, x.Here()) && After(old(x.Here()), x.Here())
    ensures !r.Crashed? ==> x.Live()
    ensures r.Done? ==> r.value && x.manifest.status.Terminal() && x.Flushed()
    ensures r.Done? ==> (x.manifest.status == RunCompleted <==> |x.manifest.checkpoints| == |x.compiled.taskOrder|)
    ensures r.Done? && x.manifest.status == RunCompleted ==> LoggedSince(Log(x.store), |start.log|, RunCompletedEvent)
    ensures r.Done? && x.manifest.status != RunCompleted ==>
              x.manifest.Snapshot() == old(x.manifest.Snapshot()) && x.store.approvalsFile == old(x.store.approvalsFile)
    ensures x.closing == old(x.closing) + Opening(r == Done(true), x.manifest.status)
    ensures Gap(x.Here()) <= Gap(old(x.Here()))
  {
    hide Sound, Kept, CompiledOk, JournalOk, View, Log, LoggedSince;
    hide Worktree.Valid, After, Gap, RunExecution.Flushed;
    AllCompleted(x.compiled, View(x.store), x.manifest.Snapshot(), x.World());
    AfterReflexive(x.Here());
    if x.manifest.status == RunActive
       && forall id :: id in x.manifest.taskOrder ==>
            id in x.manifest.taskStates && x.manifest.taskStates[id].status == TaskCompleted {
      ghost var before := x.Here();
      var completed := CompleteRun(x);
      AfterTransitive(start, before, x.Here());
      GapOnlyShrinks(before, x.Here());
      LogGrows(start, before);
      var _ :- completed;
      LoggedEarlier(Log(x.store), |start.log|, |before.log|, RunCompletedEvent);
    }
    r := Done(true);
  }

  lemma LogGrows(a: Moment, b: Moment)
    requires After(a, b)
    ensures a.log <= b.log
  {
  }

  lemma LoggedEarlier(log: seq<RunEvent>, from: nat, later: nat, kind: EventKind)
    requires LoggedSince(log, later, kind) && from <= later
    ensures LoggedSince(log, from, kind)
  {
  }

  // ---- finalize ----

  /** What the Kaizen analysis at the end of a run comes to. */
  datatype Analysis = NoProposal | Proposed | AnalysisThrew

  /**
    * What one `finalize` meets outside the run's own records. `keeps` is the choice of options, plan and
    * configuration about the worktree of a completed run.
    */
  datatype Ending = Ending(analysis: Analysis, evidenceFails: bool, keeps: bool, removalFails: bool) {
    predicate Fails(step: ClosingStep) {
      (step.EvidenceWritten? && evidenceFails) || (step.WorktreeRemoved? && removalFails)
    }
  }

  /** A step whose failing is not the store's. */
  predicate Outward(step: ClosingStep) {
    step.EvidenceWritten? || step.WorktreeRemoved?
  }

  /** The steps of a `finalize` in which nothing throws. */
  function Finale(plan: Plan, status: RunStatus, e: Ending): seq<ClosingStep> {
    if !status.Terminal() then [ManifestSaved]
    else [ManifestSaved] + Conclusion(plan, status, e)
  }

  function Conclusion(plan: Plan, status: RunStatus, e: Ending): seq<ClosingStep> {
    Analysing(plan, e.analysis) + ([EvidenceWritten, ManifestSaved] + Removing(status, e.keeps))
  }

  function Removing(status: RunStatus, keeps: bool): seq<ClosingStep> {
    if !keeps && status == RunCompleted then [WorktreeRemoved] else []
  }

  function Analysing(plan: Plan, analysis: Analysis): seq<ClosingStep> {
    if plan.kaizen.Some? && plan.kaizen.value.enabled.GetOr(false) && analysis != NoProposal then [KaizenEntry] else []
  }

  /**
    * The steps stopped short: the next one failed, which for evidence and removal means that these fail; and the
    * steps do stop before either of them that fails.
    */
  predicate CutShort(tried: seq<ClosingStep>, whole: seq<ClosingStep>, e: Ending) {
    && tried < whole
    && (Outward(whole[|tried|]) ==> e.Fails(whole[|tried|]))
    && Spared(tried, e)
  }

  /** None of the steps is one that fails. */
  predicate Spared(steps: seq<ClosingStep>, e: Ending) {
    forall step :: step in steps ==> !e.Fails(step)
  }

  /** The steps of the `try` block: those before the handler's entry. */
  function TryPart(steps: seq<ClosingStep>): seq<ClosingStep> {
    if steps == [] || steps[0].FailedEntry? then [] else [steps[0]] + TryPart(steps[1..])
  }

  lemma {:induction false} TryPartEnds(tried: seq<ClosingStep>, rest: seq<ClosingStep>)
    requires FailedEntry !in tried && (rest == [] || rest[0] == FailedEntry)
    ensures TryPart(tried + rest) == tried
  {
    if tried == [] {
      assert tried + rest == rest;
    } else {
      assert (tried + rest)[1..] == tried[1..] + rest;
      TryPartEnds(tried[1..], rest);
    }
  }

  /** How `execute` ended. */
  datatype RunEnd =
    | Finished
    | Paused
    /** A final save, however it ended itself, put a stale number on a journal that another process had advanced. */
    | Overwritten

  /** Another process journalled after this holder's last entry, and nothing is pending. */
  predicate Behind(store: RunStateStore, manifest: RunManifest)
    reads store, manifest
  {
    && store.transactionFile.None? && store.manifestFile.Some?
    && store.manifestFile.value.nextSequence != manifest.nextSequence
  }

  /**
    * One `saveManifest`, which checks nothing; true when it replaced an entry of another process. On the holder's
    * own journal it persists the manifest; on a journal with a pending transaction it is lost to the next recovery;
    * on one that another process advanced it puts back a number the log already uses. A save that breaks off did
    * one of these, or nothing.
    */
  method Save(x: RunExecution) returns (r: Exit<()>, overwritten: bool)
    requires x.Live() && x.Flushed()
    modifies x.store`manifestFile
    ensures r.Done? || r.BrokeOff()
    ensures overwritten ==> old(Behind(x.store, x.manifest)) && !JournalOk(x.store)
    ensures !overwritten && old(Behind(x.store, x.manifest)) ==>
              !r.Done? && x.store.Snapshot() == old(x.store.Snapshot())
    ensures !overwritten ==> x.Live() && x.Durable() && x.Flushed() && After(old(x.Here()), x.Here())
    ensures !overwritten ==> View(x.store) in {old(View(x.store)), x.manifest.Snapshot()}
    ensures !overwritten && r.Done? ==>
              View(x.store) == if x.store.transactionFile.Some? then old(View(x.store)) else x.manifest.Snapshot()
  {
    hide Sound, Kept, CompiledOk, JournalOk, View, Log, Worktree.Valid, After;
    ghost var before := x.Here();
    ViewIsOurs(x.store);
    var behind := Behind(x.store, x.manifest);
    SoundIsKept(x.compiled, View(x.store), x.manifest.Snapshot(), x.World());
    AfterReflexive(before);
    r := x.store.SaveManifest(x.manifest);
    overwritten := behind && !Behind(x.store, x.manifest);
    if x.store.manifestFile == Some(x.manifest.Snapshot()) {
      Saved(x);
      if !behind {
        SavedRun(x, before);
      }
    }
  }

  /** What a save does to the journal. */
  twostate lemma Saved(x: RunExecution)
    requires old(JournalOk(x.store)) && x.manifest.runId == x.store.runId
    requires x.store.Snapshot() == old(x.store.Snapshot()).(manifest := Some(x.manifest.Snapshot()))
    requires x.manifest.Snapshot() == old(x.manifest.Snapshot())
    ensures JournalOk(x.store) <==> !old(Behind(x.store, x.manifest))
    ensures JournalOk(x.store) ==>
              && Log(x.store) == old(Log(x.store))
              && View(x.store) == if x.store.transactionFile.Some? then old(View(x.store)) else x.manifest.Snapshot()
    ensures JournalOk(x.store) && x.store.transactionFile.None? ==>
              x.manifest.nextSequence == old(View(x.store)).nextSequence
  {
    SaveIsSafeUnlessBehind(x.store.runId, old(x.store.Snapshot()), x.manifest.Snapshot());
  }

  /** A save that is not behind keeps the run sound. */
  lemma SavedRun(x: RunExecution, before: Moment)
    requires CompiledOk(x.compiled) && JournalOk(x.store) && x.worktree.Valid() && x.manifest.runId == x.store.runId
    requires Sound(x.compiled, before.view, x.manifest.Snapshot(), before.world) && before.view.runId == x.store.runId
    requires before.world == x.World() && before.log == Log(x.store)
    requires Level(x.store.lost, x.manifest.Snapshot(), before.view)
    requires View(x.store) == before.view
             || (View(x.store) == x.manifest.Snapshot() && x.manifest.nextSequence == before.view.nextSequence)
    ensures x.Live() && x.Durable() && x.Flushed() && After(before, x.Here())
  {
    hide Sound, Kept, CompiledOk, JournalOk, View, Log, Worktree.Valid;
    if View(x.store) != before.view {
      SaveKeepsSound(x.compiled, before.view, x.manifest.Snapshot(), x.World());
      SameBody(x.manifest.Snapshot(), x.manifest.Snapshot());
    }
    SoundIsKept(x.compiled, View(x.store), x.manifest.Snapshot(), x.World());
  }

  lemma SaveIsSafeUnlessBehind(runId: string, d: Disk, holder: Manifest)
    requires Recoverable(runId, d) && holder.runId == runId
    ensures var saved := d.(manifest := Some(holder));
            && (d.transaction.None? ==> Settled(runId, d))
            && (d.transaction.Some? ==> Recover(runId, saved) == Recover(runId, d))
            && (d.transaction.None? ==> (Recoverable(runId, saved) <==> holder.nextSequence == d.manifest.value.nextSequence))
  {
  }

  /** Journals the outcome of the Kaizen analysis; a throw from the first entry is journalled too. */
  method JournalKaizen(x: RunExecution, analysis: Analysis) returns (r: Exit<()>)
    requires x.Live()
    modifies x.store, x.manifest`nextSequence, x`closing
    ensures x.Durable() && After(old(x.Here()), x.Here())
    ensures !r.Crashed? ==> x.Live()
    ensures old(x.Flushed()) ==> x.Flushed()
    ensures x.closing == if r.Done? && analysis != NoProposal then old(x.closing) + [KaizenEntry] else old(x.closing)
    ensures r.Done? || r.BrokeOff() || !Admits(View(x.store), x.store.cancellationFile, x.manifest.Snapshot())
    ensures r.Thrown? ==> !r.fault.LeaseHeld? && analysis != NoProposal
  {
    hide Sound, Kept, CompiledOk, JournalOk, View, Log, Worktree.Valid, After;
    AfterReflexive(x.Here());
    SoundIsKept(x.compiled, View(x.store), x.manifest.Snapshot(), x.World());
    if analysis == NoProposal {
      return Done(());
    }
    if analysis == Proposed {
      r := x.JournalEnd(EventDraft(KaizenProposedEvent, None, None));
      if !r.Thrown? {
        return;
      }
    }
    ghost var before := x.Here();
    r := x.JournalEnd(EventDraft(KaizenFailedEvent, None, None));
    AfterTransitive(old(x.Here()), before, x.Here());
  }

  /** Writing the evidence reads the run's records and changes none of them; the bundle is in `Evidence`. */
  method WriteEvidence(x: RunExecution, fails: bool) returns (r: Exit<()>)
    modifies x`closing
    ensures r == if fails then Thrown(EvidenceFailure) else Done(())
    ensures x.closing == if fails then old(x.closing) else old(x.closing) + [EvidenceWritten]
  {
    if fails {
      return Thrown(EvidenceFailure);
    }
    x.closing := x.closing + [EvidenceWritten];
    r := Done(());
  }

  /**
    * A save with other processes before it; true when it put a stale number on their entries. The code does not
    * look.
    */
  method SaveAmongOthers(x: RunExecution) returns (r: Exit<bool>)
    requires x.Live() && x.Flushed()
    modifies x.store, x`closing
    ensures old(x.store.approvalsFile) <= x.store.approvalsFile
    ensures r.Done? || r.BrokeOff()
    ensures r == Done(true) ==> !JournalOk(x.store)
    ensures r != Done(true) ==> x.Live() && x.Durable() && x.Flushed() && After(old(x.Here()), x.Here())
    ensures r == Done(false) && x.store.transactionFile.None? ==> View(x.store) == x.manifest.Snapshot()
    ensures x.closing == if r == Done(false) then old(x.closing) + [ManifestSaved] else old(x.closing)
  {
    hide Sound, Kept, CompiledOk, JournalOk, View, Log, Worktree.Valid, After;
    x.Others();
    ApprovalsGrow(old(x.Here()), x.Here());
    ghost var before := x.Here();
    var saved, overwritten := Save(x);
    if overwritten {
      return Done(true);
    }
    AfterTransitive(old(x.Here()), before, x.Here());
    var _ :- saved;
    x.closing := x.closing + [ManifestSaved];
    r := Done(false);
  }

  /** What `finalize` leaves: nothing undone unless a save overwrote an entry. */
  twostate predicate Settles(x: RunExecution, new r: Exit<RunEnd>)
    requires old(JournalOk(x.store))
    reads x.store, x.manifest, x.worktree
  {
    && old(x.store.approvalsFile) <= x.store.approvalsFile
    && (r == Done(Overwritten) ==> !JournalOk(x.store))
    && (r != Done(Overwritten) ==> x.Durable() && After(old(x.Here()), x.Here()))
    && (r.Done? ==> r.value != Paused)
    && (r.Thrown? || r == Done(Finished) ==> x.Live())
    && (r.Thrown? ==> !r.fault.LeaseHeld?)
    && (r != Done(Overwritten) && old(x.Flushed()) ==> x.Flushed())
    && (r == Done(Finished) && x.store.transactionFile.None? ==> View(x.store) == x.manifest.Snapshot())
  }

  /** How far a call got of its steps: through all of them, or to the first that failed. */
  ghost predicate Got(steps: seq<ClosingStep>, whole: seq<ClosingStep>, e: Ending, r: Exit<RunEnd>) {
    && (r == Done(Finished) ==> steps == whole && Spared(whole, e))
    && (r.Thrown? ==> CutShort(steps, whole, e))
  }

  lemma GotAfter(first: seq<ClosingStep>, steps: seq<ClosingStep>, whole: seq<ClosingStep>, e: Ending, r: Exit<RunEnd>)
    requires Got(steps, whole, e, r) && forall step :: step in first ==> !Outward(step)
    ensures Got(first + steps, first + whole, e, r)
  {
    if r.Thrown? {
      CutShortAfter(first, steps, whole, e);
    }
  }

  /** A call that ended in its first step. */
  lemma GotNothing(steps: seq<ClosingStep>, whole: seq<ClosingStep>, e: Ending, r: Exit<RunEnd>)
    requires |steps| == 0 && r != Done(Finished)
    requires r.Thrown? ==> whole != [] && !Outward(whole[0])
    ensures Got(steps, whole, e, r)
  {
  }

  /** The saves of `finalize`, with the Kaizen analysis and the evidence between them. */
  method Finalize(x: RunExecution, e: Ending) returns (r: Exit<RunEnd>)
    requires x.Live() && x.Flushed()
    modifies x.store, x.manifest`nextSequence, x`closing
    ensures Settles(x, r)
    ensures old(x.closing) <= x.closing
    ensures Got(x.closing[|old(x.closing)|..], Finale(x.current.plan, x.manifest.status, e), e, r)
  {
    hide Sound, Kept, CompiledOk, JournalOk, View, Log, Worktree.Valid, After, Got, Analysing;
    ghost var start := x.closing;
    var saved := SaveAmongOthers(x);
    if saved != Done(false) {
      GotNothing(x.closing[|start|..], Finale(x.current.plan, x.manifest.status, e), e,
                 if saved.Done? then Done(Overwritten) else saved.PropagateFailure());
    }
    var overwritten :- saved;
    if overwritten {
      return Done(Overwritten);
    }
    if !x.manifest.status.Terminal() {
      SavedOnly(x.closing[|start|..], e);
      return Done(Finished);
    }
    ghost var before, middle := x.Here(), x.closing;
    r := Conclude(x, e);
    assert x.closing[|start|..] == [ManifestSaved] + x.closing[|middle|..];
    GotAfter([ManifestSaved], x.closing[|middle|..], Conclusion(x.current.plan, x.manifest.status, e), e, r);
    if r != Done(Overwritten) {
      AfterTransitive(old(x.Here()), before, x.Here());
    }
  }

  lemma SavedOnly(steps: seq<ClosingStep>, e: Ending)
    requires steps == [ManifestSaved]
    ensures Got(steps, [ManifestSaved], e, Done(Finished))
  {
  }

  /** The end of `finalize`: the analysis, the evidence, and the second save. */
  method Conclude(x: RunExecution, e: Ending) returns (r: Exit<RunEnd>)
    requires x.Live() && x.Durable() && x.Flushed()
    modifies x.store, x.manifest`nextSequence, x`closing
    ensures Settles(x, r)
    ensures old(x.closing) <= x.closing
    ensures Got(x.closing[|old(x.closing)|..], Conclusion(x.current.plan, x.manifest.status, e), e, r)
  {
    hide Sound, Kept, CompiledOk, JournalOk, View, Log, Worktree.Valid, After, Got;
    ghost var start, analysing := x.closing, Analysing(x.current.plan, e.analysis);
    var analysed := Analyse(x, e.analysis);
    ApprovalsGrow(old(x.Here()), x.Here());
    if !analysed.Done? {
      GotNothing(x.closing[|start|..], Conclusion(x.current.plan, x.manifest.status, e), e, analysed.PropagateFailure());
    }
    var _ :- analysed;
    ghost var before, middle := x.Here(), x.closing;
    r := SaveEvidence(x, e);
    assert x.closing[|start|..] == analysing + x.closing[|middle|..];
    GotAfter(analysing, x.closing[|middle|..], [EvidenceWritten, ManifestSaved] + Removing(x.manifest.status, e.keeps), e, r);
    if r != Done(Overwritten) {
      AfterTransitive(old(x.Here()), before, x.Here());
    }
  }

  /** Evidence, second save, and the worktree of a completed run. */
  method SaveEvidence(x: RunExecution, e: Ending) returns (r: Exit<RunEnd>)
    requires x.Live() && x.Durable() && x.Flushed()
    modifies x.store, x.manifest`nextSequence, x`closing
    ensures Settles(x, r)
    ensures old(x.closing) <= x.closing
    ensures Got(x.closing[|old(x.closing)|..],
                [EvidenceWritten, ManifestSaved] + Removing(x.manifest.status, e.keeps), e, r)
  {
    hide Sound, Kept, CompiledOk, JournalOk, View, Log, Worktree.Valid, After;
    AfterReflexive(x.Here());
    ghost var start := x.closing;
    var written := WriteEvidence(x, e.evidenceFails);
    assert x.closing[|start|..] == if e.evidenceFails then [] else [EvidenceWritten];
    var _ :- written;
    var saved := SaveAmongOthers(x);
    assert saved == Done(false) ==> x.closing[|start|..] == [EvidenceWritten, ManifestSaved];
    var overwritten :- saved;
    if overwritten {
      return Done(Overwritten);
    }
    if !e.keeps && x.manifest.status == RunCompleted {
      var removed := RemoveWorktree(x, e.removalFails);
      assert removed.Done? ==> x.closing[|start|..] == [EvidenceWritten, ManifestSaved, WorktreeRemoved];
      var _ :- removed;
    }
    r := Done(Finished);
  }

  /** The directory of a completed run goes; its branch, and with it HEAD and the landings, stay. */
  method RemoveWorktree(x: RunExecution, fails: bool) returns (r: Exit<()>)
    modifies x`closing
    ensures r == if fails then Thrown(GitFailure) else Done(())
    ensures x.closing == if fails then old(x.closing) else old(x.closing) + [WorktreeRemoved]
  {
    if fails {
      return Thrown(GitFailure);
    }
    x.closing := x.closing + [WorktreeRemoved];
    r := Done(());
  }

  /** The analysis, where the plan asks for it. */
  method Analyse(x: RunExecution, analysis: Analysis) returns (r: Exit<()>)
    requires x.Live() && x.Durable() && x.Flushed()
    modifies x.store, x.manifest`nextSequence, x`closing
    ensures x.Durable() && After(old(x.Here()), x.Here())
    ensures !r.Crashed? ==> x.Live()
    ensures x.Flushed()
    ensures x.closing == if r.Done? then old(x.closing) + Analysing(x.current.plan, analysis) else old(x.closing)
    ensures r.Thrown? ==> !r.fault.LeaseHeld? && Analysing(x.current.plan, analysis) != []
  {
    hide Sound, Kept, CompiledOk, JournalOk, View, Log, Worktree.Valid, After;
    AfterReflexive(x.Here());
    if x.current.plan.kaizen.Some? && x.current.plan.kaizen.value.enabled.GetOr(false) {
      r := JournalKaizen(x, analysis);
    } else {
      r := Done(());
    }
  }

  /** The `catch` handler: the run failed, in memory, in the journal and in the saves. */
  method HandleException(x: RunExecution, e: Ending) returns (r: Exit<RunEnd>)
    requires x.Live()
    modifies x.store, x.manifest`status, x.manifest`failure, x.manifest`nextSequence, x`closing
    ensures Settles(x, r) && x.manifest.status == RunFailed && x.manifest.failure == Some(BROKEN)
    ensures old(x.closing) <= x.closing
    ensures Got(x.closing[|old(x.closing)|..], [FailedEntry] + Finale(x.current.plan, RunFailed, e), e, r)
    ensures r == Done(Finished) ==> LoggedSince(Log(x.store), |old(Log(x.store))|, RunFailedEvent)
  {
    hide Sound, Kept, CompiledOk, JournalOk, View, Log, Worktree.Valid, After, LoggedSince, Got, Finale;
    ghost var start, closed := x.Here(), x.closing;
    var failed := FailRun(x);
    ApprovalsGrow(start, x.Here());
    if !failed.Done? {
      GotNothing(x.closing[|closed|..], [FailedEntry] + Finale(x.current.plan, RunFailed, e), e, failed.PropagateFailure());
    }
    var _ :- failed;
    ghost var before, middle := x.Here(), x.closing;
    r := Finalize(x, e);
    assert x.closing[|closed|..] == [FailedEntry] + x.closing[|middle|..];
    GotAfter([FailedEntry], x.closing[|middle|..], Finale(x.current.plan, RunFailed, e), e, r);
    if r != Done(Overwritten) {
      AfterTransitive(start, before, x.Here());
      StaysLogged(before, x.Here(), |start.log|, RunFailedEvent);
    }
  }

  /** The failed run's own entry. */
  method FailRun(x: RunExecution) returns (r: Exit<()>)
    requires x.Live()
    modifies x.store, x.manifest`status, x.manifest`failure, x.manifest`nextSequence, x`closing
    ensures x.manifest.status == RunFailed && x.manifest.failure == Some(BROKEN)
    ensures x.Durable() && After(old(x.Here()), x.Here())
    ensures !r.Crashed? ==> x.Live()
    ensures r.Done? || old(x.Flushed()) ==> x.Flushed()
    ensures r.Done? ==> LoggedSince(Log(x.store), |old(Log(x.store))|, RunFailedEvent)
    ensures x.closing == if r.Done? then old(x.closing) + [FailedEntry] else old(x.closing)
    ensures r.Done? || r.BrokeOff() || !Admits(View(x.store), x.store.cancellationFile, x.manifest.Snapshot())
    ensures r.Thrown? ==> !r.fault.LeaseHeld?
  {
    hide Sound, Kept, CompiledOk, JournalOk, View, Log, Worktree.Valid, RunExecution.Journalled;
    FailingIsSound(x.compiled, View(x.store), x.manifest.Snapshot(), x.World());
    ghost var before := |Log(x.store)|;
    x.manifest.status := RunFailed;
    x.manifest.failure := Some(BROKEN);
    var draft := EventDraft(RunFailedEvent, x.manifest.currentTaskId, None);
    r := x.JournalEnd(draft);
    if r.Done? {
      LastIsLogged(x, draft, before);
    }
  }

  // ---- execute ----

  /** How a process leaves a run. */
  datatype Outcome = Outcome(status: RunStatus, failure: Option<RunFailure>)

  function OutcomeOf(m: Manifest): Outcome {
    Outcome(m.status, m.failure)
  }

  /**
    * How a run ended, told by the steps that succeeded: with every step of the block it stays what it was; if the
    * block stopped short, the handler ran and the run has failed.
    */
  predicate EndedBy(plan: Plan, steps: seq<ClosingStep>, whole: seq<ClosingStep>, was: Outcome, now: Outcome,
                    block: Ending, handler: Ending)
  {
    if steps == whole then now == was && Spared(whole, block)
    else
      && now == Outcome(RunFailed, Some(BROKEN))
      && CutShort(TryPart(steps), whole, block)
      && steps == TryPart(steps) + [FailedEntry] + Finale(plan, RunFailed, handler)
  }

  lemma FinaleHasNoFailure(plan: Plan, status: RunStatus, e: Ending)
    ensures FailedEntry !in Finale(plan, status, e)
  {
  }

  lemma WholeEnds(plan: Plan, whole: seq<ClosingStep>, was: Outcome, block: Ending, handler: Ending)
    requires Spared(whole, block)
    ensures EndedBy(plan, whole, whole, was, was, block, handler)
  {
  }

  /** The handler's steps after those of a block that stopped short. */
  lemma HandlerEnds(plan: Plan, tried: seq<ClosingStep>, handled: seq<ClosingStep>, whole: seq<ClosingStep>,
                    was: Outcome, block: Ending, handler: Ending)
    requires CutShort(tried, whole, block) && FailedEntry !in whole
    requires handled == [FailedEntry] + Finale(plan, RunFailed, handler)
    ensures EndedBy(plan, tried + handled, whole, was, Outcome(RunFailed, Some(BROKEN)), block, handler)
  {
    hide Finale;
    TryPartEnds(tried, handled);
    assert FailedEntry in tried + handled;
  }

  /** `finalize` inside the `try` block, or the `catch` handler when anything in the block threw. */
  method Finish(x: RunExecution, ended: bool, block: Ending, handler: Ending, ghost floor: nat)
    returns (r: Exit<RunEnd>)
    requires x.Live() && (ended ==> x.manifest.status.Terminal() && StoppedByGate(x, floor) && x.Flushed())
    modifies x.store, x.manifest`status, x.manifest`failure, x.manifest`nextSequence, x`closing
    ensures Settles(x, r) && old(x.closing) <= x.closing
    ensures r.Done? ==> StoppedByGate(x, floor)
    ensures r.Thrown? || !ended ==> x.manifest.status == RunFailed && x.manifest.failure == Some(BROKEN)
    ensures x.manifest.failure != Some(BROKEN) ==>
              x.manifest.status == old(x.manifest.status) && x.manifest.failure == old(x.manifest.failure)
    ensures r == Done(Finished) && ended ==>
              EndedBy(x.current.plan, x.closing[|old(x.closing)|..],
                      Finale(x.current.plan, old(x.manifest.status), block), old(OutcomeOf(x.manifest.Snapshot())),
                      OutcomeOf(x.manifest.Snapshot()), block, handler)
    ensures r == Done(Finished) && !ended ==>
              x.closing == old(x.closing) + [FailedEntry] + Finale(x.current.plan, RunFailed, handler)
    ensures x.manifest.status in {old(x.manifest.status), RunFailed}
    ensures r == Done(Finished) && FailedEntry in x.closing[|old(x.closing)|..] ==>
              LoggedSince(Log(x.store), |old(Log(x.store))|, RunFailedEvent)
  {
    hide Sound, Kept, CompiledOk, JournalOk, View, Log, Worktree.Valid, After, Behind, RejectionOnRecord, LoggedSince;
    hide EndedBy, CutShort, Finale, Spared;
    ghost var start, memory, closed := x.Here(), x.manifest.Snapshot(), x.closing;
    ghost var whole := Finale(x.current.plan, memory.status, block);
    AfterReflexive(start);
    if ended {
      r := Finalize(x, block);
      StoppedStays(x, memory, start.world.approvals, floor);
      FinaleHasNoFailure(x.current.plan, memory.status, block);
      if !r.Thrown? {
        if r == Done(Finished) {
          WholeEnds(x.current.plan, whole, OutcomeOf(memory), block, handler);
        }
        return;
      }
    }
    ghost var before, tried := x.Here(), x.closing;
    r := HandleException(x, handler);
    assert x.closing[|closed|..] == tried[|closed|..] + x.closing[|tried|..];
    if r == Done(Finished) && ended {
      HandlerEnds(x.current.plan, tried[|closed|..], x.closing[|tried|..], whole, OutcomeOf(memory), block, handler);
    }
    if r != Done(Overwritten) {
      AfterTransitive(start, before, x.Here());
      LogGrows(start, before);
    }
    if r == Done(Finished) {
      LoggedEarlier(Log(x.store), |start.log|, |before.log|, RunFailedEvent);
    }
  }

  /**
    * `execute`: from a manifest that no process is working on to a pause at a gate or to the end of the
    * run. `lease` is the outcome of taking the lease, by the protocol in `Leases`; `block` and `handler` are what
    * the two calls of `finalize` would meet.
    */
  method Execute(x: RunExecution, lease: Exit<()>, block: Ending, handler: Ending) returns (r: Exit<RunEnd>)
    requires x.Live() && x.current == x.compiled && Quiet(x) && !x.manifest.status.Terminal()
    modifies x.store, x.manifest, x.worktree, x`closing
    ensures !lease.Done? ==> r == lease.PropagateFailure() && Unchanged(x)
    ensures r.Thrown? && lease.Done? ==>
              !r.fault.LeaseHeld? && x.manifest.status == RunFailed && x.manifest.failure == Some(BROKEN)
    ensures r == Done(Overwritten) ==> !JournalOk(x.store)
    ensures r != Done(Overwritten) ==> x.Durable() && After(old(x.Here()), x.Here())
    ensures r == Done(Paused) ==> x.manifest.status == RunAwaitingApproval
    ensures r.Done? && r.value != Paused ==> x.manifest.status.Terminal()
    ensures r.Done? && x.manifest.status == RunCompleted ==> |x.manifest.checkpoints| == |x.compiled.taskOrder|
    ensures r == Done(Finished) ==> Told(x, old(x.closing), |old(Log(x.store))|, block, handler)
    ensures r.Done? && |x.manifest.checkpoints| == |x.compiled.taskOrder| ==>
              x.manifest.status in {RunCompleted, RunFailed}
    ensures r.Done? && old(AtRest(x)) && x.manifest.failure != Some(BROKEN) ==> AtRest(x)
    ensures r.Done? && r.value != Paused ==> StoppedByGate(x, old(|x.store.approvalsFile|))
    ensures r == Done(Finished) && x.store.transactionFile.None? ==> View(x.store) == x.manifest.Snapshot()
    ensures old(x.store.cancellationFile) ==> NothingMore(x, old(x.worktree.landings), old(x.worktree.starts))
    ensures old(x.store.approvalsFile) <= x.store.approvalsFile
    ensures TakenUp(old(x.World()), x.World(), old(|x.store.approvalsFile|))
    ensures RejectionsBlock(x.compiled, old(x.World()), x.World())
    ensures r != Done(Overwritten) ==> Gap(x.Here()) <= Gap(old(x.Here())) + 1
  {
    hide Sound, Kept, CompiledOk, JournalOk, View, Log, Worktree.Valid, After, Rested, Quiet, Behind, Gap;
    hide RejectionsBlock, StoppedByGate, LoggedSince, Told, EndedBy, Finale;
    AfterReflexive(x.Here());
    SoundIsKept(x.compiled, View(x.store), x.manifest.Snapshot(), x.World());
    Blocked(x, x.World());
    if !lease.Done? {
      return lease.PropagateFailure();
    }
    var executed := ExecuteTasks(x);
    Blocked(x, old(x.World()));
    ApprovalsGrow(old(x.Here()), x.Here());
    if executed.Crashed? {
      return Crashed;
    }
    if executed.Done? && !executed.value {
      return Done(Paused);
    }
    assert executed.Done? ==> executed == Done(true);
    ghost var before := x.Here();
    r := EndExecution(x, executed.Done?, block, handler, old(x.Here()), old(x.closing));
    BlockGrows(x.compiled, old(x.World()), before.world, x.World());
  }

  /** The end of `execute`, once the loop over the tasks is left or has thrown. */
  method EndExecution(x: RunExecution, ended: bool, block: Ending, handler: Ending, ghost start: Moment,
                      ghost closed: seq<ClosingStep>) returns (r: Exit<RunEnd>)
    requires x.Live() && After(start, x.Here()) && x.closing == closed + Opening(ended, x.manifest.status)
    requires ended ==>
               && x.manifest.status.Terminal() && StoppedByGate(x, |start.world.approvals|) && x.Flushed()
               && (x.manifest.status == RunCompleted <==> |x.manifest.checkpoints| == |x.compiled.taskOrder|)
               && (x.manifest.status == RunCompleted ==> LoggedSince(Log(x.store), |start.log|, RunCompletedEvent))
    modifies x.store, x.manifest`status, x.manifest`failure, x.manifest`nextSequence, x`closing
    ensures old(x.store.approvalsFile) <= x.store.approvalsFile
    ensures r == Done(Overwritten) ==> !JournalOk(x.store)
    ensures r != Done(Overwritten) ==> x.Durable() && After(start, x.Here()) && Gap(x.Here()) <= Gap(old(x.Here()))
    ensures r.Done? ==>
              r.value != Paused && x.manifest.status.Terminal() && StoppedByGate(x, |start.world.approvals|)
    ensures r.Done? ==> (x.manifest.status == RunCompleted ==> |x.manifest.checkpoints| == |x.compiled.taskOrder|)
    ensures r.Done? ==>
              (|x.manifest.checkpoints| == |x.compiled.taskOrder| ==> x.manifest.status in {RunCompleted, RunFailed})
    ensures r.Thrown? ==>
              !r.fault.LeaseHeld? && x.manifest.status == RunFailed && x.manifest.failure == Some(BROKEN)
    ensures x.manifest.failure != Some(BROKEN) ==> ended
    ensures r == Done(Finished) ==> Told(x, closed, |start.log|, block, handler)
    ensures r == Done(Finished) && x.store.transactionFile.None? ==> View(x.store) == x.manifest.Snapshot()
  {
    hide Sound, Kept, CompiledOk, JournalOk, View, Log, Worktree.Valid, After, Behind, Gap;
    hide StoppedByGate, LoggedSince, Told, EndedBy, Finale;
    ghost var before, memory, begun := x.Here(), x.manifest.Snapshot(), x.closing;
    r := Finish(x, ended, block, handler, |start.world.approvals|);
    if r != Done(Overwritten) {
      AfterTransitive(start, before, x.Here());
      GapOnlyShrinks(before, x.Here());
    }
    if r == Done(Finished) {
      EndIsTold(x, closed, begun, start, before, memory, ended, block, handler);
    }
  }

  lemma EndIsTold(x: RunExecution, closed: seq<ClosingStep>, begun: seq<ClosingStep>, start: Moment, before: Moment,
                  m: Manifest, ended: bool, block: Ending, handler: Ending)
    requires JournalOk(x.store) && After(start, before) && After(before, x.Here())
    requires begun == closed + Opening(ended, m.status) && begun <= x.closing
    requires x.manifest.checkpoints == m.checkpoints
    requires ended ==>
               && (m.status == RunCompleted <==> |m.checkpoints| == |x.compiled.taskOrder|)
               && (m.status == RunCompleted ==> LoggedSince(before.log, |start.log|, RunCompletedEvent))
               && EndedBy(x.current.plan, x.closing[|begun|..], Finale(x.current.plan, m.status, block), OutcomeOf(m),
                          OutcomeOf(x.manifest.Snapshot()), block, handler)
    requires !ended ==>
               && x.closing[|begun|..] == [FailedEntry] + Finale(x.current.plan, RunFailed, handler)
               && OutcomeOf(x.manifest.Snapshot()) == Outcome(RunFailed, Some(BROKEN))
    requires FailedEntry in x.closing[|begun|..] ==> LoggedSince(Log(x.store), |before.log|, RunFailedEvent)
    ensures Told(x, closed, |start.log|, block, handler)
  {
    hide JournalOk, Log, View, LoggedSince, Finale, CutShort, TryPart, StepsTell;
    var fin := x.closing[|begun|..];
    assert x.closing[|closed|..] == Opening(ended, m.status) + fin;
    LogGrows(start, before);
    if FailedEntry in fin {
      LoggedEarlier(Log(x.store), |start.log|, |before.log|, RunFailedEvent);
    }
    if x.manifest.status == RunCompleted {
      StaysLogged(before, x.Here(), |start.log|, RunCompletedEvent);
    }
    var complete := |m.checkpoints| == |x.compiled.taskOrder|;
    if ended {
      EndTells(x.current.plan, fin, complete, OutcomeOf(m), OutcomeOf(x.manifest.Snapshot()), block, handler);
    } else {
      ThrowTells(x.current.plan, complete, block, handler);
    }
  }

  /** The block got to its end. */
  lemma EndTells(plan: Plan, fin: seq<ClosingStep>, complete: bool, was: Outcome, now: Outcome, block: Ending,
                 handler: Ending)
    requires EndedBy(plan, fin, Finale(plan, was.status, block), was, now, block, handler)
    requires was.status == RunCompleted <==> complete
    ensures StepsTell(plan, Opening(true, was.status) + fin, complete, now, block, handler)
  {
    hide Finale, CutShort, TryPart;
    var whole, all := Finale(plan, was.status, block), [CompletedEntry] + Finale(plan, RunCompleted, block);
    FinaleHasNoFailure(plan, was.status, block);
    FinaleHasNoFailure(plan, RunCompleted, block);
    if fin == whole {
      TryPartEnds(all, []);
      assert all + [] == all;
      WholeIsNotShort(all, block);
    } else {
      TryPartJoins(Opening(true, was.status), fin);
      CutShortAfter(Opening(true, was.status), TryPart(fin), whole, block);
      assert FailedEntry in fin;
    }
  }

  /** The block threw before that. */
  lemma ThrowTells(plan: Plan, complete: bool, block: Ending, handler: Ending)
    ensures StepsTell(plan, [FailedEntry] + Finale(plan, RunFailed, handler), complete,
                      Outcome(RunFailed, Some(BROKEN)), block, handler)
    ensures Opening(false, RunFailed) + ([FailedEntry] + Finale(plan, RunFailed, handler)) ==
            [FailedEntry] + Finale(plan, RunFailed, handler)
  {
    hide Finale;
    StartsCutShort([CompletedEntry] + Finale(plan, RunCompleted, block), block);
  }

  lemma WholeIsNotShort(whole: seq<ClosingStep>, e: Ending)
    ensures !CutShort(whole, whole, e)
  {
  }

  lemma {:induction false} TryPartJoins(first: seq<ClosingStep>, rest: seq<ClosingStep>)
    requires FailedEntry !in first
    ensures TryPart(first + rest) == first + TryPart(rest)
  {
    if first == [] {
      assert first + rest == rest;
    } else {
      assert (first + rest)[1..] == first[1..] + rest;
      TryPartJoins(first[1..], rest);
    }
  }

  lemma CutShortAfter(first: seq<ClosingStep>, tried: seq<ClosingStep>, whole: seq<ClosingStep>, e: Ending)
    requires CutShort(tried, whole, e) && forall step :: step in first ==> !Outward(step)
    ensures CutShort(first + tried, first + whole, e)
  {
    assert (first + whole)[|first + tried|] == whole[|tried|];
  }

  lemma StartsCutShort(whole: seq<ClosingStep>, e: Ending)
    requires whole != [] && !Outward(whole[0])
    ensures CutShort([], whole, e)
  {
  }

  /** Neither the run's records nor the worktree were touched. */
  twostate predicate Unchanged(x: RunExecution)
    reads x.store, x.manifest, x.worktree
  {
    unchanged(x.store) && unchanged(x.manifest) && unchanged(x.worktree)
  }

  /**
    * What the steps of an execution that reached its end tell. A run with all its checkpoints is completed exactly
    * when every step of the block succeeded, and has failed exactly when one of them did not; any run failed by
    * the handler exactly when the handler's entry is among them.
    */
  ghost predicate StepsTell(plan: Plan, steps: seq<ClosingStep>, complete: bool, now: Outcome, block: Ending,
                            handler: Ending)
  {
    var all := [CompletedEntry] + Finale(plan, RunCompleted, block);
    && (complete ==>
          && (now.status == RunCompleted <==> steps == all)
          && (now.status == RunFailed <==> CutShort(TryPart(steps), all, block)))
    && (if FailedEntry in steps then
          && now == Outcome(RunFailed, Some(BROKEN))
          && steps == TryPart(steps) + [FailedEntry] + Finale(plan, RunFailed, handler)
        else
          steps == Opening(true, now.status) + Finale(plan, now.status, block) && Spared(steps, block))
  }

  /** The steps tell how the run ended, and the log holds the entry of its end. */
  ghost predicate Told(x: RunExecution, closed: seq<ClosingStep>, logged: nat, block: Ending, handler: Ending)
    reads x, x.store, x.manifest
  {
    && JournalOk(x.store) && closed <= x.closing
    && var steps, complete := x.closing[|closed|..], |x.manifest.checkpoints| == |x.compiled.taskOrder|;
       && StepsTell(x.current.plan, steps, complete, OutcomeOf(x.manifest.Snapshot()), block, handler)
       && (FailedEntry in steps ==> LoggedSince(Log(x.store), logged, RunFailedEvent))
       && (x.manifest.status == RunCompleted ==> LoggedSince(Log(x.store), logged, RunCompletedEvent))
  }

  lemma Blocked(x: RunExecution, start: World)
    requires x.Durable() && TakenUp(start, x.World(), |start.approvals|)
    ensures RejectionsBlock(x.compiled, start, x.World())
  {
    hide CompiledOk, JournalOk, View, Log, Worktree.Valid, WorldOk, RunOk, StartsCounted, RejectionsBlock;
    RejectedTaskLandsNothing(x.compiled, start, x.World());
  }

  lemma StoppedStays(x: RunExecution, m: Manifest, approvals: seq<ApprovalRecord>, floor: nat)
    requires m.status == x.manifest.status && m.checkpoints == x.manifest.checkpoints
    requires approvals <= x.store.approvalsFile
    requires m.status == RunStopped ==> RejectionOnRecord(x.compiled, m, approvals, floor)
    ensures StoppedByGate(x, floor)
  {
    hide RejectionOnRecord;
    if m.status == RunStopped {
      RejectionGrows(x.compiled, m, x.manifest.Snapshot(), approvals, x.store.approvalsFile, floor, floor);
    }
  }
}
