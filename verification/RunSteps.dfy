/**
  * The orchestrator's updates of the manifest as functions of its value, each with the lemma that it
  * keeps memory and disk sound (packages/agent-runtime/src/engine/orchestrator.ts).
  */
module RunSteps {
  import opened Basics
  import opened Policy
  import opened PlanTypes
  import opened RunTypes
  import opened TaskGraph
  import opened Worktrees
  import opened Journal
  import opened CompiledPlans
  import opened RunProtocol

  /** One task's state and the run's status, failure and counters; everything else stays. */
  function Stepped(m: Manifest, id: string, s: TaskState, status: RunStatus, failure: Option<RunFailure>,
                   metrics: RunMetrics): Manifest {
    m.(taskStates := m.taskStates[id := s], status := status, failure := failure, metrics := metrics)
  }

  function WithState(m: Manifest, id: string, s: TaskState): Manifest {
    Stepped(m, id, s, m.status, m.failure, m.metrics)
  }

  function WithLast(s: TaskState, a: Attempt): TaskState
    requires s.attempts != []
  {
    s.(attempts := s.attempts[|s.attempts| - 1 := a])
  }

  /** The task after the completed ones is `task`, and a run step may change it. */
  ghost predicate At(c: CompiledPlan, m: Manifest, task: Task) {
    && |m.checkpoints| < |c.taskOrder|
    && c.taskOrder[|m.checkpoints|] == task.id
    && TaskOf(c, task.id) == task
    && task.id in m.taskStates
  }

  /** What a sound manifest says of the task under way. */
  lemma FrontFacts(c: CompiledPlan, view: Manifest, m: Manifest, w: World, task: Task)
    requires |m.checkpoints| < |c.taskOrder| && c.taskOrder[|m.checkpoints|] == task.id
    requires Sound(c, view, m, w)
    ensures Shape(c, m) && StatusOk(c, m, w) && task.id in m.taskStates
    ensures FrontOk(c, task.id, m.taskStates[task.id], m)
    ensures AttemptsOk(c, task.id, m.taskStates[task.id].attempts)
  {
    hide Kept, CompletedOk, Accounted;
  }

  /** What a sound manifest says of its status and of the front task, if there is one. */
  lemma MemoryFacts(c: CompiledPlan, view: Manifest, m: Manifest, w: World)
    requires Sound(c, view, m, w)
    ensures Shape(c, m) && StatusOk(c, m, w) && |m.checkpoints| <= |c.taskOrder|
    ensures |m.checkpoints| < |c.taskOrder| ==>
              Front(c, m) in m.taskStates && FrontOk(c, Front(c, m), m.taskStates[Front(c, m)], m)
  {
    hide Kept, AttemptsOk, CompletedOk, FrontOk, StatusOk, Accounted;
    assert |m.checkpoints| < |c.taskOrder| ==> Front(c, m) in c.taskOrder;
  }

  /** A change of the front task's state, of the status fields and of the free counters. */
  lemma StateStep(c: CompiledPlan, view: Manifest, m: Manifest, w: World, task: Task,
                  s: TaskState, status: RunStatus, failure: Option<RunFailure>, metrics: RunMetrics)
    requires CompiledOk(c) && At(c, m, task)
    requires metrics.taskCount == m.metrics.taskCount && metrics.completedTaskCount == m.metrics.completedTaskCount
    requires metrics.attemptCount == m.metrics.attemptCount + |s.attempts| - |m.taskStates[task.id].attempts|
    requires |m.taskStates[task.id].attempts| <= |s.attempts|
    requires AttemptsOk(c, task.id, s.attempts)
    requires FrontOk(c, task.id, s, Stepped(m, task.id, s, status, failure, metrics))
    requires StatusOk(c, Stepped(m, task.id, s, status, failure, metrics), w)
    requires Sound(c, view, m, w)
    ensures Sound(c, view, Stepped(m, task.id, s, status, failure, metrics), w)
  {
    hide AttemptsOk, FrontOk, StatusOk, CompiledOk, Sound, TaskOf, Shape, FrontOnly;
    FrontFacts(c, view, m, w, task);
    SteppedIsFrontOnly(c, m, task, s, status, failure, metrics);
    FrontStepKeepsSound(c, view, m, Stepped(m, task.id, s, status, failure, metrics), w);
  }

  lemma SteppedIsFrontOnly(c: CompiledPlan, m: Manifest, task: Task, s: TaskState, status: RunStatus,
                           failure: Option<RunFailure>, metrics: RunMetrics)
    requires Shape(c, m) && At(c, m, task)
    requires metrics.taskCount == m.metrics.taskCount && metrics.completedTaskCount == m.metrics.completedTaskCount
    requires metrics.attemptCount == m.metrics.attemptCount + |s.attempts| - |m.taskStates[task.id].attempts|
    requires |m.taskStates[task.id].attempts| <= |s.attempts|
    ensures var n := Stepped(m, task.id, s, status, failure, metrics);
            FrontOnly(c, m, n) && n.taskStates[task.id] == s && |n.checkpoints| == |m.checkpoints| && Front(c, m) == task.id
  {
    hide Shape, TaskOf;
  }

  // ---- approval gates ----

  function Requested(m: Manifest, id: string, phase: ApprovalPhase): Manifest
    requires id in m.taskStates
  {
    var s := m.taskStates[id];
    var waits := m.metrics.approvalWaitCount + (if s.status != TaskAwaitingApproval then 1 else 0);
    var held := s.(status := TaskAwaitingApproval, phase := if phase.BeforeChange? then AwaitingBefore else AwaitingAfter);
    Stepped(m, id, held, RunAwaitingApproval, m.failure, m.metrics.(approvalWaitCount := waits))
  }

  lemma RequestedIsSound(c: CompiledPlan, view: Manifest, m: Manifest, w: World, task: Task, phase: ApprovalPhase)
    requires CompiledOk(c) && At(c, m, task)
    requires !task.Approval().NoGate? && GatePhase(task.Approval()) == phase
    requires phase.AfterChange? ==> m.taskStates[task.id].attempts != []
    requires phase.BeforeChange? ==> !m.taskStates[task.id].phase.InFlight() && !m.status.Terminal()
    requires Sound(c, view, m, w)
    ensures Sound(c, view, Requested(m, task.id, phase), w)
  {
    hide Sound, CompiledOk, WorkerOf, TaskOf, AttemptsOk, Shape;
    FrontFacts(c, view, m, w, task);
    var n := Requested(m, task.id, phase);
    StateStep(c, view, m, w, task, n.taskStates[task.id], n.status, n.failure, n.metrics);
  }

  /** What the latest record for the gate among the first `count` approvals tells. */
  lemma GateRead(c: CompiledPlan, m: Manifest, task: Task, approvals: seq<ApprovalRecord>, since: nat, count: nat)
    requires At(c, m, task) && !task.Approval().NoGate? && since <= count <= |approvals|
    ensures var record := LatestFor(task, approvals, count);
            && (record.Some? && record.value.approved <==> GateOpen(task, approvals, GateReading(since, count)))
            && (record.Some? && !record.value.approved <==> RejectedAt(task, approvals, count))
            && (RejectedAt(task, approvals, count) ==> RejectionOnRecord(c, m, approvals, since))
  {
    hide TaskOf;
  }

  /** An approval older than the patch still counts, as long as nobody decides the gate again. */
  lemma OldApprovalStillCounts(task: Task, approvals: seq<ApprovalRecord>, early: nat, gate: GateReading)
    requires early <= gate.since <= gate.consulted <= |approvals|
    requires LatestFor(task, approvals, early) == Some(GateRecord(task, true))
    requires NoneSince(task, approvals[..gate.consulted], early)
    ensures GateOpen(task, approvals, gate)
  {
    VerdictStands(task, approvals, early, gate.consulted);
  }

  // ---- attempts ----

  function NewAttempt(number: int, workerId: string): Attempt {
    Attempt(number, workerId, AttemptRunning, None, [], 0, [])
  }

  function Started(m: Manifest, id: string, workerId: string): Manifest
    requires id in m.taskStates
  {
    var s := m.taskStates[id];
    var attempts := s.attempts + [NewAttempt(|s.attempts| + 1, workerId)];
    Stepped(m, id, s.(attempts := attempts, status := TaskRunning, phase := Working), m.status, m.failure,
            m.metrics.(attemptCount := m.metrics.attemptCount + 1))
  }

  lemma AttemptAppended(c: CompiledPlan, task: Task, attempts: seq<Attempt>)
    requires TaskOf(c, task.id) == task && AttemptsOk(c, task.id, attempts) && |attempts| < task.Budget()
    requires attempts != [] ==> Last(attempts).status != AttemptRunning
    ensures AttemptsOk(c, task.id, attempts + [NewAttempt(|attempts| + 1, WorkerOf(c.plan, task, |attempts| + 1))])
  {
    hide WorkerOf, TaskOf;
  }

  lemma StartedIsSound(c: CompiledPlan, view: Manifest, m: Manifest, w: World, task: Task)
    requires CompiledOk(c) && At(c, m, task)
    requires |m.taskStates[task.id].attempts| < task.Budget()
    requires !m.taskStates[task.id].phase.InFlight() && m.taskStates[task.id].phase != AwaitingAfter
    requires !m.status.Terminal()
    requires m.currentTaskId == Some(task.id)
    requires Sound(c, view, m, w)
    ensures var worker := WorkerOf(c.plan, task, |m.taskStates[task.id].attempts| + 1);
            Sound(c, view, Started(m, task.id, worker), w)
  {
    hide Sound, CompiledOk, WorkerOf, TaskOf, AttemptsOk, Shape, StatusOk;
    FrontFacts(c, view, m, w, task);
    AttemptAppended(c, task, m.taskStates[task.id].attempts);
    var worker := WorkerOf(c.plan, task, |m.taskStates[task.id].attempts| + 1);
    var n := Started(m, task.id, worker);
    SameStatus(c, m, n, w);
    StateStep(c, view, m, w, task, n.taskStates[task.id], n.status, n.failure, n.metrics);
  }

  /** Status facts do not look at counters, nor at task states beyond how many attempts the task under way has had. */
  lemma SameStatus(c: CompiledPlan, m: Manifest, n: Manifest, w: World)
    requires StatusOk(c, m, w)
    requires n.checkpoints == m.checkpoints && n.status == m.status && n.failure == m.failure
    requires n.currentTaskId == m.currentTaskId && n.cancellationRequested == m.cancellationRequested
    requires forall id :: id in m.taskStates ==>
               id in n.taskStates && |m.taskStates[id].attempts| <= |n.taskStates[id].attempts|
    ensures StatusOk(c, n, w)
  {
    hide TaskOf;
  }

  /** Replaces the last attempt without renumbering or reassigning it. */
  lemma LastReplaced(c: CompiledPlan, id: string, s: TaskState, a: Attempt)
    requires s.attempts != [] && AttemptsOk(c, id, s.attempts)
    requires a.number == Last(s.attempts).number && a.workerId == Last(s.attempts).workerId
    ensures AttemptsOk(c, id, WithLast(s, a).attempts) && Last(WithLast(s, a).attempts) == a
  {
  }

  function Inspected(m: Manifest, id: string, patch: StagedPatch): Manifest
    requires id in m.taskStates && m.taskStates[id].attempts != []
  {
    var s := m.taskStates[id];
    WithState(m, id, WithLast(s, Last(s.attempts).(changedFiles := patch.changedFiles, patchBytes := patch.patchBytes)))
  }

  function Validated(m: Manifest, id: string, results: seq<ValidationResult>): Manifest
    requires id in m.taskStates && m.taskStates[id].attempts != []
  {
    var s := m.taskStates[id];
    WithState(m, id, WithLast(s, Last(s.attempts).(validations := results)))
  }

  function InPhase(m: Manifest, id: string, phase: TaskPhase): Manifest
    requires id in m.taskStates
  {
    WithState(m, id, m.taskStates[id].(phase := phase))
  }

  function Closed(a: Attempt, f: RunFailure): Attempt {
    a.(status := if f.category.CancelledRun? then AttemptCancelled else AttemptFailed, failure := Some(f))
  }

  /** `failAttempt`: the attempt is closed and the task is ready to try again. */
  function FailedAttempt(m: Manifest, id: string, f: RunFailure): Manifest
    requires id in m.taskStates && m.taskStates[id].attempts != []
  {
    var s := m.taskStates[id];
    WithState(m, id, WithLast(s, Closed(Last(s.attempts), f))
                     .(status := if f.category.CancelledRun? then TaskCancelled else TaskRunning, phase := PhasePending))
  }

  lemma LastEditIsSound(c: CompiledPlan, view: Manifest, m: Manifest, w: World, task: Task, s: TaskState, a: Attempt)
    requires CompiledOk(c) && At(c, m, task)
    requires m.taskStates[task.id].attempts != []
    requires a == Last(m.taskStates[task.id].attempts).(
                    status := a.status, failure := a.failure, changedFiles := a.changedFiles,
                    patchBytes := a.patchBytes, validations := a.validations)
    requires s.attempts == WithLast(m.taskStates[task.id], a).attempts
    requires FrontOk(c, task.id, s, m)
    requires Sound(c, view, m, w)
    ensures Sound(c, view, WithState(m, task.id, s), w)
  {
    hide Sound, CompiledOk, WorkerOf, TaskOf, AttemptsOk, Shape, StatusOk;
    FrontFacts(c, view, m, w, task);
    LastReplaced(c, task.id, m.taskStates[task.id], a);
    SameStatus(c, m, WithState(m, task.id, s), w);
    StateStep(c, view, m, w, task, s, m.status, m.failure, m.metrics);
  }

  lemma InspectedIsSound(c: CompiledPlan, view: Manifest, m: Manifest, w: World, task: Task, patch: StagedPatch)
    requires CompiledOk(c) && At(c, m, task) && m.taskStates[task.id].attempts != []
    requires Sound(c, view, m, w)
    ensures Sound(c, view, Inspected(m, task.id, patch), w)
  {
    hide Sound, CompiledOk, WorkerOf, TaskOf, AttemptsOk, Shape;
    FrontFacts(c, view, m, w, task);
    var a := Last(m.taskStates[task.id].attempts).(changedFiles := patch.changedFiles, patchBytes := patch.patchBytes);
    LastReplaced(c, task.id, m.taskStates[task.id], a);
    LastEditIsSound(c, view, m, w, task, Inspected(m, task.id, patch).taskStates[task.id], a);
  }

  lemma ValidatedIsSound(c: CompiledPlan, view: Manifest, m: Manifest, w: World, task: Task,
                         results: seq<ValidationResult>)
    requires CompiledOk(c) && At(c, m, task) && m.taskStates[task.id].attempts != []
    requires Sound(c, view, m, w)
    ensures Sound(c, view, Validated(m, task.id, results), w)
  {
    hide Sound, CompiledOk, WorkerOf, TaskOf, AttemptsOk, Shape;
    FrontFacts(c, view, m, w, task);
    var a := Last(m.taskStates[task.id].attempts).(validations := results);
    LastReplaced(c, task.id, m.taskStates[task.id], a);
    LastEditIsSound(c, view, m, w, task, Validated(m, task.id, results).taskStates[task.id], a);
  }

  lemma FailedAttemptIsSound(c: CompiledPlan, view: Manifest, m: Manifest, w: World, task: Task, f: RunFailure)
    requires CompiledOk(c) && At(c, m, task) && m.taskStates[task.id].attempts != []
    requires Sound(c, view, m, w)
    ensures Sound(c, view, FailedAttempt(m, task.id, f), w)
  {
    hide Sound, CompiledOk, WorkerOf, TaskOf, AttemptsOk, Shape;
    FrontFacts(c, view, m, w, task);
    var a := Closed(Last(m.taskStates[task.id].attempts), f);
    LastReplaced(c, task.id, m.taskStates[task.id], a);
    LastEditIsSound(c, view, m, w, task, FailedAttempt(m, task.id, f).taskStates[task.id], a);
  }

  /** Entering validation or checkpointing: the task is current. */
  lemma InFlightIsSound(c: CompiledPlan, view: Manifest, m: Manifest, w: World, task: Task, phase: TaskPhase)
    requires CompiledOk(c) && At(c, m, task)
    requires phase.InFlight() && m.currentTaskId == Some(task.id)
    requires Sound(c, view, m, w)
    ensures Sound(c, view, InPhase(m, task.id, phase), w)
  {
    hide Sound, CompiledOk, WorkerOf, TaskOf, AttemptsOk, Shape;
    FrontFacts(c, view, m, w, task);
    var n := InPhase(m, task.id, phase);
    StateStep(c, view, m, w, task, n.taskStates[task.id], n.status, n.failure, n.metrics);
  }

  // ---- policy decisions ----

  function Decided(m: Manifest, d: PolicyDecision): Manifest {
    m.(policyDecisions := m.policyDecisions + [d])
  }

  lemma DecidedIsSound(c: CompiledPlan, view: Manifest, m: Manifest, w: World, task: Task, d: PolicyDecision)
    requires CompiledOk(c) && At(c, m, task) && d.taskId == task.id
    requires Sound(c, view, m, w)
    ensures Sound(c, view, Decided(m, d), w)
  {
    hide Sound, CompiledOk, WorkerOf, TaskOf, AttemptsOk, Shape;
    FrontFacts(c, view, m, w, task);
    FrontStepKeepsSound(c, view, m, Decided(m, d), w);
  }

  /** The counters that no invariant is about. */
  lemma FreeCountersAreSound(c: CompiledPlan, view: Manifest, m: Manifest, n: Manifest, w: World)
    requires n == m.(metrics := m.metrics.(workerFailureCount := n.metrics.workerFailureCount,
                                           validationFailureCount := n.metrics.validationFailureCount,
                                           policyViolationCount := n.metrics.policyViolationCount))
    requires Sound(c, view, m, w)
    ensures Sound(c, view, n, w)
  {
    hide Sound, Shape, TaskOf;
    MemoryFacts(c, view, m, w);
    StatusStepKeepsSound(c, view, m, n, w);
  }

  // ---- completion ----

  function Finished(a: Attempt, patch: StagedPatch): Attempt {
    a.(status := AttemptCompleted, failure := None, changedFiles := patch.changedFiles, patchBytes := patch.patchBytes)
  }

  /** The end of `validateAndCheckpoint`. */
  function Completed(m: Manifest, id: string, patch: StagedPatch, commit: nat): Manifest
    requires id in m.taskStates && m.taskStates[id].attempts != []
  {
    var s := m.taskStates[id];
    WithState(m, id, WithLast(s, Finished(Last(s.attempts), patch))
                     .(status := TaskCompleted, phase := PhaseCompleted, checkpoint := Some(commit)))
    .(checkpoints := m.checkpoints + [Checkpoint(id, commit)],
      metrics := m.metrics.(completedTaskCount := m.metrics.completedTaskCount + 1))
  }

  lemma CompletedIsSound(c: CompiledPlan, view: Manifest, m: Manifest, w: World, task: Task, l: Landing)
    requires CompiledOk(c) && At(c, m, task)
    requires m.taskStates[task.id].attempts != [] && m.status == RunActive
    requires l in w.landings && l.taskId == task.id
    requires l.attempt == Last(m.taskStates[task.id].attempts).number
    requires l.validations == Last(m.taskStates[task.id].attempts).validations
    requires m.policyDecisions != [] && Last(m.policyDecisions) == l.decision
    requires l.decision.taskId == task.id && l.decision.attempt == l.attempt
    requires Sound(c, view, m, w)
    ensures Sound(c, view, Completed(m, task.id, l.patch, l.commit), w)
  {
    hide CompiledOk, WorkerOf, TaskOf, Sound, AttemptsOk, Landed, Shape, StatusOk, FrontOk;
    FrontFacts(c, view, m, w, task);
    var n := Completed(m, task.id, l.patch, l.commit);
    CompletedStatus(c, m, n, w);
    CompletedState(c, m, w.landings, task, l);
    CompletionKeepsSound(c, view, m, n, w, l.commit);
  }

  lemma CompletedStatus(c: CompiledPlan, m: Manifest, n: Manifest, w: World)
    requires StatusOk(c, m, w) && m.status == RunActive
    requires n.status == m.status && n.currentTaskId == m.currentTaskId
    requires n.cancellationRequested == m.cancellationRequested
    ensures StatusOk(c, n, w)
  {
  }

  lemma CompletedState(c: CompiledPlan, m: Manifest, landings: seq<Landing>, task: Task, l: Landing)
    requires At(c, m, task) && m.taskStates[task.id].attempts != []
    requires l in landings && l.taskId == task.id
    requires l.attempt == Last(m.taskStates[task.id].attempts).number
    requires l.validations == Last(m.taskStates[task.id].attempts).validations
    requires m.policyDecisions != [] && Last(m.policyDecisions) == l.decision
    requires l.decision.taskId == task.id && l.decision.attempt == l.attempt
    requires Shape(c, m) && AttemptsOk(c, task.id, m.taskStates[task.id].attempts)
    ensures var n := Completed(m, task.id, l.patch, l.commit);
            && Completes(c, m, n, l.commit)
            && AttemptsOk(c, task.id, n.taskStates[task.id].attempts)
            && CompletedOk(n.policyDecisions, landings, task.id, n.taskStates[task.id], l.commit)
  {
    hide TaskOf, WorkerOf, AttemptsOk, Landed, Shape;
    var s := m.taskStates[task.id];
    var a := Finished(Last(s.attempts), l.patch);
    LastReplaced(c, task.id, s, a);
    LandingBacks(landings, l, a);
  }

  lemma LandingBacks(landings: seq<Landing>, l: Landing, a: Attempt)
    requires l in landings && a.number == l.attempt && a.validations == l.validations
    requires a.changedFiles == l.patch.changedFiles
    ensures Landed(landings, l.taskId, a, l.decision, l.commit)
  {
    var i :| 0 <= i < |landings| && landings[i] == l;
    assert Records(landings[i], l.taskId, a, l.decision, l.commit);
  }

  // ---- ends of a task or a run ----

  /** `executeTask` gave up: the last failure becomes the run's. */
  function Exhausted(m: Manifest, id: string): Manifest
    requires id in m.taskStates
  {
    var s := m.taskStates[id];
    var f := if s.attempts != [] && Last(s.attempts).failure.Some? then Last(s.attempts).failure
             else Some(RunFailure(WorkerFailed, false));
    Stepped(m, id, s.(status := TaskFailed, phase := PhasePending), RunFailed, f, m.metrics)
  }

  lemma ExhaustedIsSound(c: CompiledPlan, view: Manifest, m: Manifest, w: World, task: Task)
    requires CompiledOk(c) && At(c, m, task)
    requires |m.taskStates[task.id].attempts| >= task.Budget()
    requires Sound(c, view, m, w)
    ensures Sound(c, view, Exhausted(m, task.id), w)
  {
    hide Sound, CompiledOk, WorkerOf, TaskOf, AttemptsOk, Shape;
    FrontFacts(c, view, m, w, task);
    var n := Exhausted(m, task.id);
    StateStep(c, view, m, w, task, n.taskStates[task.id], n.status, n.failure, n.metrics);
  }

  /** `markCancelled`. */
  function CancelledAt(m: Manifest, id: string): Manifest
    requires id in m.taskStates
  {
    Stepped(m, id, m.taskStates[id].(status := TaskCancelled, phase := PhasePending), RunCancelled,
            Some(RunFailure(CancelledRun, false)), m.metrics)
  }

  lemma CancelledAtIsSound(c: CompiledPlan, view: Manifest, m: Manifest, w: World, task: Task)
    requires CompiledOk(c) && At(c, m, task) && w.cancelled
    requires Sound(c, view, m, w)
    ensures Sound(c, view, CancelledAt(m, task.id), w)
  {
    hide Sound, CompiledOk, WorkerOf, TaskOf, AttemptsOk, Shape;
    FrontFacts(c, view, m, w, task);
    var n := CancelledAt(m, task.id);
    StateStep(c, view, m, w, task, n.taskStates[task.id], n.status, n.failure, n.metrics);
  }

  /** A rejection ends the run at this task. */
  function StoppedAt(m: Manifest, id: string): Manifest
    requires id in m.taskStates
  {
    Stepped(m, id, m.taskStates[id].(status := TaskFailed), RunStopped, Some(RunFailure(ApprovalRejected, false)), m.metrics)
  }

  lemma StoppedAtIsSound(c: CompiledPlan, view: Manifest, m: Manifest, w: World, task: Task)
    requires CompiledOk(c) && At(c, m, task) && RejectionOnRecord(c, m, w.approvals, 0)
    requires Sound(c, view, m, w)
    ensures Sound(c, view, StoppedAt(m, task.id), w)
  {
    hide Sound, CompiledOk, WorkerOf, TaskOf, AttemptsOk, Shape;
    FrontFacts(c, view, m, w, task);
    var n := StoppedAt(m, task.id);
    StateStep(c, view, m, w, task, n.taskStates[task.id], n.status, n.failure, n.metrics);
  }

  /** `recoverInterruptedTask`: the interrupted attempt is closed and the task is pending again. */
  function Recovered(m: Manifest, id: string): Manifest
    requires id in m.taskStates
  {
    var s := m.taskStates[id];
    var closed := if s.attempts != [] && Last(s.attempts).status == AttemptRunning
                  then WithLast(s, Last(s.attempts).(status := AttemptFailed, failure := Some(RunFailure(Interrupted, true))))
                  else s;
    Stepped(m, id, closed.(status := TaskPending, phase := PhasePending), RunPending, m.failure, m.metrics)
  }

  lemma RecoveredIsSound(c: CompiledPlan, view: Manifest, m: Manifest, w: World, task: Task)
    requires CompiledOk(c) && At(c, m, task)
    requires Sound(c, view, m, w)
    ensures Sound(c, view, Recovered(m, task.id), w)
  {
    hide Sound, CompiledOk, WorkerOf, TaskOf, AttemptsOk, Shape;
    FrontFacts(c, view, m, w, task);
    var s := m.taskStates[task.id];
    if s.attempts != [] {
      var closed := Last(s.attempts).(status := AttemptFailed, failure := Some(RunFailure(Interrupted, true)));
      LastReplaced(c, task.id, s, closed);
    }
    var n := Recovered(m, task.id);
    StateStep(c, view, m, w, task, n.taskStates[task.id], n.status, n.failure, n.metrics);
  }

  // ---- the cancellation flag and the world ----

  /** The flag in memory is only ever copied from the durable request. */
  lemma FlagMeansRequested(c: CompiledPlan, view: Manifest, m: Manifest, w: World)
    requires Sound(c, view, m, w)
    ensures m.cancellationRequested ==> w.cancelled
  {
  }

  lemma FlaggedIsSound(c: CompiledPlan, view: Manifest, m: Manifest, w: World)
    requires w.cancelled
    requires Sound(c, view, m, w)
    ensures Sound(c, view, m.(cancellationRequested := true), w)
  {
    hide Kept;
    BodyDecidesRunOk(c, m, m.(cancellationRequested := true), w);
    SameBody(m, m.(cancellationRequested := true));
    UpdateKeepsSound(c, view, m, m.(cancellationRequested := true), w);
  }

  lemma StartKeepsSound(c: CompiledPlan, view: Manifest, m: Manifest, w: World, s: Start)
    requires StartOk(c, w.base, w.landings, s) && StartedOnce(w.starts + [s]) && StartAdmitted(c, w.approvals, s)
    requires w.lost.attempts || StartsCounted(view, w.starts + [s])
    requires Sound(c, view, m, w)
    ensures Sound(c, view, m, w.(starts := w.starts + [s]))
  {
    hide StartOk, StartAdmitted, StartsCounted, StartedOnce, WorldOk, RunOk, HeldOk, Follows;
    var v := w.(starts := w.starts + [s]);
    WorldOkWithStart(c, w, s);
    RunOkGrows(c, view, w, v);
    RunOkGrows(c, m, w, v);
    HeldGrows(c, view, w, v);
  }

  /** Without a recorded cancellation, no attempt of the front task beyond those in memory was ever started. */
  lemma StartedOnlyBefore(c: CompiledPlan, view: Manifest, m: Manifest, w: World, task: Task)
    requires task.id in m.taskStates && !w.cancelled
    requires Sound(c, view, m, w)
    ensures forall i :: 0 <= i < |w.starts| && w.starts[i].taskId == task.id ==>
              w.starts[i].attempt <= |m.taskStates[task.id].attempts|
  {
    hide WorldOk, RunOk, CopyOk;
  }

  lemma OneMoreStart(view: Manifest, starts: seq<Start>, s: Start)
    requires StartedOnce(starts)
    requires s.taskId in view.taskStates && s.attempt <= |view.taskStates[s.taskId].attempts|
    requires forall i :: 0 <= i < |starts| && starts[i].taskId == s.taskId ==> starts[i].attempt < s.attempt
    ensures StartedOnce(starts + [s])
    ensures StartsCounted(view, starts) ==> StartsCounted(view, starts + [s])
  {
  }

  lemma SoundStartsAreCounted(c: CompiledPlan, view: Manifest, m: Manifest, w: World)
    requires Sound(c, view, m, w)
    ensures StartedOnce(w.starts) && (w.lost.attempts || StartsCounted(view, w.starts))
  {
    hide RunOk, HeldOk, StartOk, StartAdmitted, LandingOk, Chained;
  }

  lemma LandingKeepsSound(c: CompiledPlan, view: Manifest, m: Manifest, w: World, l: Landing)
    requires LandingOk(c, w.approvals, l) && Chained(w.base, w.landings + [l])
    requires Sound(c, view, m, w)
    ensures Sound(c, view, m, w.(landings := w.landings + [l]))
  {
    hide LandingOk, Chained, StartOk, WorldOk, RunOk, HeldOk, Follows, StartsCounted;
    var v := w.(landings := w.landings + [l]);
    WorldOkWithLanding(c, w, l);
    RunOkGrows(c, view, w, v);
    RunOkGrows(c, m, w, v);
    HeldGrows(c, view, w, v);
  }

  // ---- small facts about gates and rejections ----

  lemma RejectionGrows(c: CompiledPlan, m: Manifest, n: Manifest, a1: seq<ApprovalRecord>, a2: seq<ApprovalRecord>,
                       f1: nat, f2: nat)
    requires RejectionOnRecord(c, m, a1, f1) && a1 <= a2 && f2 <= f1 && |n.checkpoints| == |m.checkpoints|
    ensures RejectionOnRecord(c, n, a2, f2)
  {
    hide TaskOf;
    RejectedGrows(TaskOf(c, Front(c, m)), a1, a2, f1, f2);
  }

  /** The run stops after a rejected attempt has been closed. */
  lemma StoppedIsSound(c: CompiledPlan, view: Manifest, m: Manifest, w: World, task: Task)
    requires At(c, m, task) && RejectionOnRecord(c, m, w.approvals, 0)
    requires Sound(c, view, m, w)
    ensures Sound(c, view, m.(status := RunStopped, failure := Some(RunFailure(ApprovalRejected, false))), w)
  {
    hide CompiledOk, WorkerOf, TaskOf, Sound, AttemptsOk, Shape;
    FrontFacts(c, view, m, w, task);
    StatusStepKeepsSound(c, view, m, m.(status := RunStopped, failure := Some(RunFailure(ApprovalRejected, false))), w);
  }

  /** The attempt of a task whose run was cancelled before validation. */
  function Abandoned(m: Manifest, id: string): Manifest
    requires id in m.taskStates && m.taskStates[id].attempts != []
  {
    var s := m.taskStates[id];
    WithState(m, id, WithLast(s, Closed(Last(s.attempts), RunFailure(CancelledRun, false))))
  }

  lemma AbandonedIsSound(c: CompiledPlan, view: Manifest, m: Manifest, w: World, task: Task)
    requires CompiledOk(c) && At(c, m, task) && m.taskStates[task.id].attempts != []
    requires Sound(c, view, m, w)
    ensures Sound(c, view, Abandoned(m, task.id), w)
  {
    hide Sound, CompiledOk, WorkerOf, TaskOf, AttemptsOk, Shape;
    FrontFacts(c, view, m, w, task);
    var a := Closed(Last(m.taskStates[task.id].attempts), RunFailure(CancelledRun, false));
    LastReplaced(c, task.id, m.taskStates[task.id], a);
    LastEditIsSound(c, view, m, w, task, Abandoned(m, task.id).taskStates[task.id], a);
  }

  /** The attempt numbers of the task under way are its positions. */
  lemma LastIsNumbered(c: CompiledPlan, view: Manifest, m: Manifest, w: World, task: Task)
    requires At(c, m, task) && m.taskStates[task.id].attempts != []
    requires Sound(c, view, m, w)
    ensures var attempts := m.taskStates[task.id].attempts;
            && 1 <= |attempts| <= task.Budget()
            && Last(attempts).number == |attempts|
            && Last(attempts).workerId == WorkerOf(c.plan, task, |attempts|)
  {
    hide CompiledOk, WorkerOf, TaskOf, Sound, Shape;
    FrontFacts(c, view, m, w, task);
  }

  // ---- between tasks, between processes ----

  const BROKEN := RunFailure(InternalError, false)

  /** An exception fails the run and closes nothing, so it is sound in any phase. */
  lemma FailingIsSound(c: CompiledPlan, view: Manifest, m: Manifest, w: World)
    requires Sound(c, view, m, w)
    ensures Sound(c, view, m.(status := RunFailed, failure := Some(BROKEN)), w)
  {
    hide Sound, Shape, TaskOf;
    MemoryFacts(c, view, m, w);
    StatusStepKeepsSound(c, view, m, m.(status := RunFailed, failure := Some(BROKEN)), w);
  }

  /** The run is under way again, in this process. */
  lemma StartingIsSound(c: CompiledPlan, view: Manifest, m: Manifest, w: World)
    requires |m.checkpoints| < |c.taskOrder| ==>
               Front(c, m) in m.taskStates && !m.taskStates[Front(c, m)].phase.InFlight()
    requires !m.status.Terminal()
    requires Sound(c, view, m, w)
    ensures Sound(c, view, m.(status := RunActive, failure := None), w)
  {
    hide Sound, Shape, TaskOf;
    MemoryFacts(c, view, m, w);
    StatusStepKeepsSound(c, view, m, m.(status := RunActive, failure := None), w);
  }

  lemma EndingIsSound(c: CompiledPlan, view: Manifest, m: Manifest, w: World)
    requires |m.checkpoints| == |c.taskOrder|
    requires Sound(c, view, m, w)
    ensures Sound(c, view, m.(status := RunCompleted, currentTaskId := None), w)
  {
    hide Sound, Shape, TaskOf;
    MemoryFacts(c, view, m, w);
    StatusStepKeepsSound(c, view, m, m.(status := RunCompleted, currentTaskId := None), w);
  }

  /** The front task becomes the current one. */
  lemma CurrentIsSound(c: CompiledPlan, view: Manifest, m: Manifest, w: World, task: Task)
    requires At(c, m, task)
    requires Sound(c, view, m, w)
    ensures Sound(c, view, m.(currentTaskId := Some(task.id)), w)
  {
    hide Sound, TaskOf;
    FrontFacts(c, view, m, w, task);
    StatusStepKeepsSound(c, view, m, m.(currentTaskId := Some(task.id)), w);
  }

  /** A snapshot that no longer compiles to the recorded digest stops the run where it is. */
  lemma PlanChangeIsSound(c: CompiledPlan, view: Manifest, m: Manifest, w: World)
    requires Sound(c, view, m, w)
    ensures Sound(c, view, m.(status := RunStopped, failure := Some(RunFailure(PlanChanged, false))), w)
  {
    hide Sound, Shape, TaskOf;
    MemoryFacts(c, view, m, w);
    StatusStepKeepsSound(c, view, m, m.(status := RunStopped, failure := Some(RunFailure(PlanChanged, false))), w);
  }

  /** A task in flight is the front task, and the current one. */
  lemma InFlightIsFront(c: CompiledPlan, view: Manifest, m: Manifest, w: World, id: string)
    requires id in m.taskStates && m.taskStates[id].phase.InFlight()
    requires Sound(c, view, m, w)
    ensures |m.checkpoints| < |c.taskOrder| && Front(c, m) == id
    ensures m.currentTaskId == Some(id)
  {
    hide Kept, CompiledOk, WorkerOf, TaskOf, AttemptsOk, StatusOk;
    var i :| 0 <= i < |c.taskOrder| && c.taskOrder[i] == id;
  }

  /** Facts about the front task for the run loop. */
  lemma FrontTask(c: CompiledPlan, view: Manifest, m: Manifest, w: World)
    requires |m.checkpoints| < |c.taskOrder|
    requires CompiledOk(c)
    requires Sound(c, view, m, w)
    ensures At(c, m, TaskOf(c, Front(c, m)))
    ensures FindTask(c.plan.tasks, Front(c, m)) == Some(TaskOf(c, Front(c, m)))
    ensures FrontOk(c, Front(c, m), m.taskStates[Front(c, m)], m)
  {
    hide Sound, Shape, FrontOk, StatusOk;
    MemoryFacts(c, view, m, w);
    assert Front(c, m) in c.taskOrder;
  }

  /** The completed tasks are exactly those before the front one. */
  lemma CompletedPrefix(c: CompiledPlan, view: Manifest, m: Manifest, w: World, i: nat)
    requires i < |c.taskOrder|
    requires Sound(c, view, m, w)
    ensures c.taskOrder[i] in m.taskStates
    ensures m.taskStates[c.taskOrder[i]].status == TaskCompleted <==> i < |m.checkpoints|
  {
    hide Kept, CompiledOk, WorkerOf, TaskOf, AttemptsOk, StatusOk;
  }

  /** All tasks are completed exactly when every one has its checkpoint. */
  lemma AllCompleted(c: CompiledPlan, view: Manifest, m: Manifest, w: World)
    requires Sound(c, view, m, w)
    ensures |m.checkpoints| <= |c.taskOrder| && m.taskOrder == c.taskOrder
    ensures |m.checkpoints| == |c.taskOrder| <==>
            forall id :: id in m.taskOrder ==> id in m.taskStates && m.taskStates[id].status == TaskCompleted
  {
    hide Kept, CompiledOk, WorkerOf, TaskOf, AttemptsOk, StatusOk;
    if |m.checkpoints| < |c.taskOrder| {
      CompletedPrefix(c, view, m, w, |m.checkpoints|);
      assert c.taskOrder[|m.checkpoints|] in m.taskOrder;
    }
  }

  /** Every dependency of the front task is completed. */
  lemma DependenciesAreCompleted(c: CompiledPlan, view: Manifest, m: Manifest, w: World, task: Task)
    requires CompiledOk(c) && At(c, m, task)
    requires Sound(c, view, m, w)
    ensures forall d :: d in task.Dependencies() ==> d in m.taskStates && m.taskStates[d].status == TaskCompleted
  {
    hide WorkerOf, TaskOf, AttemptsOk, StatusOk, Sound;
    forall d | d in task.Dependencies() ensures d in m.taskStates && m.taskStates[d].status == TaskCompleted {
      assert d in c.taskOrder[..|m.checkpoints|];
      var i :| 0 <= i < |m.checkpoints| && c.taskOrder[i] == d;
      CompletedPrefix(c, view, m, w, i);
    }
  }

  /** Right after its predecessor, a task is not in flight. */
  lemma NextIsQuiet(c: CompiledPlan, view: Manifest, m: Manifest, w: World, last: string)
    requires |m.checkpoints| < |c.taskOrder|
    requires m.currentTaskId == Some(last) && last != Front(c, m)
    requires Sound(c, view, m, w)
    ensures Front(c, m) in m.taskStates && !m.taskStates[Front(c, m)].phase.InFlight()
  {
    hide Sound, Shape, StatusOk;
    MemoryFacts(c, view, m, w);
  }

  /** The rejected end of a task that was waiting for its `after` gate. */
  function RejectedAfter(m: Manifest, id: string): Manifest
    requires id in m.taskStates && m.taskStates[id].attempts != []
  {
    var s := m.taskStates[id];
    var f := RunFailure(ApprovalRejected, false);
    Stepped(m, id, WithLast(s, Closed(Last(s.attempts), f)).(status := TaskFailed), RunStopped, Some(f), m.metrics)
  }

  lemma RejectedAfterIsSound(c: CompiledPlan, view: Manifest, m: Manifest, w: World, task: Task)
    requires CompiledOk(c) && At(c, m, task) && m.taskStates[task.id].attempts != []
    requires RejectionOnRecord(c, m, w.approvals, 0)
    requires Sound(c, view, m, w)
    ensures Sound(c, view, RejectedAfter(m, task.id), w)
  {
    hide Sound, CompiledOk, WorkerOf, TaskOf, AttemptsOk, Shape;
    FrontFacts(c, view, m, w, task);
    var closed := Closed(Last(m.taskStates[task.id].attempts), RunFailure(ApprovalRejected, false));
    LastReplaced(c, task.id, m.taskStates[task.id], closed);
    var n := RejectedAfter(m, task.id);
    RejectionGrows(c, m, n, w.approvals, w.approvals, 0, 0);
    StateStep(c, view, m, w, task, n.taskStates[task.id], n.status, n.failure, n.metrics);
  }

  // ---- the first manifest ----

  function FreshStates(order: seq<string>): map<string, TaskState> {
    map t | t in order :: FRESH
  }

  /** The manifest `run` writes first. */
  function Initial(c: CompiledPlan, runId: string): Manifest {
    Manifest(runId, c.digest, c.taskOrder, RunPending, None, FreshStates(c.taskOrder), [], [], [], None, false, 1,
             RunMetrics(|c.taskOrder|, 0, 0, 0, 0, 0, 0))
  }

  lemma {:induction false} NothingAttempted(order: seq<string>, states: map<string, TaskState>)
    requires forall t :: t in order ==> t in states && states[t].attempts == []
    ensures TotalAttempts(order, states) == 0
  {
    if order != [] {
      NothingAttempted(order[..|order| - 1], states);
    }
  }

  lemma InitialTasks(c: CompiledPlan, runId: string, landings: seq<Landing>)
    requires CompiledOk(c) && Shape(c, Initial(c, runId))
    ensures Tasks(c, Initial(c, runId), landings)
  {
    hide WorkerOf, TaskOf, CompiledOk, Shape;
    var m := Initial(c, runId);
    forall i | 0 <= i < |c.taskOrder|
      ensures m.taskStates[c.taskOrder[i]] == FRESH
      ensures AttemptsOk(c, c.taskOrder[i], m.taskStates[c.taskOrder[i]].attempts)
      ensures i == 0 ==> FrontOk(c, c.taskOrder[i], m.taskStates[c.taskOrder[i]], m)
    {
      assert c.taskOrder[i] in c.taskOrder;
    }
  }

  lemma InitialIsOk(c: CompiledPlan, runId: string, w: World)
    requires CompiledOk(c) && w.landings == [] && w.starts == []
    ensures RunOk(c, Initial(c, runId), w) && WorldOk(c, w)
  {
    hide WorkerOf, TaskOf, CompiledOk, Tasks;
    var m := Initial(c, runId);
    NothingAttempted(c.taskOrder, m.taskStates);
    InitialTasks(c, runId, w.landings);
  }
}
