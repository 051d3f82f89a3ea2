/** Run records (packages/agent-runtime/src/engine/types.ts); texts and timestamps are left out. */
module RunTypes {
  import opened Basics
  import opened PlanTypes

  datatype RunStatus =
    | RunPending | RunActive | RunAwaitingApproval | RunCompleted | RunFailed | RunStopped | RunCancelled
  {
    /** The statuses that `resume` and `cancel` leave alone. */
    predicate Terminal() {
      RunCompleted? || RunFailed? || RunStopped? || RunCancelled?
    }
  }

  datatype TaskStatus =
    | TaskPending | TaskRunning | TaskAwaitingApproval | TaskCompleted | TaskFailed | TaskCancelled

  datatype TaskPhase =
    | PhasePending | Working | AwaitingBefore | AwaitingAfter | Validating | Checkpointing | PhaseCompleted
  {
    /** The phases `recoverInterruptedTask` rolls back. */
    predicate InFlight() {
      Working? || Validating? || Checkpointing?
    }
  }

  datatype ApprovalPhase = BeforeChange | AfterChange

  datatype ApprovalRecord = ApprovalRecord(taskId: string, phase: ApprovalPhase, approved: bool)

  datatype FailureCategory =
    | WorkerUnavailable | WorkerFailed | WorkerProtocol | ValidationFailed | PolicyViolated
    | ApprovalRejected | Interrupted | PlanChanged | CancelledRun | InternalError

  datatype RunFailure = RunFailure(category: FailureCategory, retryable: bool)

  /** What one spawned validation process reported. */
  datatype ProcessResult = ProcessResult(
    exitCode: int, timedOut: bool, cancelled: bool, truncated: bool, stdout: string, stderr: string)

  datatype ValidationResult = ValidationResult(validationId: string, process: ProcessResult, passed: bool)

  datatype AttemptStatus = AttemptRunning | AttemptCompleted | AttemptFailed | AttemptCancelled

  datatype Attempt = Attempt(
    number: int,
    workerId: string,
    status: AttemptStatus,
    failure: Option<RunFailure>,
    changedFiles: seq<string>,
    patchBytes: nat,
    validations: seq<ValidationResult>)

  datatype TaskState = TaskState(
    status: TaskStatus,
    phase: TaskPhase,
    attempts: seq<Attempt>,
    checkpoint: Option<nat>)

  datatype Checkpoint = Checkpoint(taskId: string, commit: nat)

  datatype ViolationCode =
    | PathNotAllowed | PathDenied | TooManyFiles | PatchTooLarge | DependencyChangeDenied
    | BinaryChangeDenied | NoChanges

  datatype Violation = Violation(code: ViolationCode, path: Option<string>)

  datatype PolicyDecision = PolicyDecision(
    taskId: string,
    attempt: int,
    allowed: bool,
    changedFiles: seq<string>,
    patchBytes: nat,
    violations: seq<Violation>)

  datatype RunMetrics = RunMetrics(
    taskCount: nat,
    completedTaskCount: nat,
    attemptCount: nat,
    workerFailureCount: nat,
    validationFailureCount: nat,
    policyViolationCount: nat,
    approvalWaitCount: nat)

  /** The serialised manifest: the value that `manifest.json` and a prepared transaction hold. */
  datatype Manifest = Manifest(
    runId: string,
    planDigest: string,
    taskOrder: seq<string>,
    status: RunStatus,
    currentTaskId: Option<string>,
    taskStates: map<string, TaskState>,
    checkpoints: seq<Checkpoint>,
    approvals: seq<ApprovalRecord>,
    policyDecisions: seq<PolicyDecision>,
    failure: Option<RunFailure>,
    cancellationRequested: bool,
    nextSequence: nat,
    metrics: RunMetrics)

  /** What operators' late copies have made the persisted manifest forget so far. */
  datatype Lost = Lost(attempts: bool, checkpoints: bool) {
    predicate Any() {
      attempts || checkpoints
    }

    predicate Within(other: Lost) {
      (attempts ==> other.attempts) && (checkpoints ==> other.checkpoints)
    }
  }

  const NOTHING_LOST := Lost(false, false)

  /** What `cancel` or `recordApproval` writes before it journals. */
  datatype OperatorAction = Cancelling | Deciding(record: ApprovalRecord)

  /** A call of `cancel` or `recordApproval` under way: its own copy of the manifest, and whether it has acted. */
  datatype OperatorCall = OperatorCall(action: OperatorAction, manifest: Manifest, acted: bool)

  datatype EventKind =
    | RunCreatedEvent | RunStartedEvent | RunCompletedEvent | RunFailedEvent | RunStoppedEvent
    | RunCancelledEvent | RunRecoveredEvent | CancellationRequestedEvent | ApprovalRequestedEvent
    | ApprovalDecidedEvent(approved: bool) | AttemptStartedEvent | AttemptFailedEvent | TaskFailedEvent
    | TaskCompletedEvent | PolicyDecidedEvent | ValidationStartedEvent | ValidationFinishedEvent(passed: bool)
    | WorkerReportedEvent | KaizenProposedEvent | KaizenFailedEvent

  datatype RunEvent = RunEvent(
    sequence: nat, runId: string, kind: EventKind, taskId: Option<string>, workerId: Option<string>)
}
