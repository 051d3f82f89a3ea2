/** The typed shape of a Machine plan (packages/agent-runtime/src/engine/types.ts). */
module PlanTypes {
  import opened Basics

  datatype Gate = NoGate | GateBefore | GateAfter

  datatype ValidationCommand = ValidationCommand(
    id: string,
    executable: string,
    args: Option<seq<string>>,
    cwd: Option<string>,
    timeoutMs: Option<int>,
    expectedExitCode: Option<int>,
    stdoutIncludes: Option<string>,
    stderrExcludes: Option<string>)

  datatype CliWorker = CliWorker(
    id: string,
    executable: string,
    args: seq<string>,
    timeoutMs: Option<int>,
    maxOutputBytes: Option<int>)

  datatype WorkerStrategy = WorkerStrategy(primary: string, fallbacks: Option<seq<string>>)

  datatype PlanPolicy = PlanPolicy(
    allowedPaths: Option<seq<string>>,
    deniedPaths: Option<seq<string>>,
    maxChangedFiles: Option<int>,
    maxPatchBytes: Option<int>,
    allowDependencyChanges: Option<bool>,
    allowBinaryChanges: Option<bool>,
    keepWorktree: Option<bool>)

  datatype Task = Task(
    id: string,
    title: string,
    objective: string,
    dependsOn: Option<seq<string>>,
    worker: Option<string>,
    allowedPaths: Option<seq<string>>,
    deniedPaths: Option<seq<string>>,
    validations: seq<ValidationCommand>,
    maxAttempts: Option<int>,
    requireChanges: Option<bool>,
    approval: Option<Gate>,
    checkpointMessage: Option<string>)
  {
    function Dependencies(): seq<string> { dependsOn.GetOr([]) }

    function Budget(): int { maxAttempts.GetOr(3) }

    function Approval(): Gate { approval.GetOr(NoGate) }
  }

  datatype KaizenOptions = KaizenOptions(enabled: Option<bool>, minimumOccurrences: Option<int>)

  datatype Plan = Plan(
    version: int,
    id: string,
    title: string,
    description: Option<string>,
    repositoryPath: string,
    baseRef: Option<string>,
    workers: Option<seq<CliWorker>>,
    workerStrategy: WorkerStrategy,
    policy: Option<PlanPolicy>,
    tasks: seq<Task>,
    kaizen: Option<KaizenOptions>)

  /** The policy a plan without a `policy` section is evaluated under. */
  const EMPTY_POLICY := PlanPolicy(None, None, None, None, None, None, None)

  datatype CompiledPlan = CompiledPlan(plan: Plan, digest: string, taskOrder: seq<string>)
}
