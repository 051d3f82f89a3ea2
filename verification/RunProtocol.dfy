/**
  * What a run manifest promises, whichever process wrote it and whenever it died: the invariant
  * `RunOk` that every manifest reaching memory or disk satisfies, and the lemmas by which the
  * orchestrator's updates keep it (packages/agent-runtime/src/engine/orchestrator.ts).
  */
module RunProtocol {
  import opened Basics
  import Strings
  import opened Policy
  import opened PlanTypes
  import opened RunTypes
  import opened TaskGraph
  import opened CompiledPlans
  import opened Worktrees
  import opened Journal

  // ---- workers ----

  /** `Array.from(new Set(values))`: the first occurrence of each value, in order. */
  function Unique(values: seq<string>): (r: seq<string>)
    ensures Distinct(r)
    ensures forall v :: v in r <==> v in values
  {
    if values == [] then []
    else
      var front := Unique(values[..|values| - 1]);
      var last := values[|values| - 1];
      assert forall v :: v in values <==> v in values[..|values| - 1] || v == last;
      if last in front then front else front + [last]
  }

  /** `taskWorkerIds`: the task's own worker, the primary, then the fallbacks, without repetition. */
  function WorkerIds(plan: Plan, task: Task): (r: seq<string>)
    ensures Distinct(r) && r != []
    ensures task.worker.Some? && task.worker.value != "" ==> task.worker.value in r
    ensures plan.workerStrategy.primary in r
    ensures forall w :: w in plan.workerStrategy.fallbacks.GetOr([]) ==> w in r
  {
    var own := if task.worker.Some? && task.worker.value != "" then [task.worker.value] else [];
    var all := own + [plan.workerStrategy.primary] + plan.workerStrategy.fallbacks.GetOr([]);
    assert plan.workerStrategy.primary in all;
    Unique(all)
  }

  /** Where a value is mentioned first. */
  function Mention(values: seq<string>, v: string): (k: nat)
    requires v in values
    ensures k < |values| && values[k] == v && forall i :: 0 <= i < k ==> values[i] != v
  {
    if values[0] == v then 0 else Mention(values[1..], v) + 1
  }

  lemma SameMention(values: seq<string>, v: string, k: nat)
    requires k < |values| && values[k] == v && forall i :: 0 <= i < k ==> values[i] != v
    ensures Mention(values, v) == k
  {
  }

  lemma {:induction false} UniqueKeepsOrder(values: seq<string>)
    ensures forall i, j :: 0 <= i < j < |Unique(values)| ==>
              Mention(values, Unique(values)[i]) < Mention(values, Unique(values)[j])
  {
    if values != [] {
      var before, last := values[..|values| - 1], values[|values| - 1];
      UniqueKeepsOrder(before);
      var front := Unique(before);
      forall v | v in front ensures Mention(values, v) == Mention(before, v) < |before| {
        SameMention(values, v, Mention(before, v));
      }
      if last !in front {
        assert forall i :: 0 <= i < |before| ==> values[i] in before;
        SameMention(values, last, |before|);
      }
    }
  }

  /**
    * The order of the workers: the task's own worker comes first if it has one, the primary otherwise, and all stand
    * in the order in which own worker, primary and fallbacks mention them first.
    */
  lemma WorkersInOrder(plan: Plan, task: Task)
    ensures var own := task.worker.Some? && task.worker.value != "";
            var mentioned := (if own then [task.worker.value] else []) + [plan.workerStrategy.primary]
                             + (if plan.workerStrategy.fallbacks.Some? then plan.workerStrategy.fallbacks.value else []);
            var ids := WorkerIds(plan, task);
            && (forall w :: w in ids <==> w in mentioned)
            && ids[0] == (if own then task.worker.value else plan.workerStrategy.primary)
            && forall i, j :: 0 <= i < j < |ids| ==> Mention(mentioned, ids[i]) < Mention(mentioned, ids[j])
  {
    var mentioned := (if task.worker.Some? && task.worker.value != "" then [task.worker.value] else [])
                     + [plan.workerStrategy.primary] + plan.workerStrategy.fallbacks.GetOr([]);
    var ids := WorkerIds(plan, task);
    UniqueKeepsOrder(mentioned);
    SameMention(mentioned, mentioned[0], 0);
    var k :| 0 <= k < |ids| && ids[k] == mentioned[0];
    assert Mention(mentioned, ids[0]) >= 0;
  }

  /** The worker of attempt `number` (from 1): the list is walked round and round. */
  function WorkerOf(plan: Plan, task: Task, number: int): string
    requires number >= 1
  {
    var ids := WorkerIds(plan, task);
    ids[(number - 1) % |ids|]
  }

  // ---- validations and gates ----

  /** What a plan asks of one process result. */
  ghost predicate MeetsExpectation(v: ValidationCommand, p: ProcessResult) {
    && (match v.expectedExitCode case Some(code) => p.exitCode == code case None => p.exitCode == 0)
    && !p.timedOut && !p.cancelled && !p.truncated
    && (match v.stdoutIncludes
        case Some(text) => exists i :: 0 <= i <= |p.stdout| && text <= p.stdout[i..]
        case None => true)
    && (match v.stderrExcludes
        case Some(text) => forall i :: 0 <= i <= |p.stderr| ==> !(text <= p.stderr[i..])
        case None => true)
  }

  /** The check `runTaskValidations` makes of one process result. */
  method JudgeProcess(v: ValidationCommand, p: ProcessResult) returns (passed: bool)
    ensures passed <==> MeetsExpectation(v, p)
    ensures passed <==>
            && p.exitCode == (if v.expectedExitCode.Some? then v.expectedExitCode.value else 0)
            && !p.timedOut && !p.cancelled && !p.truncated
            && (v.stdoutIncludes.Some? ==> exists i :: 0 <= i <= |p.stdout| && v.stdoutIncludes.value <= p.stdout[i..])
            && (v.stderrExcludes.Some? ==>
                  forall i :: 0 <= i <= |p.stderr| ==> !(v.stderrExcludes.value <= p.stderr[i..]))
  {
    var expectedExitCode := v.expectedExitCode.GetOr(0);
    passed := p.exitCode == expectedExitCode && !p.timedOut && !p.cancelled && !p.truncated
              && (v.stdoutIncludes.None? || Strings.Contains(p.stdout, v.stdoutIncludes.value))
              && (v.stderrExcludes.None? || !Strings.Contains(p.stderr, v.stderrExcludes.value));
  }

  /** A report, spelled out. */
  lemma ReportsMean(task: Task, results: seq<ValidationResult>)
    requires Reported(task, results)
    ensures forall i :: 0 <= i < |results| ==>
              var v, p := task.validations[i], results[i].process;
              results[i].passed <==>
                && p.exitCode == (if v.expectedExitCode.Some? then v.expectedExitCode.value else 0)
                && !p.timedOut && !p.cancelled && !p.truncated
                && (v.stdoutIncludes.Some? ==>
                      exists k :: 0 <= k <= |p.stdout| && v.stdoutIncludes.value <= p.stdout[k..])
                && (v.stderrExcludes.Some? ==>
                      forall k :: 0 <= k <= |p.stderr| ==> !(v.stderrExcludes.value <= p.stderr[k..]))
  {
  }

  /** Results in declaration order, one per validation that ran, each judged by its own expectation. */
  ghost predicate Reported(task: Task, results: seq<ValidationResult>) {
    && |results| <= |task.validations|
    && forall i :: 0 <= i < |results| ==>
         && results[i].validationId == task.validations[i].id
         && results[i].passed == MeetsExpectation(task.validations[i], results[i].process)
  }

  /** Every declared validation ran and met its expectation. */
  ghost predicate AllPassed(task: Task, results: seq<ValidationResult>) {
    && |results| == |task.validations|
    && forall i :: 0 <= i < |results| ==>
         && results[i].validationId == task.validations[i].id
         && MeetsExpectation(task.validations[i], results[i].process)
  }

  function GatePhase(gate: Gate): ApprovalPhase {
    if gate.GateAfter? then AfterChange else BeforeChange
  }

  /** The latest record for the task's own gate among the first `count` approvals. */
  function LatestFor(task: Task, approvals: seq<ApprovalRecord>, count: nat): Option<ApprovalRecord>
    requires count <= |approvals|
  {
    LatestApproval(approvals[..count], task.id, GatePhase(task.Approval()))
  }

  /** The gate was taken up after `since` approvals, and the latest record of those then read approves. */
  predicate GateOpen(task: Task, approvals: seq<ApprovalRecord>, gate: GateReading) {
    && gate.since <= gate.consulted <= |approvals|
    && (task.Approval().NoGate?
        || LatestFor(task, approvals, gate.consulted) == Some(GateRecord(task, true)))
  }

  function GateRecord(task: Task, approved: bool): ApprovalRecord {
    ApprovalRecord(task.id, GatePhase(task.Approval()), approved)
  }

  /** Of the first `count` approvals, the latest record for the task's own gate rejects. */
  predicate RejectedAt(task: Task, approvals: seq<ApprovalRecord>, count: nat) {
    && !task.Approval().NoGate? && count <= |approvals|
    && LatestFor(task, approvals, count) == Some(GateRecord(task, false))
  }

  /** At some moment since the log had `floor` records, the task's gate read as rejected. */
  ghost predicate RejectedSince(task: Task, approvals: seq<ApprovalRecord>, floor: nat) {
    exists count :: floor <= count && RejectedAt(task, approvals, count)
  }

  /** A gate read as rejected since then exactly if it stood rejected, or a rejection of it was added. */
  lemma RejectedSinceIff(task: Task, approvals: seq<ApprovalRecord>, floor: nat)
    requires !task.Approval().NoGate? && floor <= |approvals|
    ensures RejectedSince(task, approvals, floor) <==>
            RejectedAt(task, approvals, floor) || GateRecord(task, false) in approvals[floor..]
  {
    if GateRecord(task, false) in approvals[floor..] {
      var k :| 0 <= k < |approvals| - floor && approvals[floor..][k] == GateRecord(task, false);
      assert approvals[..floor + k + 1][floor + k] == approvals[floor + k];
      assert RejectedAt(task, approvals, floor + k + 1);
    } else if RejectedSince(task, approvals, floor) {
      var count :| floor <= count && RejectedAt(task, approvals, count);
      NoRejectionAdded(task, approvals, floor, count);
    }
  }

  lemma {:induction false} NoRejectionAdded(task: Task, approvals: seq<ApprovalRecord>, floor: nat, count: nat)
    requires floor <= count && RejectedAt(task, approvals, count) && GateRecord(task, false) !in approvals[floor..]
    ensures RejectedAt(task, approvals, floor)
    decreases count
  {
    if floor < count {
      assert approvals[floor..][count - 1 - floor] == approvals[count - 1];
      OneMoreRead(task, approvals, count);
      hide LatestFor;
      NoRejectionAdded(task, approvals, floor, count - 1);
    }
  }

  /** No record for the task's own gate was added since the log had `count` records. */
  ghost predicate NoneSince(task: Task, approvals: seq<ApprovalRecord>, count: nat) {
    forall k :: count <= k < |approvals| ==>
      approvals[k].taskId != task.id || approvals[k].phase != GatePhase(task.Approval())
  }

  /** One record more: it is the latest if it is for this gate. */
  lemma OneMoreRead(task: Task, approvals: seq<ApprovalRecord>, count: nat)
    requires 0 < count <= |approvals|
    ensures LatestFor(task, approvals, count) ==
            if approvals[count - 1].taskId == task.id && approvals[count - 1].phase == GatePhase(task.Approval())
            then Some(approvals[count - 1]) else LatestFor(task, approvals, count - 1)
  {
    assert approvals[..count][..count - 1] == approvals[..count - 1];
  }

  /** A gate that nobody decides again keeps its verdict. */
  lemma {:induction false} VerdictStands(task: Task, approvals: seq<ApprovalRecord>, first: nat, later: nat)
    requires first <= later <= |approvals| && NoneSince(task, approvals[..later], first)
    ensures LatestFor(task, approvals, later) == LatestFor(task, approvals, first)
    decreases later
  {
    if first < later {
      OneMoreRead(task, approvals, later);
      assert approvals[..later][later - 1] == approvals[later - 1];
      assert NoneSince(task, approvals[..later - 1], first);
      VerdictStands(task, approvals, first, later - 1);
    }
  }

  // ---- the world a manifest is judged against ----

  /**
    * Everything durable that only grows, the operators' calls under way, and what late ones of them made the
    * persisted manifest forget.
    */
  datatype World = World(
    base: Tree,
    landings: seq<Landing>,
    starts: seq<Start>,
    approvals: seq<ApprovalRecord>,
    cancelled: bool,
    calls: seq<OperatorCall>,
    lost: Lost)

  /** HEAD moves only here: full validation, an allowed decision on exactly the staged difference, an open gate. */
  ghost predicate LandingOk(c: CompiledPlan, approvals: seq<ApprovalRecord>, l: Landing) {
    && l.taskId in c.taskOrder
    && var task := TaskOf(c, l.taskId);
       && AllPassed(task, l.validations)
       && l.decision == Decision(PolicyOf(c), task, l.attempt, l.patch)
       && l.decision.allowed
       && PathSet(l.patch.changedFiles) == Diff(l.before, l.after)
       && GateOpen(task, approvals, l.gate)
  }

  /** A worker starts on HEAD as the landings before it left it, with nothing else in the worktree. */
  ghost predicate StartOk(c: CompiledPlan, base: Tree, landings: seq<Landing>, s: Start) {
    && s.taskId in c.taskOrder
    && 1 <= s.attempt <= TaskOf(c, s.taskId).Budget()
    && s.workerId == WorkerOf(c.plan, TaskOf(c, s.taskId), s.attempt)
    && s.landed <= |landings|
    && s.index == s.working == TipTree(base, landings[..s.landed])
    && s.ignored == map[]
  }

  /**
    * The reading with which a task is taken up: of its `before` gate, if it has one, and of nothing if it has an
    * `after` gate.
    */
  ghost predicate EntryRead(task: Task, approvals: seq<ApprovalRecord>, entry: GateReading) {
    && entry.since <= entry.consulted <= |approvals|
    && (task.Approval().GateAfter? || GateOpen(task, approvals, entry))
  }

  /** A worker of a task with a `before` gate starts only with that gate read as open. */
  ghost predicate StartAdmitted(c: CompiledPlan, approvals: seq<ApprovalRecord>, s: Start) {
    EntryRead(TaskOf(c, s.taskId), approvals, s.entry)
  }

  ghost predicate WorldOk(c: CompiledPlan, w: World) {
    && Chained(w.base, w.landings)
    && (forall i :: 0 <= i < |w.landings| ==> LandingOk(c, w.approvals, w.landings[i]))
    && (forall i :: 0 <= i < |w.starts| ==> StartOk(c, w.base, w.landings, w.starts[i]))
    && (forall i :: 0 <= i < |w.starts| ==> StartAdmitted(c, w.approvals, w.starts[i]))
    && StartedOnce(w.starts)
  }

  /** No attempt's worker was started twice. */
  ghost predicate StartedOnce(starts: seq<Start>) {
    forall i, j :: 0 <= i < j < |starts| ==>
      starts[i].taskId != starts[j].taskId || starts[i].attempt != starts[j].attempt
  }

  ghost predicate Grows(w: World, v: World) {
    w.base == v.base && w.landings <= v.landings && w.starts <= v.starts && w.approvals <= v.approvals
    && (w.cancelled ==> v.cancelled) && w.lost.Within(v.lost)
  }

  /** Whatever landed or started in between was taken up after `floor` approvals were on record. */
  ghost predicate TakenUp(before: World, after: World, floor: nat) {
    && before.landings <= after.landings && before.starts <= after.starts
    && (forall i :: |before.landings| <= i < |after.landings| ==> floor <= after.landings[i].gate.since)
    && (forall i :: |before.starts| <= i < |after.starts| ==> floor <= after.starts[i].entry.since)
  }

  lemma NothingTakenUp(a: World, b: World, floor: nat)
    requires b.landings == a.landings && b.starts == a.starts
    ensures TakenUp(a, b, floor)
  {
  }

  lemma TakenUpStays(a: World, b: World, d: World, floor: nat)
    requires TakenUp(a, b, floor) && d.landings == b.landings && d.starts == b.starts
    ensures TakenUp(a, d, floor)
  {
  }

  lemma TakenUpTransitive(a: World, b: World, d: World, f1: nat, f2: nat)
    requires TakenUp(a, b, f1) && TakenUp(b, d, f2) && f1 <= f2
    ensures TakenUp(a, d, f1)
  {
    forall i | |a.landings| <= i < |d.landings| ensures f1 <= d.landings[i].gate.since {
      assert i < |b.landings| ==> d.landings[i] == b.landings[i];
    }
    forall i | |a.starts| <= i < |d.starts| ensures f1 <= d.starts[i].entry.since {
      assert i < |b.starts| ==> d.starts[i] == b.starts[i];
    }
  }

  /** No approval for the task's own gate was added since the log had `count` records. */
  ghost predicate NotApprovedSince(task: Task, approvals: seq<ApprovalRecord>, count: nat) {
    forall k :: count <= k < |approvals| ==> approvals[k] != GateRecord(task, true)
  }

  /** A rejection stands until an approval is added. */
  lemma {:induction false} RejectionStands(task: Task, approvals: seq<ApprovalRecord>, first: nat, later: nat)
    requires first <= later <= |approvals|
    requires RejectedAt(task, approvals, first) && NotApprovedSince(task, approvals, first)
    ensures RejectedAt(task, approvals, later)
    decreases later
  {
    if first < later {
      RejectionStands(task, approvals, first, later - 1);
      OneMoreRead(task, approvals, later);
      hide LatestFor;
      assert approvals[later - 1] != GateRecord(task, true);
    }
  }

  /**
    * Nothing landed for a task whose gate stood rejected from the earlier moment on, and if that is its `before`
    * gate, no worker started for it.
    */
  ghost predicate RejectionsBlock(c: CompiledPlan, earlier: World, later: World) {
    && (forall i :: |earlier.landings| <= i < |later.landings| ==>
          !StandsRejected(TaskOf(c, later.landings[i].taskId), later.approvals, |earlier.approvals|))
    && (forall i :: |earlier.starts| <= i < |later.starts| ==>
          !KeptOut(TaskOf(c, later.starts[i].taskId), later.approvals, |earlier.approvals|))
  }

  /** The task's `before` gate stands rejected. */
  ghost predicate KeptOut(task: Task, approvals: seq<ApprovalRecord>, floor: nat) {
    task.Approval().GateBefore? && StandsRejected(task, approvals, floor)
  }

  /** The gate read as rejected when the log had `floor` records, and no approval was added since. */
  ghost predicate StandsRejected(task: Task, approvals: seq<ApprovalRecord>, floor: nat) {
    RejectedAt(task, approvals, floor) && NotApprovedSince(task, approvals, floor)
  }

  lemma StoodRejected(task: Task, a1: seq<ApprovalRecord>, a2: seq<ApprovalRecord>, floor: nat)
    requires a1 <= a2 && floor <= |a1| && StandsRejected(task, a2, floor)
    ensures StandsRejected(task, a1, floor)
  {
    assert a2[..floor] == a1[..floor];
  }

  /** What landed or started by a moment stays unblocked while only approvals are added. */
  lemma BlockGrows(c: CompiledPlan, a: World, b: World, d: World)
    requires RejectionsBlock(c, a, b) && d.landings == b.landings && d.starts == b.starts
    requires |a.approvals| <= |b.approvals| && b.approvals <= d.approvals
    ensures RejectionsBlock(c, a, d)
  {
    hide TaskOf, StandsRejected;
    forall task: Task | StandsRejected(task, d.approvals, |a.approvals|)
      ensures StandsRejected(task, b.approvals, |a.approvals|)
    {
      StoodRejected(task, b.approvals, d.approvals, |a.approvals|);
    }
  }

  /** What stood rejected earlier, and still does, stood rejected in between. */
  lemma BlocksSince(c: CompiledPlan, a: World, b: World, d: World)
    requires RejectionsBlock(c, b, d) && a.landings == b.landings && a.starts == b.starts
    requires |a.approvals| <= |b.approvals| <= |d.approvals|
    ensures RejectionsBlock(c, a, d)
  {
    hide TaskOf, RejectedAt;
    forall task: Task | StandsRejected(task, d.approvals, |a.approvals|)
      ensures StandsRejected(task, d.approvals, |b.approvals|)
    {
      RejectionStands(task, d.approvals, |a.approvals|, |b.approvals|);
    }
  }

  // ---- the manifest ----

  const FRESH := TaskState(TaskPending, PhasePending, [], None)

  /** The last recorded decision for an attempt of a task. */
  function LastDecision(decisions: seq<PolicyDecision>, taskId: string, attempt: int): Option<PolicyDecision> {
    if decisions == [] then None
    else
      var last := decisions[|decisions| - 1];
      if last.taskId == taskId && last.attempt == attempt then Some(last)
      else LastDecision(decisions[..|decisions| - 1], taskId, attempt)
  }

  ghost predicate Landed(landings: seq<Landing>, taskId: string, a: Attempt, d: PolicyDecision, commit: nat) {
    exists i :: 0 <= i < |landings| && Records(landings[i], taskId, a, d, commit)
  }

  predicate Records(l: Landing, taskId: string, a: Attempt, d: PolicyDecision, commit: nat) {
    && l.taskId == taskId && l.attempt == a.number && l.validations == a.validations && l.decision == d
    && l.commit == commit && a.changedFiles == l.patch.changedFiles
  }

  /** Attempts are numbered 1, 2, ... within budget, each by its worker, and all but the last are closed. */
  ghost predicate AttemptsOk(c: CompiledPlan, taskId: string, attempts: seq<Attempt>) {
    && (attempts == [] || |attempts| <= TaskOf(c, taskId).Budget())
    && (forall k :: 0 <= k < |attempts| ==>
          && attempts[k].number == k + 1
          && attempts[k].workerId == WorkerOf(c.plan, TaskOf(c, taskId), k + 1)
          && (attempts[k].status == AttemptRunning ==> k == |attempts| - 1))
  }

  function Last<T>(xs: seq<T>): T
    requires xs != []
  {
    xs[|xs| - 1]
  }

  ghost predicate CompletedOk(decisions: seq<PolicyDecision>, landings: seq<Landing>, taskId: string, s: TaskState,
                              commit: nat) {
    && s.status == TaskCompleted && s.phase == PhaseCompleted && s.checkpoint == Some(commit)
    && s.attempts != []
    && Last(s.attempts).status == AttemptCompleted && Last(s.attempts).failure == None
    && var d := LastDecision(decisions, taskId, Last(s.attempts).number);
       d.Some? && Landed(landings, taskId, Last(s.attempts), d.value, commit)
  }

  /** The task after the completed ones: the only one that can be under way. */
  ghost predicate FrontOk(c: CompiledPlan, taskId: string, s: TaskState, m: Manifest) {
    && s.status != TaskCompleted && s.phase != PhaseCompleted && s.checkpoint == None
    && (s.phase.InFlight() ==> m.currentTaskId == Some(taskId))
    && (s.phase == AwaitingAfter ==> s.attempts != [] && TaskOf(c, taskId).Approval().GateAfter?)
    && (s.phase == AwaitingBefore ==> TaskOf(c, taskId).Approval().GateBefore?)
    && (s.attempts != [] && Last(s.attempts).status == AttemptRunning ==>
          s.phase.InFlight() || s.phase == AwaitingAfter || m.status.Terminal())
  }

  function TotalAttempts(order: seq<string>, states: map<string, TaskState>): nat
    requires forall t :: t in order ==> t in states
  {
    if order == [] then 0
    else TotalAttempts(order[..|order| - 1], states) + |states[Last(order)].attempts|
  }

  ghost predicate Shape(c: CompiledPlan, m: Manifest) {
    && m.taskOrder == c.taskOrder && m.planDigest == c.digest
    && (forall t :: t in m.taskStates <==> t in c.taskOrder)
    && |m.checkpoints| <= |c.taskOrder|
    && (forall j :: 0 <= j < |m.checkpoints| ==> m.checkpoints[j].taskId == c.taskOrder[j])
  }

  ghost predicate Tasks(c: CompiledPlan, m: Manifest, landings: seq<Landing>)
    requires Shape(c, m)
  {
    forall i :: 0 <= i < |c.taskOrder| ==>
      && AttemptsOk(c, c.taskOrder[i], m.taskStates[c.taskOrder[i]].attempts)
      && (i < |m.checkpoints| ==>
            CompletedOk(m.policyDecisions, landings, c.taskOrder[i], m.taskStates[c.taskOrder[i]], m.checkpoints[i].commit))
      && (i == |m.checkpoints| ==> FrontOk(c, c.taskOrder[i], m.taskStates[c.taskOrder[i]], m))
      && (i > |m.checkpoints| ==> m.taskStates[c.taskOrder[i]] == FRESH)
  }

  ghost predicate Accounted(c: CompiledPlan, m: Manifest)
    requires Shape(c, m)
  {
    && m.metrics.taskCount == |c.taskOrder|
    && m.metrics.completedTaskCount == |m.checkpoints|
    && m.metrics.attemptCount == TotalAttempts(c.taskOrder, m.taskStates)
  }

  /** The id of the task after the completed ones. */
  function Front(c: CompiledPlan, m: Manifest): string
    requires |m.checkpoints| < |c.taskOrder|
  {
    c.taskOrder[|m.checkpoints|]
  }

  /** The gate of the task after the completed ones read as rejected, since the log had `floor` records. */
  ghost predicate RejectionOnRecord(c: CompiledPlan, m: Manifest, approvals: seq<ApprovalRecord>, floor: nat) {
    |m.checkpoints| < |c.taskOrder| && RejectedSince(TaskOf(c, Front(c, m)), approvals, floor)
  }

  /** The task under way has used its whole attempt budget. */
  ghost predicate Spent(c: CompiledPlan, m: Manifest) {
    && |m.checkpoints| < |c.taskOrder|
    && c.taskOrder[|m.checkpoints|] in m.taskStates
    && |m.taskStates[c.taskOrder[|m.checkpoints|]].attempts| >= TaskOf(c, c.taskOrder[|m.checkpoints|]).Budget()
  }

  ghost predicate StatusOk(c: CompiledPlan, m: Manifest, w: World) {
    && (m.status == RunCompleted ==> |m.checkpoints| == |c.taskOrder|)
    && (m.status == RunCancelled || m.cancellationRequested ==> w.cancelled)
    && (m.status == RunFailed ==> m.failure.Some? && (m.failure.value.category == InternalError || Spent(c, m)))
    && (m.status == RunStopped ==>
          && m.failure.Some?
          && (m.failure.value.category == PlanChanged
              || (m.failure.value.category == ApprovalRejected && RejectionOnRecord(c, m, w.approvals, 0))))
    && (m.status == RunAwaitingApproval ==>
          |m.checkpoints| < |c.taskOrder| && !TaskOf(c, c.taskOrder[|m.checkpoints|]).Approval().NoGate?)
    && (m.currentTaskId.Some? ==> m.currentTaskId.value in c.taskOrder)
  }

  /** The invariant of every manifest, in memory or on disk. */
  ghost predicate RunOk(c: CompiledPlan, m: Manifest, w: World) {
    Shape(c, m) && Tasks(c, m, w.landings) && Accounted(c, m) && StatusOk(c, m, w)
  }

  /** Checkpoints stay, and completed tasks keep their whole record. */
  ghost predicate KeepsCompleted(a: Manifest, b: Manifest) {
    && a.checkpoints <= b.checkpoints
    && a.taskStates.Keys == b.taskStates.Keys
    && forall t :: t in a.taskStates && a.taskStates[t].status == TaskCompleted ==> b.taskStates[t] == a.taskStates[t]
  }

  /** No task has fewer attempts. */
  ghost predicate KeepsAttempts(a: Manifest, b: Manifest) {
    && a.taskStates.Keys == b.taskStates.Keys
    && forall t :: t in a.taskStates ==> |a.taskStates[t].attempts| <= |b.taskStates[t].attempts|
  }

  /** A later manifest of the same run. */
  ghost predicate Advanced(a: Manifest, b: Manifest) {
    KeepsCompleted(a, b) && KeepsAttempts(a, b)
  }

  /** A later manifest as far as nothing was lost. */
  ghost predicate Follows(lost: Lost, a: Manifest, b: Manifest) {
    (lost.checkpoints || KeepsCompleted(a, b)) && (lost.attempts || KeepsAttempts(a, b))
  }

  /** A manifest without what other processes may write: their approvals, the flag, and the numbering. */
  function Body(m: Manifest): Manifest {
    m.(approvals := [], cancellationRequested := false, nextSequence := 0)
  }

  // ---- growth and change ----

  /** A rejection that stands while a process works keeps the task from landing in it, and its workers from starting. */
  lemma RejectedTaskLandsNothing(c: CompiledPlan, earlier: World, later: World)
    requires WorldOk(c, later) && TakenUp(earlier, later, |earlier.approvals|)
    ensures RejectionsBlock(c, earlier, later)
  {
    hide TaskOf, Chained, StartOk, AllPassed, Decision, PathSet, Diff;
    var floor := |earlier.approvals|;
    forall i | |earlier.landings| <= i < |later.landings|
      ensures !StandsRejected(TaskOf(c, later.landings[i].taskId), later.approvals, floor)
    {
      assert LandingOk(c, later.approvals, later.landings[i]);
      OpenMeansNotRejected(TaskOf(c, later.landings[i].taskId), later.approvals, floor, later.landings[i].gate);
    }
    forall i | |earlier.starts| <= i < |later.starts|
      ensures !KeptOut(TaskOf(c, later.starts[i].taskId), later.approvals, floor)
    {
      assert StartAdmitted(c, later.approvals, later.starts[i]);
      if TaskOf(c, later.starts[i].taskId).Approval().GateBefore? {
        OpenMeansNotRejected(TaskOf(c, later.starts[i].taskId), later.approvals, floor, later.starts[i].entry);
      }
    }
  }

  lemma OpenMeansNotRejected(task: Task, approvals: seq<ApprovalRecord>, floor: nat, gate: GateReading)
    requires GateOpen(task, approvals, gate) && floor <= gate.since
    ensures !StandsRejected(task, approvals, floor)
  {
    if StandsRejected(task, approvals, floor) {
      RejectionStands(task, approvals, floor, gate.consulted);
    }
  }

  lemma LandedGrows(l1: seq<Landing>, l2: seq<Landing>, t: string, a: Attempt, d: PolicyDecision, commit: nat)
    requires l1 <= l2 && Landed(l1, t, a, d, commit)
    ensures Landed(l2, t, a, d, commit)
  {
    var i :| 0 <= i < |l1| && Records(l1[i], t, a, d, commit);
    assert l2[i] == l1[i];
  }

  lemma TasksGrow(c: CompiledPlan, m: Manifest, l1: seq<Landing>, l2: seq<Landing>)
    requires Shape(c, m) && Tasks(c, m, l1) && l1 <= l2
    ensures Tasks(c, m, l2)
  {
    forall i | 0 <= i < |m.checkpoints|
      ensures CompletedOk(m.policyDecisions, l2, c.taskOrder[i], m.taskStates[c.taskOrder[i]], m.checkpoints[i].commit)
    {
      var s := m.taskStates[c.taskOrder[i]];
      var d := LastDecision(m.policyDecisions, c.taskOrder[i], Last(s.attempts).number);
      LandedGrows(l1, l2, c.taskOrder[i], Last(s.attempts), d.value, m.checkpoints[i].commit);
    }
  }

  /** What holds of a manifest goes on holding while other processes and later landings add to the world. */
  lemma RunOkGrows(c: CompiledPlan, m: Manifest, w: World, v: World)
    requires RunOk(c, m, w) && Grows(w, v)
    ensures RunOk(c, m, v)
  {
    TasksGrow(c, m, w.landings, v.landings);
    if m.status == RunStopped && m.failure.value.category == ApprovalRejected {
      RejectedGrows(TaskOf(c, Front(c, m)), w.approvals, v.approvals, 0, 0);
    }
  }

  lemma GateOpenGrows(task: Task, a1: seq<ApprovalRecord>, a2: seq<ApprovalRecord>, gate: GateReading)
    requires a1 <= a2 && GateOpen(task, a1, gate)
    ensures GateOpen(task, a2, gate)
  {
    assert a2[..gate.consulted] == a1[..gate.consulted];
  }

  lemma GateOpenStays(task: Task, a1: seq<ApprovalRecord>, a2: seq<ApprovalRecord>, gate: GateReading)
    requires a1 <= a2 && gate.consulted <= |a1|
    ensures GateOpen(task, a2, gate) <==> GateOpen(task, a1, gate)
  {
    assert a2[..gate.consulted] == a1[..gate.consulted];
  }

  lemma RejectedGrows(task: Task, a1: seq<ApprovalRecord>, a2: seq<ApprovalRecord>, f1: nat, f2: nat)
    requires a1 <= a2 && f2 <= f1 && RejectedSince(task, a1, f1)
    ensures RejectedSince(task, a2, f2)
  {
    var count :| f1 <= count && RejectedAt(task, a1, count);
    assert a2[..count] == a1[..count];
    assert RejectedAt(task, a2, count);
  }

  /** Approvals and starts by this and other processes keep the world sound. */
  lemma WorldOkWithApprovals(c: CompiledPlan, w: World, approvals: seq<ApprovalRecord>, cancelled: bool,
                             calls: seq<OperatorCall>, lost: Lost)
    requires WorldOk(c, w) && w.approvals <= approvals
    ensures WorldOk(c, w.(approvals := approvals, cancelled := cancelled, calls := calls, lost := lost))
  {
    forall i | 0 <= i < |w.landings| ensures LandingOk(c, approvals, w.landings[i]) {
      GateOpenGrows(TaskOf(c, w.landings[i].taskId), w.approvals, approvals, w.landings[i].gate);
    }
    forall i | 0 <= i < |w.starts| ensures StartAdmitted(c, approvals, w.starts[i]) {
      EntryReadGrows(TaskOf(c, w.starts[i].taskId), w.approvals, approvals, w.starts[i].entry);
    }
  }

  lemma EntryReadGrows(task: Task, a1: seq<ApprovalRecord>, a2: seq<ApprovalRecord>, entry: GateReading)
    requires a1 <= a2 && EntryRead(task, a1, entry)
    ensures EntryRead(task, a2, entry)
  {
    hide GateOpen;
    if !task.Approval().GateAfter? {
      GateOpenGrows(task, a1, a2, entry);
    }
  }

  lemma WorldOkWithStart(c: CompiledPlan, w: World, s: Start)
    requires WorldOk(c, w) && StartOk(c, w.base, w.landings, s) && StartedOnce(w.starts + [s])
    requires StartAdmitted(c, w.approvals, s)
    ensures WorldOk(c, w.(starts := w.starts + [s]))
  {
    hide Chained, LandingOk, StartOk, StartAdmitted, StartedOnce;
  }

  lemma StartOkGrows(c: CompiledPlan, base: Tree, l1: seq<Landing>, l2: seq<Landing>, s: Start)
    requires StartOk(c, base, l1, s) && l1 <= l2
    ensures StartOk(c, base, l2, s)
  {
    assert l2[..s.landed] == l1[..s.landed];
  }

  lemma StartsKeep(c: CompiledPlan, w: World, longer: seq<Landing>)
    requires WorldOk(c, w) && w.landings <= longer
    ensures forall i :: 0 <= i < |w.starts| ==> StartOk(c, w.base, longer, w.starts[i])
  {
    forall i | 0 <= i < |w.starts| ensures StartOk(c, w.base, longer, w.starts[i]) {
      StartOkGrows(c, w.base, w.landings, longer, w.starts[i]);
    }
  }

  lemma LandingsKeep(c: CompiledPlan, w: World, l: Landing)
    requires WorldOk(c, w) && LandingOk(c, w.approvals, l)
    ensures forall i :: 0 <= i < |w.landings + [l]| ==> LandingOk(c, w.approvals, (w.landings + [l])[i])
  {
  }

  lemma WorldOkWithLanding(c: CompiledPlan, w: World, l: Landing)
    requires WorldOk(c, w) && LandingOk(c, w.approvals, l) && Chained(w.base, w.landings + [l])
    ensures WorldOk(c, w.(landings := w.landings + [l]))
  {
    StartsKeep(c, w, w.landings + [l]);
    LandingsKeep(c, w, l);
  }

  // ---- updates of the task under way ----

  /** Only the front task's state changes; new decisions are about it; new attempts are counted. */
  ghost predicate FrontOnly(c: CompiledPlan, m: Manifest, n: Manifest)
    requires Shape(c, m) && |m.checkpoints| < |c.taskOrder|
  {
    var id := Front(c, m);
    && id in n.taskStates
    && n.taskOrder == m.taskOrder && n.planDigest == m.planDigest
    && n.checkpoints == m.checkpoints
    && n.taskStates == m.taskStates[id := n.taskStates[id]]
    && m.policyDecisions <= n.policyDecisions
    && (forall i :: |m.policyDecisions| <= i < |n.policyDecisions| ==> n.policyDecisions[i].taskId == id)
    && n.metrics.taskCount == m.metrics.taskCount
    && n.metrics.completedTaskCount == m.metrics.completedTaskCount
    && |m.taskStates[id].attempts| <= |n.taskStates[id].attempts|
    && n.metrics.attemptCount == m.metrics.attemptCount + |n.taskStates[id].attempts| - |m.taskStates[id].attempts|
  }

  lemma {:induction false} OtherDecisionsDoNotMatter(ds: seq<PolicyDecision>, es: seq<PolicyDecision>, taskId: string,
                                                     attempt: int)
    requires ds <= es
    requires forall i :: |ds| <= i < |es| ==> es[i].taskId != taskId
    ensures LastDecision(es, taskId, attempt) == LastDecision(ds, taskId, attempt)
    decreases |es|
  {
    if |ds| < |es| {
      OtherDecisionsDoNotMatter(ds, es[..|es| - 1], taskId, attempt);
    } else {
      assert ds == es;
    }
  }

  lemma {:induction false} TotalWithOneChanged(order: seq<string>, states: map<string, TaskState>, id: string,
                                               s: TaskState)
    requires Distinct(order) && id in states
    requires forall t :: t in order ==> t in states
    ensures TotalAttempts(order, states[id := s]) ==
            TotalAttempts(order, states) + (if id in order then |s.attempts| - |states[id].attempts| else 0)
  {
    if order != [] {
      var front, last := order[..|order| - 1], Last(order);
      TotalWithOneChanged(front, states, id, s);
      assert forall i :: 0 <= i < |front| ==> front[i] != last;
      assert forall t :: t in order <==> t in front || t == last;
    }
  }

  lemma FrontOnlyKeepsShape(c: CompiledPlan, m: Manifest, n: Manifest)
    requires CompiledOk(c) && Shape(c, m) && Accounted(c, m) && |m.checkpoints| < |c.taskOrder| && FrontOnly(c, m, n)
    ensures Shape(c, n) && Accounted(c, n)
  {
    TotalWithOneChanged(c.taskOrder, m.taskStates, Front(c, m), n.taskStates[Front(c, m)]);
  }

  lemma FrontOnlyKeepsTasks(c: CompiledPlan, m: Manifest, n: Manifest, landings: seq<Landing>)
    requires CompiledOk(c) && Shape(c, m) && Shape(c, n) && Tasks(c, m, landings)
    requires |m.checkpoints| < |c.taskOrder| && FrontOnly(c, m, n)
    requires AttemptsOk(c, Front(c, m), n.taskStates[Front(c, m)].attempts)
    requires FrontOk(c, Front(c, m), n.taskStates[Front(c, m)], n)
    ensures Tasks(c, n, landings)
  {
    var k := |m.checkpoints|;
    forall i | 0 <= i < |c.taskOrder| && i != k
      ensures n.taskStates[c.taskOrder[i]] == m.taskStates[c.taskOrder[i]]
      ensures i < k ==>
                CompletedOk(n.policyDecisions, landings, c.taskOrder[i], m.taskStates[c.taskOrder[i]], m.checkpoints[i].commit)
    {
      assert c.taskOrder[i] != c.taskOrder[k];
      if i < k {
        var number := Last(m.taskStates[c.taskOrder[i]].attempts).number;
        OtherDecisionsDoNotMatter(m.policyDecisions, n.policyDecisions, c.taskOrder[i], number);
      }
    }
  }

  lemma FrontOnlyAdvances(c: CompiledPlan, m: Manifest, n: Manifest, landings: seq<Landing>)
    requires CompiledOk(c) && Shape(c, m) && Tasks(c, m, landings) && |m.checkpoints| < |c.taskOrder|
    requires FrontOnly(c, m, n)
    ensures Advanced(m, n)
  {
    var id := Front(c, m);
    assert FrontOk(c, id, m.taskStates[id], m);
  }

  /** Updating the task under way keeps the invariant when its new state and the new status are sound. */
  lemma FrontOnlyKeepsRunOk(c: CompiledPlan, m: Manifest, n: Manifest, w: World)
    requires CompiledOk(c) && RunOk(c, m, w) && |m.checkpoints| < |c.taskOrder| && FrontOnly(c, m, n)
    requires AttemptsOk(c, Front(c, m), n.taskStates[Front(c, m)].attempts)
    requires FrontOk(c, Front(c, m), n.taskStates[Front(c, m)], n)
    requires StatusOk(c, n, w)
    ensures RunOk(c, n, w) && Advanced(m, n)
  {
    FrontOnlyKeepsShape(c, m, n);
    FrontOnlyKeepsTasks(c, m, n, w.landings);
    FrontOnlyAdvances(c, m, n, w.landings);
  }

  lemma AdvancedTransitive(a: Manifest, b: Manifest, d: Manifest)
    requires Advanced(a, b) && Advanced(b, d)
    ensures Advanced(a, d)
  {
  }

  // ---- completion ----

  /** The front task is completed with a checkpoint; nothing else moves. */
  ghost predicate Completes(c: CompiledPlan, m: Manifest, n: Manifest, commit: nat)
    requires Shape(c, m) && |m.checkpoints| < |c.taskOrder|
  {
    var id := Front(c, m);
    && id in n.taskStates
    && n.taskOrder == m.taskOrder && n.planDigest == m.planDigest
    && n.checkpoints == m.checkpoints + [Checkpoint(id, commit)]
    && n.taskStates == m.taskStates[id := n.taskStates[id]]
    && n.policyDecisions == m.policyDecisions
    && n.metrics == m.metrics.(completedTaskCount := m.metrics.completedTaskCount + 1)
    && |n.taskStates[id].attempts| == |m.taskStates[id].attempts|
  }

  lemma CompletionKeepsShape(c: CompiledPlan, m: Manifest, n: Manifest, commit: nat)
    requires Shape(c, m) && |m.checkpoints| < |c.taskOrder| && Completes(c, m, n, commit)
    ensures Shape(c, n)
  {
  }

  lemma CompletionIsAccounted(c: CompiledPlan, m: Manifest, n: Manifest, commit: nat)
    requires CompiledOk(c) && Shape(c, m) && Shape(c, n) && Accounted(c, m)
    requires |m.checkpoints| < |c.taskOrder| && Completes(c, m, n, commit)
    ensures Accounted(c, n)
  {
    TotalWithOneChanged(c.taskOrder, m.taskStates, Front(c, m), n.taskStates[Front(c, m)]);
  }

  lemma FreshIsFrontOk(c: CompiledPlan, taskId: string, m: Manifest)
    ensures FrontOk(c, taskId, FRESH, m) && AttemptsOk(c, taskId, FRESH.attempts)
  {
  }

  lemma CompletionKeepsTasks(c: CompiledPlan, m: Manifest, n: Manifest, landings: seq<Landing>, commit: nat)
    requires CompiledOk(c) && Shape(c, m) && Shape(c, n) && Tasks(c, m, landings)
    requires |m.checkpoints| < |c.taskOrder| && Completes(c, m, n, commit)
    requires AttemptsOk(c, Front(c, m), n.taskStates[Front(c, m)].attempts)
    requires CompletedOk(n.policyDecisions, landings, Front(c, m), n.taskStates[Front(c, m)], commit)
    ensures Tasks(c, n, landings)
  {
    hide CompletedOk, AttemptsOk, FrontOk;
    var k := |m.checkpoints|;
    forall i | 0 <= i < |c.taskOrder| && i != k
      ensures n.taskStates[c.taskOrder[i]] == m.taskStates[c.taskOrder[i]]
    {
      assert c.taskOrder[i] != c.taskOrder[k];
    }
    if k + 1 < |c.taskOrder| {
      FreshIsFrontOk(c, c.taskOrder[k + 1], n);
    }
  }

  lemma CompletionAdvances(c: CompiledPlan, m: Manifest, n: Manifest, landings: seq<Landing>, commit: nat)
    requires Shape(c, m) && Tasks(c, m, landings) && |m.checkpoints| < |c.taskOrder| && Completes(c, m, n, commit)
    ensures Advanced(m, n)
  {
    hide CompletedOk, AttemptsOk;
    assert FrontOk(c, Front(c, m), m.taskStates[Front(c, m)], m);
  }

  /** Completing the task under way keeps the invariant when a landing backs it. */
  lemma CompletionKeepsRunOk(c: CompiledPlan, m: Manifest, n: Manifest, w: World, commit: nat)
    requires CompiledOk(c) && RunOk(c, m, w) && |m.checkpoints| < |c.taskOrder| && Completes(c, m, n, commit)
    requires AttemptsOk(c, Front(c, m), n.taskStates[Front(c, m)].attempts)
    requires CompletedOk(n.policyDecisions, w.landings, Front(c, m), n.taskStates[Front(c, m)], commit)
    requires StatusOk(c, n, w)
    ensures RunOk(c, n, w) && Advanced(m, n)
  {
    hide CompiledOk, Shape, Tasks, Accounted, StatusOk, Completes, CompletedOk, AttemptsOk, Advanced;
    CompletionKeepsShape(c, m, n, commit);
    CompletionIsAccounted(c, m, n, commit);
    CompletionKeepsTasks(c, m, n, w.landings, commit);
    CompletionAdvances(c, m, n, w.landings, commit);
  }

  /** Changing status, failure, current task or counters that are not accounted for. */
  lemma StatusChangeKeepsRunOk(c: CompiledPlan, m: Manifest, n: Manifest, w: World)
    requires RunOk(c, m, w)
    requires n.taskOrder == m.taskOrder && n.planDigest == m.planDigest && n.taskStates == m.taskStates
    requires n.checkpoints == m.checkpoints && n.policyDecisions == m.policyDecisions
    requires n.metrics.taskCount == m.metrics.taskCount && n.metrics.attemptCount == m.metrics.attemptCount
    requires n.metrics.completedTaskCount == m.metrics.completedTaskCount
    requires |m.checkpoints| < |c.taskOrder| ==> FrontOk(c, Front(c, m), n.taskStates[Front(c, m)], n)
    requires StatusOk(c, n, w)
    ensures RunOk(c, n, w) && Advanced(m, n)
  {
  }

  // ---- manifests of one run ----

  /** As many checkpoints and as many attempts, as far as none were lost. */
  predicate Level(lost: Lost, a: Manifest, b: Manifest) {
    && (lost.checkpoints || |a.checkpoints| == |b.checkpoints|)
    && (lost.attempts || a.metrics.attemptCount == b.metrics.attemptCount)
  }

  lemma {:induction false} TotalsAreOrdered(order: seq<string>, s1: map<string, TaskState>, s2: map<string, TaskState>)
    requires forall t :: t in order ==> t in s1 && t in s2 && |s1[t].attempts| <= |s2[t].attempts|
    ensures TotalAttempts(order, s1) <= TotalAttempts(order, s2)
    ensures TotalAttempts(order, s1) == TotalAttempts(order, s2) <==>
            forall t :: t in order ==> |s1[t].attempts| == |s2[t].attempts|
  {
    if order != [] {
      TotalsAreOrdered(order[..|order| - 1], s1, s2);
      assert forall t :: t in order <==> t in order[..|order| - 1] || t == Last(order);
    }
  }

  /** A later manifest of a run has no more attempts exactly if it counts as many. */
  lemma AttemptsBackIff(c: CompiledPlan, a: Manifest, b: Manifest, w: World)
    requires RunOk(c, a, w) && RunOk(c, b, w) && KeepsAttempts(a, b)
    ensures KeepsAttempts(b, a) <==> a.metrics.attemptCount == b.metrics.attemptCount
    ensures a.metrics.attemptCount <= b.metrics.attemptCount
  {
    hide StatusOk, Tasks, TotalAttempts;
    TotalsAreOrdered(c.taskOrder, a.taskStates, b.taskStates);
  }

  /** A later manifest of a run has completed no more exactly if it has as many checkpoints. */
  lemma CompletedBackIff(c: CompiledPlan, a: Manifest, b: Manifest, w: World)
    requires RunOk(c, a, w) && RunOk(c, b, w) && KeepsCompleted(a, b)
    ensures KeepsCompleted(b, a) <==> |a.checkpoints| == |b.checkpoints|
    ensures |a.checkpoints| <= |b.checkpoints|
  {
    hide RunOk;
    if |a.checkpoints| == |b.checkpoints| {
      forall t | t in b.taskStates && b.taskStates[t].status == TaskCompleted
        ensures t in a.taskStates && a.taskStates[t].status == TaskCompleted
      {
        CompletedInBoth(c, a, b, w, t);
      }
    }
  }

  lemma CompletedInBoth(c: CompiledPlan, a: Manifest, b: Manifest, w: World, id: string)
    requires RunOk(c, a, w) && RunOk(c, b, w) && |a.checkpoints| == |b.checkpoints|
    requires id in b.taskStates && b.taskStates[id].status == TaskCompleted
    ensures id in a.taskStates && a.taskStates[id].status == TaskCompleted
  {
    hide StatusOk, Accounted, AttemptsOk, LastDecision, Landed, TaskOf;
    var i :| 0 <= i < |c.taskOrder| && c.taskOrder[i] == id;
  }

  /** As far as nothing was lost, a later manifest that is level knows nothing more. */
  lemma LevelFollowsBack(c: CompiledPlan, lost: Lost, a: Manifest, b: Manifest, w: World)
    requires RunOk(c, a, w) && RunOk(c, b, w) && Follows(lost, a, b) && Level(lost, a, b)
    ensures Follows(lost, b, a)
  {
    hide RunOk, KeepsAttempts, KeepsCompleted;
    if !lost.checkpoints {
      CompletedBackIff(c, a, b, w);
    }
    if !lost.attempts {
      AttemptsBackIff(c, a, b, w);
    }
  }

  lemma FollowsTransitive(lost: Lost, a: Manifest, b: Manifest, d: Manifest)
    requires Follows(lost, a, b) && Follows(lost, b, d)
    ensures Follows(lost, a, d)
  {
  }

  lemma AdvancedFollows(lost: Lost, a: Manifest, b: Manifest)
    requires Advanced(a, b)
    ensures Follows(lost, a, b)
  {
  }

  // ---- memory, disk and the operators' copies ----

  /** Every worker start belongs to a persisted attempt. */
  ghost predicate StartsCounted(view: Manifest, starts: seq<Start>) {
    forall i :: 0 <= i < |starts| ==>
      && starts[i].taskId in view.taskStates
      && starts[i].attempt <= |view.taskStates[starts[i].taskId].attempts|
  }

  lemma StartsStayCounted(a: Manifest, b: Manifest, starts: seq<Start>)
    requires StartsCounted(a, starts) && KeepsAttempts(a, b)
    ensures StartsCounted(b, starts)
  {
  }

  /**
    * An operator's copy was the persisted manifest once: it is sound, and as far as nothing was lost it is not
    * ahead, and only a level one still has the persisted number.
    */
  ghost predicate CopyOk(c: CompiledPlan, view: Manifest, w: World, copy: Manifest) {
    && RunOk(c, copy, w) && copy.runId == view.runId
    && copy.nextSequence <= view.nextSequence
    && Follows(w.lost, copy, view)
    && (copy.nextSequence == view.nextSequence ==> Level(w.lost, copy, view))
  }

  ghost predicate HeldOk(c: CompiledPlan, view: Manifest, w: World) {
    && (w.lost.Any() ==> w.cancelled)
    && forall call :: call in w.calls ==> CopyOk(c, view, w, call.manifest)
  }

  /** What survives the executor. */
  ghost predicate Kept(c: CompiledPlan, view: Manifest, w: World) {
    && WorldOk(c, w) && RunOk(c, view, w) && HeldOk(c, view, w)
    && (w.lost.attempts || StartsCounted(view, w.starts))
  }

  /** What is kept, with an executor whose copy is sound and as far as nothing was lost never behind. */
  ghost predicate Sound(c: CompiledPlan, view: Manifest, memory: Manifest, w: World) {
    Kept(c, view, w) && RunOk(c, memory, w) && Follows(w.lost, view, memory)
  }

  lemma SoundIsKept(c: CompiledPlan, view: Manifest, memory: Manifest, w: World)
    requires Sound(c, view, memory, w)
    ensures Kept(c, view, w)
  {
  }

  lemma BodyDecidesRunOk(c: CompiledPlan, m: Manifest, n: Manifest, w: World)
    requires RunOk(c, m, w) && Body(m) == Body(n)
    requires n.cancellationRequested ==> w.cancelled
    ensures RunOk(c, n, w)
  {
    assert n == m.(approvals := n.approvals, cancellationRequested := n.cancellationRequested,
                   nextSequence := n.nextSequence);
  }

  lemma SameBody(m: Manifest, n: Manifest)
    requires Body(m) == Body(n)
    ensures Advanced(m, n) && Advanced(n, m) && Level(NOTHING_LOST, m, n)
  {
    assert n == m.(approvals := n.approvals, cancellationRequested := n.cancellationRequested,
                   nextSequence := n.nextSequence);
  }

  /** The copies stay sound while the world grows around the same persisted manifest. */
  lemma HeldGrows(c: CompiledPlan, view: Manifest, w: World, v: World)
    requires HeldOk(c, view, w) && Grows(w, v) && v.calls == w.calls && v.lost == w.lost
    ensures HeldOk(c, view, v)
  {
    hide RunOk, Follows;
    forall call | call in v.calls ensures CopyOk(c, view, v, call.manifest) {
      RunOkGrows(c, call.manifest, w, v);
    }
  }

  /** The copies stay sound when the persisted manifest moves on under a higher number. */
  lemma HeldFallsBehind(c: CompiledPlan, view: Manifest, view': Manifest, w: World)
    requires HeldOk(c, view, w) && view'.runId == view.runId
    requires view'.nextSequence > view.nextSequence
    requires Follows(w.lost, view, view')
    ensures HeldOk(c, view', w)
  {
    hide RunOk, Follows;
    forall call | call in w.calls ensures CopyOk(c, view', w, call.manifest) {
      FollowsTransitive(w.lost, call.manifest, view, view');
    }
  }

  /** An append by the executor persists its copy under the next number, or nothing; everything stays sound. */
  lemma PersistKeepsSound(c: CompiledPlan, view: Manifest, view': Manifest, memory: Manifest, memory': Manifest,
                          w: World)
    requires Sound(c, view, memory, w) && memory.runId == view.runId
    requires memory' == memory.(nextSequence := memory'.nextSequence)
    requires view' == view || view' == memory.(nextSequence := view.nextSequence + 1)
    ensures Sound(c, view', memory', w) && Follows(w.lost, view, view')
  {
    hide WorldOk, RunOk, HeldOk, StartsCounted, KeepsAttempts, KeepsCompleted;
    FlagIsRequested(c, memory, w);
    BodyDecidesRunOk(c, memory, memory', w);
    SameBody(memory, memory');
    SameBody(view, view);
    FollowsTransitive(w.lost, view, memory, memory');
    if view' != view {
      BodyDecidesRunOk(c, memory, view', w);
      SameBody(memory, view');
      FollowsTransitive(w.lost, view, memory, view');
      FollowsTransitive(w.lost, view', memory, memory');
      if !w.lost.attempts {
        StartsStayCounted(view, view', w.starts);
      }
      HeldFallsBehind(c, view, view', w);
    }
  }

  lemma FlagIsRequested(c: CompiledPlan, m: Manifest, w: World)
    requires RunOk(c, m, w)
    ensures m.cancellationRequested ==> w.cancelled
  {
  }

  /**
    * A save persists the executor's copy under the number that is already there. That is sound if the copy
    * is level with what is persisted.
    */
  lemma SaveKeepsSound(c: CompiledPlan, view: Manifest, memory: Manifest, w: World)
    requires Sound(c, view, memory, w) && memory.runId == view.runId && memory.nextSequence == view.nextSequence
    requires Level(w.lost, memory, view)
    ensures Sound(c, memory, memory, w) && Follows(w.lost, view, memory)
  {
    hide WorldOk, RunOk, StartsCounted, KeepsAttempts, KeepsCompleted;
    SameBody(memory, memory);
    forall call | call in w.calls ensures CopyOk(c, memory, w, call.manifest) {
      FollowsTransitive(w.lost, call.manifest, view, memory);
    }
    if !w.lost.attempts {
      StartsStayCounted(view, memory, w.starts);
    }
  }

  /** An update of the executor's copy at the task under way. */
  lemma FrontStepKeepsSound(c: CompiledPlan, view: Manifest, m: Manifest, n: Manifest, w: World)
    requires CompiledOk(c) && Sound(c, view, m, w) && |m.checkpoints| < |c.taskOrder| && FrontOnly(c, m, n)
    requires AttemptsOk(c, Front(c, m), n.taskStates[Front(c, m)].attempts)
    requires FrontOk(c, Front(c, m), n.taskStates[Front(c, m)], n)
    requires StatusOk(c, n, w)
    ensures Sound(c, view, n, w)
  {
    hide Kept;
    FrontOnlyKeepsRunOk(c, m, n, w);
    UpdateKeepsSound(c, view, m, n, w);
  }

  lemma UpdateKeepsSound(c: CompiledPlan, view: Manifest, m: Manifest, n: Manifest, w: World)
    requires Sound(c, view, m, w) && RunOk(c, n, w) && Advanced(m, n)
    ensures Sound(c, view, n, w)
  {
    hide Kept, RunOk, KeepsAttempts, KeepsCompleted;
    FollowsTransitive(w.lost, view, m, n);
  }

  /** Completing the task under way in the executor's copy. */
  lemma CompletionKeepsSound(c: CompiledPlan, view: Manifest, m: Manifest, n: Manifest, w: World, commit: nat)
    requires CompiledOk(c) && Sound(c, view, m, w) && |m.checkpoints| < |c.taskOrder| && Completes(c, m, n, commit)
    requires AttemptsOk(c, Front(c, m), n.taskStates[Front(c, m)].attempts)
    requires CompletedOk(n.policyDecisions, w.landings, Front(c, m), n.taskStates[Front(c, m)], commit)
    requires StatusOk(c, n, w)
    ensures Sound(c, view, n, w)
  {
    hide Kept;
    CompletionKeepsRunOk(c, m, n, w, commit);
    UpdateKeepsSound(c, view, m, n, w);
  }

  lemma StatusStepKeepsSound(c: CompiledPlan, view: Manifest, m: Manifest, n: Manifest, w: World)
    requires Sound(c, view, m, w)
    requires n.taskOrder == m.taskOrder && n.planDigest == m.planDigest && n.taskStates == m.taskStates
    requires n.checkpoints == m.checkpoints && n.policyDecisions == m.policyDecisions
    requires n.metrics.taskCount == m.metrics.taskCount && n.metrics.attemptCount == m.metrics.attemptCount
    requires n.metrics.completedTaskCount == m.metrics.completedTaskCount
    requires |m.checkpoints| < |c.taskOrder| ==> FrontOk(c, Front(c, m), n.taskStates[Front(c, m)], n)
    requires StatusOk(c, n, w)
    ensures Sound(c, view, n, w)
  {
    hide Kept;
    StatusChangeKeepsRunOk(c, m, n, w);
    UpdateKeepsSound(c, view, m, n, w);
  }
}
