/**
  * What `Kept`, which every history of a run keeps (`Runs.History`), means for the repository's promises:
  * validation, policy, approval, dependency order, retry budget, rollback and accounting.
  */
module RunTheorems {
  import opened Basics
  import opened Globs
  import opened Policy
  import opened PlanTypes
  import opened RunTypes
  import opened TaskGraph
  import opened Worktrees
  import opened Journal
  import opened CompiledPlans
  import opened RunProtocol
  import opened RunSteps

  // ---- end-to-end policy ----

  /** Some task of the plan was allowed to change the path. */
  ghost predicate InScope(c: CompiledPlan, path: string) {
    exists id :: id in c.taskOrder && Permitted(PolicyOf(c), TaskOf(c, id), NormalizePath(path))
  }

  lemma DiffTriangle(a: Tree, b: Tree, d: Tree)
    ensures Diff(a, d) <= Diff(a, b) + Diff(b, d)
    ensures |Diff(a, d)| <= |Diff(a, b)| + |Diff(b, d)|
  {
    var both := Diff(a, b) + Diff(b, d);
    assert Diff(a, d) <= both;
    SubsetIsSmaller(Diff(a, d), both);
  }

  lemma {:induction false} SubsetIsSmaller<T>(xs: set<T>, ys: set<T>)
    requires xs <= ys
    ensures |xs| <= |ys|
  {
    if xs != {} {
      var x :| x in xs;
      SubsetIsSmaller(xs - {x}, ys - {x});
    }
  }

  /** One landing changes only permitted paths, and no more of them than the plan allows. */
  lemma LandingIsWithinPolicy(c: CompiledPlan, approvals: seq<ApprovalRecord>, l: Landing)
    requires LandingOk(c, approvals, l)
    ensures forall p :: p in Diff(l.before, l.after) ==> InScope(c, p)
    ensures |Diff(l.before, l.after)| <= FileLimit(PolicyOf(c))
  {
    hide AllPassed, GateOpen, Decision, TaskOf, Diff, PathSet, Permitted;
    AllowedIffAccepted(PolicyOf(c), TaskOf(c, l.taskId), l.attempt, l.patch);
  }

  lemma {:induction false} HistoryIsWithinPolicy(c: CompiledPlan, base: Tree, approvals: seq<ApprovalRecord>,
                                                 landings: seq<Landing>)
    requires Chained(base, landings)
    requires forall i :: 0 <= i < |landings| ==> LandingOk(c, approvals, landings[i])
    ensures forall p :: p in Diff(base, TipTree(base, landings)) ==> InScope(c, p)
    ensures |Diff(base, TipTree(base, landings))| <= FileLimit(PolicyOf(c)) * |landings|
    decreases |landings|
  {
    hide LandingOk, InScope, Diff, PolicyOf;
    if landings == [] {
      NoDifference(base);
    } else {
      var front, last := landings[..|landings| - 1], landings[|landings| - 1];
      HistoryIsWithinPolicy(c, base, approvals, front);
      LandingIsWithinPolicy(c, approvals, last);
      DiffTriangle(base, TipTree(base, front), last.after);
      OneMore(FileLimit(PolicyOf(c)), |front|);
    }
  }

  lemma NoDifference(a: Tree)
    ensures Diff(a, a) == {}
  {
  }

  lemma OneMore(limit: int, count: nat)
    ensures limit * (count + 1) == limit * count + limit
  {
  }

  /**
    * A path is allowed by the plan, by one of its tasks, and by no denied list. It is not below a protected directory,
    * and a dependency file, at any depth, needs the plan's permission.
    */
  ghost predicate InPolicy(c: CompiledPlan, p: string) {
    && !Protected(NormalizePath(p))
    && (DependencyFile(NormalizePath(p)) ==> PolicyOf(c).allowDependencyChanges == Some(true))
    && MatchesAnyGlob(NormalizePath(p), PlanAllowed(PolicyOf(c)))
    && !MatchesAnyGlob(NormalizePath(p), DEFAULT_DENIED_PATHS)
    && !MatchesAnyGlob(NormalizePath(p), PolicyOf(c).deniedPaths.GetOr([]))
    && InScope(c, p)
  }

  /** Every path at which the trees differ is in policy. */
  ghost predicate WithinPolicy(c: CompiledPlan, base: Tree, head: Tree) {
    forall p :: Differ(base, head, p) ==> InPolicy(c, p)
  }

  /**
    * End-to-end policy. Whatever failed, crashed or was resumed, every path at which HEAD differs from
    * the base commit was permitted by the plan and by one of its tasks, and there are at most
    * `maxChangedFiles` of them for each passage through the checkpoint step.
    */
  lemma HeadIsWithinPolicy(c: CompiledPlan, view: Manifest, w: World)
    requires Kept(c, view, w)
    ensures WithinPolicy(c, w.base, TipTree(w.base, w.landings))
    ensures |Diff(w.base, TipTree(w.base, w.landings))| <= FileLimit(PolicyOf(c)) * |w.landings|
  {
    hide LandingOk, StartOk, RunOk, Chained, Diff, MatchesAnyGlob, TaskOf, PolicyOf, InScope, Differ;
    hide Protected, DependencyFile;
    HistoryIsWithinPolicy(c, w.base, w.approvals, w.landings);
    DiffMeans(w.base, TipTree(w.base, w.landings));
    forall p | p in Diff(w.base, TipTree(w.base, w.landings)) ensures InPolicy(c, p) {
      ScopeMeans(c, p);
    }
  }

  lemma ScopeMeans(c: CompiledPlan, p: string)
    requires InScope(c, p)
    ensures InPolicy(c, p)
  {
    hide MatchesAnyGlob, TaskOf, PolicyOf, Protected, DependencyFile;
    var id :| id in c.taskOrder && Permitted(PolicyOf(c), TaskOf(c, id), NormalizePath(p));
    PermittedMeans(PolicyOf(c), TaskOf(c, id), p);
  }

  /**
    * Without crash or exception there is one landing for each checkpoint, which bounds the changed files by
    * checkpoints.
    */
  lemma ChangedFilesPerCheckpoint(c: CompiledPlan, view: Manifest, w: World)
    requires Kept(c, view, w) && |w.landings| == |view.checkpoints|
    ensures |Diff(w.base, TipTree(w.base, w.landings))| <= FileLimit(PolicyOf(c)) * |view.checkpoints|
  {
    hide Kept, Diff, PolicyOf, MatchesAnyGlob, InScope;
    HeadIsWithinPolicy(c, view, w);
  }

  /**
    * With crashes and exceptions: every executor process leaves at most one landing without a checkpoint
    * (`Runs.History`), so the changed files are bounded by checkpoints and processes together.
    */
  lemma ChangedFilesPerProcess(c: CompiledPlan, view: Manifest, w: World, processes: nat)
    requires Kept(c, view, w) && |w.landings| <= |view.checkpoints| + processes && FileLimit(PolicyOf(c)) >= 0
    ensures |Diff(w.base, TipTree(w.base, w.landings))| <= FileLimit(PolicyOf(c)) * (|view.checkpoints| + processes)
  {
    hide Kept, Diff, PolicyOf, MatchesAnyGlob, InScope;
    HeadIsWithinPolicy(c, view, w);
    MoreOfTheSame(FileLimit(PolicyOf(c)), |w.landings|, |view.checkpoints| + processes);
  }

  lemma MoreOfTheSame(limit: int, few: nat, many: nat)
    requires limit >= 0 && few <= many
    ensures limit * few <= limit * many
  {
  }

  // ---- attempt isolation ----

  /**
    * A worker never sees another attempt's leftovers: index and working files are the tree the earlier
    * landings made, with no ignored files, so whatever differs from the base was validated and permitted. It starts
    * for a task with a `before` gate only with that gate read as open.
    */
  lemma WorkersStartOnLandedWork(c: CompiledPlan, view: Manifest, w: World, i: nat)
    requires Kept(c, view, w) && i < |w.starts|
    ensures var s := w.starts[i];
            && s.landed <= |w.landings|
            && s.index == s.working == TipTree(w.base, w.landings[..s.landed]) && s.ignored == map[]
            && (forall p :: p in Diff(w.base, s.working) ==> InScope(c, p))
            && (TaskOf(c, s.taskId).approval == Some(GateBefore) ==>
                  && s.entry.since <= s.entry.consulted <= |w.approvals|
                  && LatestApproval(w.approvals[..s.entry.consulted], s.taskId, BeforeChange) ==
                     Some(ApprovalRecord(s.taskId, BeforeChange, true)))
  {
    hide LandingOk, RunOk, Diff, InScope, WorkerOf;
    TaskHasItsId(c, w.starts[i].taskId);
    var s := w.starts[i];
    assert StartOk(c, w.base, w.landings, s) && StartAdmitted(c, w.approvals, s);
    PrefixIsChained(w.base, w.landings, s.landed);
    HistoryIsWithinPolicy(c, w.base, w.approvals, w.landings[..s.landed]);
  }

  lemma {:induction false} PrefixIsChained(base: Tree, landings: seq<Landing>, k: nat)
    requires Chained(base, landings) && k <= |landings|
    ensures Chained(base, landings[..k])
    decreases |landings|
  {
    if k == |landings| {
      assert landings[..k] == landings;
    } else {
      var front := landings[..|landings| - 1];
      PrefixIsChained(base, front, k);
      assert front[..k] == landings[..k];
    }
  }

  // ---- completion gate, order and dependencies ----

  /** The evidence behind a completed task. */
  ghost predicate Earned(c: CompiledPlan, w: World, id: string, s: TaskState, l: Landing) {
    && l in w.landings && l.taskId == id && s.checkpoint == Some(l.commit)
    && s.attempts != []
    && l.attempt == Last(s.attempts).number && l.validations == Last(s.attempts).validations
    && AllPassed(TaskOf(c, id), Last(s.attempts).validations)
    && l.decision == Decision(PolicyOf(c), TaskOf(c, id), l.attempt, l.patch) && l.decision.allowed
    && PathSet(l.patch.changedFiles) == Diff(l.before, l.after)
    && GateOpen(TaskOf(c, id), w.approvals, l.gate)
  }

  lemma TaskHasItsId(c: CompiledPlan, id: string)
    ensures TaskOf(c, id).id == id
  {
  }

  /** An open gate was read as approved. */
  lemma OpenGateMeans(c: CompiledPlan, id: string, approvals: seq<ApprovalRecord>, gate: GateReading)
    requires GateOpen(TaskOf(c, id), approvals, gate)
    ensures forall g :: TaskOf(c, id).approval == Some(g) && !g.NoGate? ==>
              var phase := if g.GateAfter? then AfterChange else BeforeChange;
              && gate.since <= gate.consulted <= |approvals|
              && LatestApproval(approvals[..gate.consulted], id, phase) == Some(ApprovalRecord(id, phase, true))
  {
    hide LatestApproval;
    TaskHasItsId(c, id);
  }

  /** What it means that all declared validations passed. */
  lemma PassesMean(task: Task, results: seq<ValidationResult>)
    requires AllPassed(task, results)
    ensures |results| == |task.validations|
    ensures forall i :: 0 <= i < |results| ==>
              var v, p := task.validations[i], results[i].process;
              && results[i].validationId == v.id
              && p.exitCode == (if v.expectedExitCode.Some? then v.expectedExitCode.value else 0)
              && !p.timedOut && !p.cancelled && !p.truncated
              && (v.stdoutIncludes.Some? ==>
                    exists k :: 0 <= k <= |p.stdout| && v.stdoutIncludes.value <= p.stdout[k..])
              && (v.stderrExcludes.Some? ==>
                    forall k :: 0 <= k <= |p.stderr| ==> !(v.stderrExcludes.value <= p.stderr[k..]))
  {
  }

  /**
    * Completion gate. A task is recorded as completed only if its last attempt ran every declared validation, each
    * as its plan expects, the last recorded decision for that attempt allowed exactly the change that moved HEAD, and
    * a required gate read as approved when it was consulted.
    */
  lemma CompletedTasksAreEarned(c: CompiledPlan, view: Manifest, w: World, id: string) returns (l: Landing)
    requires Kept(c, view, w) && id in view.taskStates && view.taskStates[id].status == TaskCompleted
    ensures Earned(c, w, id, view.taskStates[id], l)
    ensures LastDecision(view.policyDecisions, id, l.attempt) == Some(l.decision)
    ensures forall gate :: TaskOf(c, id).approval == Some(gate) && !gate.NoGate? ==>
              var phase := if gate.GateAfter? then AfterChange else BeforeChange;
              && l.gate.since <= l.gate.consulted <= |w.approvals|
              && LatestApproval(w.approvals[..l.gate.consulted], id, phase) == Some(ApprovalRecord(id, phase, true))
    ensures |l.validations| == |TaskOf(c, id).validations|
    ensures forall i :: 0 <= i < |l.validations| ==>
              var v, p := TaskOf(c, id).validations[i], l.validations[i].process;
              && l.validations[i].validationId == v.id
              && p.exitCode == (if v.expectedExitCode.Some? then v.expectedExitCode.value else 0)
              && !p.timedOut && !p.cancelled && !p.truncated
              && (v.stdoutIncludes.Some? ==>
                    exists k :: 0 <= k <= |p.stdout| && v.stdoutIncludes.value <= p.stdout[k..])
              && (v.stderrExcludes.Some? ==>
                    forall k :: 0 <= k <= |p.stderr| ==> !(v.stderrExcludes.value <= p.stderr[k..]))
  {
    hide AllPassed, GateOpen, Decision, TaskOf, PathSet, Diff, StartOk, Chained, StatusOk, AttemptsOk, LastDecision;
    var i :| 0 <= i < |c.taskOrder| && c.taskOrder[i] == id;
    assert i < |view.checkpoints|;
    var s := view.taskStates[id];
    var d := LastDecision(view.policyDecisions, id, Last(s.attempts).number);
    var k :| 0 <= k < |w.landings| && Records(w.landings[k], id, Last(s.attempts), d.value, view.checkpoints[i].commit);
    l := w.landings[k];
    assert LandingOk(c, w.approvals, l);
    PassesMean(TaskOf(c, id), l.validations);
    OpenGateMeans(c, id, w.approvals, l.gate);
  }

  /** A completed task that requires changes moved HEAD: its landing made a new commit with a different tree. */
  lemma RequiredChangesMoveHead(c: CompiledPlan, view: Manifest, w: World, id: string) returns (l: Landing)
    requires Kept(c, view, w) && id in view.taskStates && view.taskStates[id].status == TaskCompleted
    requires TaskOf(c, id).requireChanges.GetOr(true)
    ensures Earned(c, w, id, view.taskStates[id], l) && Diff(l.before, l.after) != {} && l.before != l.after
  {
    hide Kept, AllPassed, GateOpen, Decision, TaskOf, PathSet, Diff;
    l := CompletedTasksAreEarned(c, view, w, id);
    AllowedIffAccepted(PolicyOf(c), TaskOf(c, id), l.attempt, l.patch);
    NoDifference(l.before);
  }

  /** The completed tasks are a prefix of the order, with one checkpoint each, in order. */
  lemma CompletedTasksAreAPrefix(c: CompiledPlan, view: Manifest, w: World)
    requires CompiledOk(c) && Kept(c, view, w)
    ensures |view.checkpoints| <= |c.taskOrder|
    ensures forall i :: 0 <= i < |c.taskOrder| ==>
              && c.taskOrder[i] in view.taskStates
              && (view.taskStates[c.taskOrder[i]].status == TaskCompleted <==> i < |view.checkpoints|)
              && (i < |view.checkpoints| ==>
                    && view.checkpoints[i].taskId == c.taskOrder[i]
                    && view.taskStates[c.taskOrder[i]].checkpoint == Some(view.checkpoints[i].commit))
    ensures view.status == RunCompleted ==> forall id :: id in c.taskOrder ==> view.taskStates[id].status == TaskCompleted
  {
    hide CompiledOk, AttemptsOk, WorldOk, LastDecision, Landed, TaskOf;
    forall i | 0 <= i < |c.taskOrder|
      ensures c.taskOrder[i] in view.taskStates
      ensures view.taskStates[c.taskOrder[i]].status == TaskCompleted <==> i < |view.checkpoints|
      ensures i < |view.checkpoints| ==> view.taskStates[c.taskOrder[i]].checkpoint == Some(view.checkpoints[i].commit)
    {
      assert c.taskOrder[i] in c.taskOrder;
    }
  }

  lemma TriedMeansReached(c: CompiledPlan, view: Manifest, w: World, i: nat)
    requires Kept(c, view, w) && i < |c.taskOrder| && c.taskOrder[i] in view.taskStates
    requires view.taskStates[c.taskOrder[i]].attempts != []
    ensures i <= |view.checkpoints|
  {
    hide AttemptsOk, WorldOk, CompletedOk, TaskOf, StatusOk, FrontOk;
  }

  /** A task that has had an attempt has all its dependencies completed. */
  lemma AttemptsFollowDependencies(c: CompiledPlan, view: Manifest, w: World, id: string, dependency: string)
    requires CompiledOk(c) && Kept(c, view, w) && id in view.taskStates
    requires view.taskStates[id].attempts != []
    requires TaskOf(c, id).dependsOn.Some? && dependency in TaskOf(c, id).dependsOn.value
    ensures dependency in view.taskStates && view.taskStates[dependency].status == TaskCompleted
  {
    hide AttemptsOk, WorldOk, CompletedOk, TaskOf, StatusOk, FrontOk;
    var i :| 0 <= i < |c.taskOrder| && c.taskOrder[i] == id;
    TriedMeansReached(c, view, w, i);
    assert dependency in c.taskOrder[..i];
    var j :| 0 <= j < i && c.taskOrder[j] == dependency;
    CompletedTasksAreAPrefix(c, view, w);
  }

  // ---- attempts, workers and budget ----

  /**
    * Attempt k is numbered k and made by worker (k - 1) mod n, the first one by the task's own worker or else the
    * primary, and there are never more than the budget.
    */
  lemma AttemptsKeepToTheBudget(c: CompiledPlan, view: Manifest, w: World, id: string, k: nat)
    requires Kept(c, view, w) && id in view.taskStates && k < |view.taskStates[id].attempts|
    ensures |view.taskStates[id].attempts| <= TaskOf(c, id).Budget()
    ensures var a, ids := view.taskStates[id].attempts[k], WorkerIds(c.plan, TaskOf(c, id));
            a.number == k + 1 && a.workerId == ids[k % |ids|]
    ensures var task := TaskOf(c, id);
            && |view.taskStates[id].attempts| <= (if task.maxAttempts.Some? then task.maxAttempts.value else 3)
            && view.taskStates[id].attempts[0].workerId ==
               if task.worker.Some? && task.worker.value != "" then task.worker.value else c.plan.workerStrategy.primary
  {
    hide WorldOk, CompletedOk, TaskOf, StatusOk, FrontOk, WorkerIds;
    WorkersInOrder(c.plan, TaskOf(c, id));
    WithinOneRound(0, |WorkerIds(c.plan, TaskOf(c, id))|);
    var i :| 0 <= i < |c.taskOrder| && c.taskOrder[i] == id;
    assert AttemptsOk(c, id, view.taskStates[id].attempts);
  }

  /** Failover: n attempts reach each of the n workers. */
  lemma EveryWorkerIsTried(c: CompiledPlan, view: Manifest, w: World, id: string, worker: string)
    requires Kept(c, view, w) && id in view.taskStates
    requires worker in WorkerIds(c.plan, TaskOf(c, id))
    requires |WorkerIds(c.plan, TaskOf(c, id))| <= |view.taskStates[id].attempts|
    ensures exists a :: a in view.taskStates[id].attempts && a.workerId == worker
  {
    hide Kept, WorkerIds, TaskOf;
    var ids := WorkerIds(c.plan, TaskOf(c, id));
    var k :| 0 <= k < |ids| && ids[k] == worker;
    AttemptsKeepToTheBudget(c, view, w, id, k);
    WithinOneRound(k, |ids|);
    var a := view.taskStates[id].attempts[k];
    assert a in view.taskStates[id].attempts && a.workerId == worker;
  }

  lemma WithinOneRound(k: nat, n: nat)
    requires k < n
    ensures k % n == k
  {
  }

  /**
    * A run fails only by an exception, or with a task's whole budget spent; then every worker the budget
    * has room for was tried.
    */
  lemma FailedRunsTriedEveryWorker(c: CompiledPlan, view: Manifest, w: World) returns (id: string)
    requires CompiledOk(c) && Kept(c, view, w)
    requires view.status == RunFailed && view.failure.Some? && view.failure.value.category != InternalError
    ensures id in c.taskOrder && id in view.taskStates && view.taskStates[id].status != TaskCompleted
    ensures view.taskStates[id].attempts != [] ==> |view.taskStates[id].attempts| == TaskOf(c, id).Budget()
    ensures |view.taskStates[id].attempts| >= TaskOf(c, id).Budget()
    ensures |WorkerIds(c.plan, TaskOf(c, id))| <= TaskOf(c, id).Budget() ==>
              forall worker :: worker in WorkerIds(c.plan, TaskOf(c, id)) ==>
                exists a :: a in view.taskStates[id].attempts && a.workerId == worker
  {
    hide WorldOk, CompletedOk, TaskOf, WorkerIds, WorkerOf;
    id := c.taskOrder[|view.checkpoints|];
    assert AttemptsOk(c, id, view.taskStates[id].attempts);
    assert FrontOk(c, id, view.taskStates[id], view);
    if |WorkerIds(c.plan, TaskOf(c, id))| <= TaskOf(c, id).Budget() {
      forall worker | worker in WorkerIds(c.plan, TaskOf(c, id))
        ensures exists a :: a in view.taskStates[id].attempts && a.workerId == worker
      {
        EveryWorkerIsTried(c, view, w, id, worker);
      }
    }
  }

  // ---- how often workers run ----

  function Sum(order: seq<string>, counts: map<string, nat>): nat
    requires forall t :: t in order ==> t in counts
  {
    if order == [] then 0 else Sum(order[..|order| - 1], counts) + counts[Last(order)]
  }

  /** The attempt numbers of each task up to its count, as pairs. */
  ghost function Slots(order: seq<string>, counts: map<string, nat>): set<(string, int)>
    requires forall t :: t in order ==> t in counts
  {
    if order == [] then {}
    else Slots(order[..|order| - 1], counts) + Numbers(Last(order), counts[Last(order)])
  }

  ghost function Numbers(id: string, count: nat): set<(string, int)> {
    if count == 0 then {} else Numbers(id, count - 1) + {(id, count)}
  }

  lemma {:induction false} NumbersAreCounted(id: string, count: nat)
    ensures |Numbers(id, count)| == count
    ensures forall p :: p in Numbers(id, count) <==> p.0 == id && 1 <= p.1 <= count
  {
    if count > 0 {
      NumbersAreCounted(id, count - 1);
    }
  }

  lemma {:induction false} SlotsAreCounted(order: seq<string>, counts: map<string, nat>)
    requires forall t :: t in order ==> t in counts
    ensures |Slots(order, counts)| <= Sum(order, counts)
    ensures forall p :: p in Slots(order, counts) <==> p.0 in order && 1 <= p.1 <= counts[p.0]
  {
    if order != [] {
      var front, last := order[..|order| - 1], Last(order);
      SlotsAreCounted(front, counts);
      NumbersAreCounted(last, counts[last]);
      assert forall t :: t in order <==> t in front || t == last;
    }
  }

  function SlotOf(s: Start): (string, int) {
    (s.taskId, s.attempt)
  }

  ghost function StartedSlots(starts: seq<Start>): set<(string, int)> {
    if starts == [] then {} else StartedSlots(starts[..|starts| - 1]) + {SlotOf(Last(starts))}
  }

  ghost predicate Started(starts: seq<Start>, p: (string, int)) {
    exists i :: 0 <= i < |starts| && SlotOf(starts[i]) == p
  }

  lemma StartedGrows(front: seq<Start>, last: Start, p: (string, int))
    ensures Started(front + [last], p) <==> Started(front, p) || p == SlotOf(last)
  {
    var all := front + [last];
    assert all[|front|] == last;
    if Started(front, p) {
      var i :| 0 <= i < |front| && SlotOf(front[i]) == p;
      assert SlotOf(all[i]) == p;
    }
  }

  lemma {:induction false} DistinctStartsCount(starts: seq<Start>)
    requires StartedOnce(starts)
    ensures |StartedSlots(starts)| == |starts|
    ensures forall p :: p in StartedSlots(starts) <==> Started(starts, p)
  {
    if starts != [] {
      var front, last := starts[..|starts| - 1], Last(starts);
      DistinctStartsCount(front);
      assert !Started(front, SlotOf(last));
      hide Started;
      assert starts == front + [last];
      forall p ensures p in StartedSlots(starts) <==> Started(starts, p) {
        StartedGrows(front, last, p);
      }
    }
  }

  /** Starts that never repeat an attempt are no more than the attempts they can belong to. */
  lemma StartsFit(starts: seq<Start>, order: seq<string>, counts: map<string, nat>)
    requires StartedOnce(starts)
    requires forall t :: t in order ==> t in counts
    requires forall i :: 0 <= i < |starts| ==>
               starts[i].taskId in order && 1 <= starts[i].attempt <= counts[starts[i].taskId]
    ensures |starts| <= Sum(order, counts)
  {
    hide Slots, Sum, StartedSlots;
    DistinctStartsCount(starts);
    SlotsAreCounted(order, counts);
    forall p | p in StartedSlots(starts) ensures p in Slots(order, counts) {
      assert Started(starts, p);
      var i :| 0 <= i < |starts| && SlotOf(starts[i]) == p;
    }
    SubsetIsSmaller(StartedSlots(starts), Slots(order, counts));
  }

  function BudgetOf(c: CompiledPlan, id: string): nat {
    var budget := TaskOf(c, id).Budget();
    if budget > 0 then budget else 0
  }

  function Budgets(c: CompiledPlan): map<string, nat> {
    map t | t in c.taskOrder :: BudgetOf(c, t)
  }

  function Attempts(states: map<string, TaskState>): map<string, nat> {
    map t | t in states :: |states[t].attempts|
  }

  lemma {:induction false} AttemptsAreSummed(order: seq<string>, states: map<string, TaskState>)
    requires forall t :: t in order ==> t in states
    ensures Sum(order, Attempts(states)) == TotalAttempts(order, states)
  {
    if order != [] {
      AttemptsAreSummed(order[..|order| - 1], states);
    }
  }

  lemma {:induction false} SumsAreOrdered(order: seq<string>, few: map<string, nat>, many: map<string, nat>)
    requires forall t :: t in order ==> t in few && t in many && few[t] <= many[t]
    ensures Sum(order, few) <= Sum(order, many)
  {
    if order != [] {
      SumsAreOrdered(order[..|order| - 1], few, many);
    }
  }

  lemma StartsHaveSlots(c: CompiledPlan, view: Manifest, w: World)
    requires Kept(c, view, w)
    ensures StartedOnce(w.starts)
    ensures forall i :: 0 <= i < |w.starts| ==>
              var s := w.starts[i];
              s.taskId in c.taskOrder && 1 <= s.attempt <= BudgetOf(c, s.taskId)
    ensures !w.lost.attempts ==> StartsCounted(view, w.starts)
  {
    hide RunOk, HeldOk, TaskOf, WorkerOf, LandingOk, Chained;
    forall i | 0 <= i < |w.starts|
      ensures w.starts[i].taskId in c.taskOrder && 1 <= w.starts[i].attempt <= BudgetOf(c, w.starts[i].taskId)
    {
      assert StartOk(c, w.base, w.landings, w.starts[i]);
    }
  }

  lemma AttemptsAreBudgeted(c: CompiledPlan, view: Manifest, w: World)
    requires Kept(c, view, w)
    ensures forall t :: t in c.taskOrder <==> t in view.taskStates
    ensures forall t :: t in c.taskOrder ==> |view.taskStates[t].attempts| <= BudgetOf(c, t)
    ensures view.metrics.attemptCount == TotalAttempts(c.taskOrder, view.taskStates)
  {
    hide StatusOk, CompletedOk, FrontOk, HeldOk, TaskOf, WorldOk, WorkerOf;
    forall t | t in c.taskOrder ensures |view.taskStates[t].attempts| <= BudgetOf(c, t) {
      var i :| 0 <= i < |c.taskOrder| && c.taskOrder[i] == t;
      assert AttemptsOk(c, t, view.taskStates[t].attempts);
    }
  }

  /**
    * However often a run crashes and is resumed, and whatever operators' late copies put back, no attempt's
    * worker is started twice and the budgets bound the starts; and unless a late copy forgot some, every start
    * belongs to a recorded attempt.
    */
  lemma WorkerStartsAreBounded(c: CompiledPlan, view: Manifest, w: World)
    requires Kept(c, view, w)
    ensures forall i, j :: 0 <= i < j < |w.starts| ==> SlotOf(w.starts[i]) != SlotOf(w.starts[j])
    ensures |w.starts| <= Sum(c.taskOrder, Budgets(c))
    ensures view.metrics.attemptCount <= Sum(c.taskOrder, Budgets(c))
    ensures !w.lost.attempts ==> |w.starts| <= view.metrics.attemptCount
  {
    hide Kept, Sum, BudgetOf;
    StartsHaveSlots(c, view, w);
    AttemptsAreBudgeted(c, view, w);
    StartsFit(w.starts, c.taskOrder, Budgets(c));
    AttemptsAreSummed(c.taskOrder, view.taskStates);
    SumsAreOrdered(c.taskOrder, Attempts(view.taskStates), Budgets(c));
    if !w.lost.attempts {
      StartsFit(w.starts, c.taskOrder, Attempts(view.taskStates));
    }
    forall i, j | 0 <= i < j < |w.starts| ensures SlotOf(w.starts[i]) != SlotOf(w.starts[j]) {}
  }

  // ---- accounting ----

  function CompletedIds(order: seq<string>, states: map<string, TaskState>): nat
    requires forall t :: t in order ==> t in states
  {
    if order == [] then 0
    else CompletedIds(order[..|order| - 1], states) + (if states[Last(order)].status == TaskCompleted then 1 else 0)
  }

  lemma {:induction false} PrefixCounts(order: seq<string>, states: map<string, TaskState>, k: nat)
    requires forall t :: t in order ==> t in states
    requires forall i :: 0 <= i < |order| ==> (states[order[i]].status == TaskCompleted <==> i < k)
    ensures CompletedIds(order, states) == if k <= |order| then k else |order|
  {
    if order != [] {
      PrefixCounts(order[..|order| - 1], states, k);
    }
  }

  /** In every persisted manifest the counters are the true totals. */
  lemma CountersAreTotals(c: CompiledPlan, view: Manifest, w: World)
    requires CompiledOk(c) && Kept(c, view, w)
    ensures forall t :: t in c.taskOrder ==> t in view.taskStates
    ensures view.metrics.taskCount == |c.taskOrder|
    ensures view.metrics.attemptCount == TotalAttempts(c.taskOrder, view.taskStates)
    ensures view.metrics.completedTaskCount == |view.checkpoints| == CompletedIds(c.taskOrder, view.taskStates)
  {
    hide CompiledOk, WorldOk, Tasks, StatusOk;
    CompletedTasksAreAPrefix(c, view, w);
    PrefixCounts(c.taskOrder, view.taskStates, |view.checkpoints|);
  }

  // ---- why a run ended ----

  /**
    * A cancelled run was asked to cancel, and so was one that lost anything to a late copy; a stopped one met a
    * changed plan or a rejection of the very gate of the task it stopped at; a waiting one stands before a task
    * with a gate.
    */
  lemma EndsHaveCauses(c: CompiledPlan, view: Manifest, w: World)
    requires Kept(c, view, w)
    ensures view.status == RunCancelled || w.lost.Any() ==> w.cancelled
    ensures view.status == RunStopped && view.failure.Some? && view.failure.value.category != PlanChanged ==>
              && |view.checkpoints| < |c.taskOrder|
              && var task := TaskOf(c, Front(c, view));
                 !task.Approval().NoGate? && GateRecord(task, false) in w.approvals
    ensures view.status == RunAwaitingApproval ==>
              |view.checkpoints| < |c.taskOrder| && !TaskOf(c, Front(c, view)).Approval().NoGate?
  {
    hide WorldOk, Tasks, TaskOf, Accounted, LatestFor;
    if view.status == RunStopped && view.failure.value.category != PlanChanged {
      var task := TaskOf(c, Front(c, view));
      var count :| 0 <= count && RejectedAt(task, w.approvals, count);
      RejectedSinceIff(task, w.approvals, 0);
      assert w.approvals[0..] == w.approvals && !RejectedAt(task, w.approvals, 0) by { NothingRead(task, w.approvals); }
    }
  }

  lemma NothingRead(task: Task, approvals: seq<ApprovalRecord>)
    ensures !RejectedAt(task, approvals, 0)
  {
  }

  // ---- HEAD and the last checkpoint ----

  /**
    * HEAD against a recorded checkpoint: it is the checkpoint's commit exactly when no landing after the
    * recorded one moved the tree.
    */
  lemma {:induction false} HeadIsCheckpointIff(base: Tree, landings: seq<Landing>, k: nat)
    requires Chained(base, landings) && k < |landings|
    ensures landings[k].commit <= TipCommit(landings)
    ensures landings[k].commit == TipCommit(landings) <==>
            forall i :: k < i < |landings| ==> landings[i].before == landings[i].after
    decreases |landings|
  {
    if k < |landings| - 1 {
      var front, last := landings[..|landings| - 1], landings[|landings| - 1];
      HeadIsCheckpointIff(base, front, k);
      assert forall i :: k < i < |front| ==> front[i] == landings[i];
      if landings[k].commit == TipCommit(landings) {
        assert last.before == last.after;
      }
    }
  }

  /**
    * The last persisted checkpoint against HEAD: a landing recorded it, and its commit is HEAD's exactly when no
    * landing after that one moved the tree.
    */
  lemma LastCheckpointIsHeadIff(c: CompiledPlan, view: Manifest, w: World) returns (k: nat)
    requires Kept(c, view, w) && view.checkpoints != []
    ensures k < |w.landings| && w.landings[k].taskId == Last(view.checkpoints).taskId
    ensures w.landings[k].commit == Last(view.checkpoints).commit <= TipCommit(w.landings)
    ensures Last(view.checkpoints).commit == TipCommit(w.landings) <==>
            forall i :: k < i < |w.landings| ==> w.landings[i].before == w.landings[i].after
  {
    hide StartOk, LandingOk, StatusOk, AttemptsOk, LastDecision, HeldOk, TaskOf;
    var last := |view.checkpoints| - 1;
    var s := view.taskStates[c.taskOrder[last]];
    assert CompletedOk(view.policyDecisions, w.landings, c.taskOrder[last], s, view.checkpoints[last].commit);
    var d := LastDecision(view.policyDecisions, c.taskOrder[last], Last(s.attempts).number);
    k :| 0 <= k < |w.landings|
         && Records(w.landings[k], c.taskOrder[last], Last(s.attempts), d.value, view.checkpoints[last].commit);
    HeadIsCheckpointIff(w.base, w.landings, k);
  }

  // ---- what a late copy forgets ----

  /**
    * The witness: a cancellation loads the manifest, the executor journals the next attempt and starts its
    * worker, and the cancellation journals its copy. Every call is accepted and the journal is settled, but
    * the attempt whose worker ran is no longer on record.
    */
  lemma LateCancellationForgetsAttempt(runId: string, d: Disk, task: string, worker: string, starts: seq<Start>,
                                       s: Start, started: EventDraft, request: EventDraft)
    requires Settled(runId, d) && task in d.manifest.value.taskStates
    requires s.taskId == task && s.attempt == |d.manifest.value.taskStates[task].attempts| + 1
    requires StartsCounted(d.manifest.value, starts)
    ensures var loaded := d.manifest.value;
            var ahead := AppendResult(runId, d, false, RunSteps.Started(loaded, task, worker), started);
            && ahead.Done? && StartsCounted(ahead.value.manifest.value, starts + [s])
            && var late := AppendResult(runId, ahead.value, true, CancelledCopy(loaded), request);
               && late.Done? && Settled(runId, late.value)
               && !StartsCounted(late.value.manifest.value, starts + [s])
               && !Advanced(ahead.value.manifest.value, late.value.manifest.value)
  {
    var all := starts + [s];
    assert all[|starts|] == s;
    forall i | 0 <= i < |starts| ensures all[i] == starts[i] {}
  }

  /** The same with a completion in between: the completed task and its checkpoint are forgotten. */
  lemma LateCancellationForgetsCheckpoint(runId: string, d: Disk, task: string, patch: StagedPatch, commit: nat,
                                          completed: EventDraft, request: EventDraft)
    requires Settled(runId, d) && task in d.manifest.value.taskStates
    requires d.manifest.value.taskStates[task].attempts != []
    requires d.manifest.value.taskStates[task].status != TaskCompleted
    ensures var loaded := d.manifest.value;
            var ahead := AppendResult(runId, d, false, Completed(loaded, task, patch, commit), completed);
            && ahead.Done? && ahead.value.manifest.value.taskStates[task].status == TaskCompleted
            && var late := AppendResult(runId, ahead.value, true, CancelledCopy(loaded), request);
               && late.Done? && Settled(runId, late.value) && ahead.value.events <= late.value.events
               && late.value.manifest.value.taskStates[task].status != TaskCompleted
               && |late.value.manifest.value.checkpoints| < |ahead.value.manifest.value.checkpoints|
  {
  }
}
