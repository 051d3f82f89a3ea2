/**
  * The improvement plan that packages/agent-runtime/src/engine/kaizen.ts drafts from a run's plan: it
  * compiles, and it allows nothing that the source plan's policy forbids.
  */
module Kaizen {
  import opened Basics
  import opened Strings
  import opened Policy
  import opened Globs
  import opened PlanTypes
  import opened TaskGraph
  import opened CommandLine
  import opened PlanCompiler
  import opened RunTypes
  import opened Worktrees
  import opened Journal
  import opened CompiledPlans
  import opened RunProtocol

  const MAX_DRAFT_VALIDATIONS := 8

  function IdsOf(validations: seq<ValidationCommand>): set<string> {
    if validations == [] then {} else IdsOf(validations[..|validations| - 1]) + {validations[|validations| - 1].id}
  }

  /** The first validation with each id, in order of appearance. */
  function FirstById(validations: seq<ValidationCommand>): seq<ValidationCommand> {
    if validations == [] then []
    else
      var front, last := validations[..|validations| - 1], validations[|validations| - 1];
      if last.id in IdsOf(front) then FirstById(front) else FirstById(front) + [last]
  }

  /** Nothing is invented, and no id is lost. */
  lemma {:induction false} FirstByIdKeepsIds(validations: seq<ValidationCommand>)
    ensures forall v :: v in FirstById(validations) ==> v in validations
    ensures IdsOf(FirstById(validations)) == IdsOf(validations)
    ensures |FirstById(validations)| == |IdsOf(validations)|
    ensures validations != [] ==> FirstById(validations) != []
  {
    hide FirstById, IdsOf;
    NoIdsInNothing();
    if validations != [] {
      var front, last := validations[..|validations| - 1], validations[|validations| - 1];
      assert validations == front + [last];
      FirstByIdKeepsIds(front);
      FirstByIdStep(front, last);
      IdsOfAppended(FirstById(front), last);
    }
  }

  lemma IdsOfAppended(validations: seq<ValidationCommand>, v: ValidationCommand)
    ensures IdsOf(validations + [v]) == IdsOf(validations) + {v.id}
  {
    assert (validations + [v])[..|validations|] == validations;
  }

  lemma NoIdsInNothing()
    ensures FirstById([]) == [] && IdsOf([]) == {}
  {
  }

  function AllValidations(tasks: seq<Task>): seq<ValidationCommand> {
    if tasks == [] then [] else AllValidations(tasks[..|tasks| - 1]) + tasks[|tasks| - 1].validations
  }

  ghost predicate AllRunnable(validations: seq<ValidationCommand>) {
    forall v :: v in validations ==> CommandAccepted(v)
  }

  lemma {:induction false} AllValidationsAreRunnable(tasks: seq<Task>)
    requires forall i :: 0 <= i < |tasks| ==> tasks[i].validations != [] && AllRunnable(tasks[i].validations)
    ensures AllRunnable(AllValidations(tasks)) && (tasks != [] ==> AllValidations(tasks) != [])
  {
    hide CommandAccepted;
    if tasks != [] {
      AllValidationsAreRunnable(tasks[..|tasks| - 1]);
    }
  }

  function FirstEight(validations: seq<ValidationCommand>): seq<ValidationCommand> {
    if |validations| <= MAX_DRAFT_VALIDATIONS then validations else validations[..MAX_DRAFT_VALIDATIONS]
  }

  lemma FirstByIdStep(earlier: seq<ValidationCommand>, v: ValidationCommand)
    ensures FirstById(earlier + [v]) == if v.id in IdsOf(earlier) then FirstById(earlier) else FirstById(earlier) + [v]
    ensures IdsOf(earlier + [v]) == IdsOf(earlier) + {v.id}
  {
    assert (earlier + [v])[..|earlier|] == earlier;
  }

  lemma NoTasksNoValidations()
    ensures AllValidations([]) == []
  {
  }

  lemma OneMoreTask(tasks: seq<Task>, i: nat)
    requires i < |tasks|
    ensures AllValidations(tasks[..i + 1]) == AllValidations(tasks[..i]) + tasks[i].validations
  {
    assert tasks[..i + 1][..i] == tasks[..i];
  }

  /** `uniqueValidations`: a map from ids to first occurrences, in insertion order, cut to eight. */
  method UniqueValidations(plan: Plan) returns (r: seq<ValidationCommand>)
    ensures r == FirstEight(FirstById(AllValidations(plan.tasks)))
  {
    hide FirstById, IdsOf, AllValidations;
    assert AllValidations(plan.tasks[..0]) == [] by { NoTasksNoValidations(); }
    var byId: seq<ValidationCommand> := FirstById([]);
    var ids := IdsOf([]);
    ghost var seen: seq<ValidationCommand> := [];
    for i := 0 to |plan.tasks|
      invariant seen == AllValidations(plan.tasks[..i]) && byId == FirstById(seen) && ids == IdsOf(seen)
    {
      ghost var start := seen;
      var validations := plan.tasks[i].validations;
      for j := 0 to |validations|
        invariant seen == start + validations[..j] && byId == FirstById(seen) && ids == IdsOf(seen)
      {
        FirstByIdStep(seen, validations[j]);
        if validations[j].id !in ids {
          byId := byId + [validations[j]];
        }
        ids := ids + {validations[j].id};
        seen := seen + [validations[j]];
        assert start + validations[..j + 1] == start + validations[..j] + [validations[j]];
      }
      assert validations[..|validations|] == validations;
      OneMoreTask(plan.tasks, i);
    }
    assert plan.tasks[..|plan.tasks|] == plan.tasks;
    r := if |byId| <= MAX_DRAFT_VALIDATIONS then byId else byId[..MAX_DRAFT_VALIDATIONS];
  }

  function Smaller(a: int, b: int): int {
    if a <= b then a else b
  }

  function DraftPolicy(source: PlanPolicy): PlanPolicy {
    source.(maxChangedFiles := Some(Smaller(source.maxChangedFiles.GetOr(100), 200)),
            maxPatchBytes := Some(Smaller(source.maxPatchBytes.GetOr(1024 * 1024), 2 * 1024 * 1024)),
            keepWorktree := Some(true))
  }

  const OBJECTIVE_START := "Investigate and reduce recurring failure '"

  /** `improvementObjective`: the opening sentence names the signal, and `details` is the rest. */
  function ImprovementObjective(key: string, details: string): string {
    OBJECTIVE_START + (key + "'." + details)
  }

  const DRAFT_DESCRIPTION := "Human-approved continuous-improvement experiment generated from run evidence."

  /** `draftPlan` for a proposal id, a failure signal's key, the details of its objective, and the source plan. */
  function DraftPlan(id: string, key: string, details: string, source: Plan): Plan {
    var policy := source.policy.GetOr(EMPTY_POLICY);
    var task := Task(
      "root-cause-improvement", "Reduce " + key, ImprovementObjective(key, details), None, None,
      Some(policy.allowedPaths.GetOr(["**"])),
      Some(policy.deniedPaths.GetOr([".git/**", ".machine/**"])),
      FirstEight(FirstById(AllValidations(source.tasks))),
      Some(3), Some(true), Some(GateBefore), Some("kaizen: reduce " + key));
    Plan(1, "kaizen-" + LowerCase(id), "Kaizen: " + key, Some(DRAFT_DESCRIPTION), source.repositoryPath, source.baseRef,
         Some(source.workers.GetOr([])), source.workerStrategy, Some(DraftPolicy(policy)), [task],
         Some(KaizenOptions(Some(false), Some(MinimumOccurrences(source)))))
  }

  function MinimumOccurrences(source: Plan): int {
    if source.kaizen.Some? then source.kaizen.value.minimumOccurrences.GetOr(2) else 2
  }

  // ---- the draft never allows more ----

  /** A task that adds no path restriction of its own to its plan's policy. */
  ghost predicate AddsNoPaths(policy: PlanPolicy, task: Task) {
    && (forall path :: MatchesAnyGlob(path, PlanAllowed(policy)) ==> MatchesAnyGlob(path, TaskAllowed(task)))
    && (forall path :: MatchesAnyGlob(path, task.deniedPaths.GetOr([])) ==>
          MatchesAnyGlob(path, DEFAULT_DENIED_PATHS + policy.deniedPaths.GetOr([])))
  }

  /**
    * Every patch the draft's policy allows, the source plan's policy allows for any task that adds no path
    * restriction.
    */
  lemma DraftAllowsNothingNew(id: string, key: string, details: string, source: Plan, task: Task, attempt: int,
                              patch: StagedPatch)
    requires AddsNoPaths(source.policy.GetOr(EMPTY_POLICY), task)
    requires var draft := DraftPlan(id, key, details, source);
             Decision(draft.policy.value, draft.tasks[0], attempt, patch).allowed
    ensures Decision(source.policy.GetOr(EMPTY_POLICY), task, attempt, patch).allowed
  {
    hide Decision, MatchesAnyGlob, FirstById, AllValidations, LowerCase;
    var policy, draft := source.policy.GetOr(EMPTY_POLICY), DraftPlan(id, key, details, source);
    forall path | MatchesAnyGlob(path, DeniedGlobs(policy, task))
      ensures MatchesAnyGlob(path, DeniedGlobs(draft.policy.value, draft.tasks[0]))
    {
      var inherited := DEFAULT_DENIED_PATHS + policy.deniedPaths.GetOr([]);
      MatchesConcatenation(path, inherited, task.deniedPaths.GetOr([]));
      MatchesConcatenation(path, inherited, draft.tasks[0].deniedPaths.GetOr([]));
    }
    TighteningIsMonotone(draft.policy.value, draft.tasks[0], policy, task, attempt, patch);
  }

  /** What a draft allows is small, and something: at most 200 paths and 2 MiB, whatever the source plan allows. */
  lemma DraftsStaySmall(id: string, key: string, details: string, source: Plan, attempt: int, patch: StagedPatch)
    requires var draft := DraftPlan(id, key, details, source);
             Decision(draft.policy.value, draft.tasks[0], attempt, patch).allowed
    ensures 1 <= |PathSet(patch.changedFiles)| <= 200 && patch.patchBytes <= 2 * 1024 * 1024
    ensures |PathSet(patch.changedFiles)| <= FileLimit(source.policy.GetOr(EMPTY_POLICY))
  {
    hide Decision, MatchesAnyGlob, FirstById, AllValidations, LowerCase;
    var draft := DraftPlan(id, key, details, source);
    AllowedIffAccepted(draft.policy.value, draft.tasks[0], attempt, patch);
  }

  lemma AllOfOneTask(task: Task)
    ensures AllValidations([task]) == task.validations
  {
    assert [task][..0] == [] && AllValidations([]) == [] && [] + task.validations == task.validations;
  }

  lemma {:induction false} IdsOfPrefix(validations: seq<ValidationCommand>, k: nat)
    requires k <= |validations|
    ensures IdsOf(validations[..k]) <= IdsOf(validations)
    decreases |validations|
  {
    if k == |validations| {
      assert validations[..k] == validations;
    } else {
      assert validations[..|validations| - 1][..k] == validations[..k];
      IdsOfPrefix(validations[..|validations| - 1], k);
    }
  }

  /** The ids in a list are those of its elements. */
  lemma {:induction false} IdsOfMeans(validations: seq<ValidationCommand>, id: string)
    ensures id in IdsOf(validations) <==> exists v :: v in validations && v.id == id
  {
    if validations != [] {
      var front, last := validations[..|validations| - 1], validations[|validations| - 1];
      IdsOfMeans(front, id);
      assert forall v :: v in validations <==> v in front || v == last;
    }
  }

  ghost predicate DistinctValidations(validations: seq<ValidationCommand>) {
    forall i, j :: 0 <= i < j < |validations| ==> validations[i].id != validations[j].id
  }

  lemma {:induction false} FirstByIdIsDistinct(validations: seq<ValidationCommand>)
    ensures DistinctValidations(FirstById(validations))
  {
    if validations != [] {
      var front, last := validations[..|validations| - 1], validations[|validations| - 1];
      hide FirstById, IdsOf, DistinctValidations;
      FirstByIdIsDistinct(front);
      FirstByIdKeepsIds(front);
      FirstByIdStep(front, last);
      assert validations == front + [last];
      if last.id !in IdsOf(front) {
        NewIdIsDistinct(FirstById(front), last);
      }
    } else {
      NoIdsInNothing();
    }
  }

  lemma NewIdIsDistinct(validations: seq<ValidationCommand>, v: ValidationCommand)
    requires DistinctValidations(validations) && v.id !in IdsOf(validations)
    ensures DistinctValidations(validations + [v])
  {
    IdsOfMeans(validations, v.id);
    assert forall i :: 0 <= i < |validations| ==> validations[i] in validations;
  }

  lemma {:induction false} DistinctStays(validations: seq<ValidationCommand>)
    requires DistinctValidations(validations)
    ensures FirstById(validations) == validations
  {
    if validations != [] {
      var front, last := validations[..|validations| - 1], validations[|validations| - 1];
      DistinctStays(front);
      IdsOfMeans(front, last.id);
    }
  }

  /** Drafting from a draft changes nothing, and a draft's own runs draft nothing. */
  lemma DraftingIsIdempotent(id: string, key: string, details: string, first: string, signal: string, objective: string,
                             source: Plan)
    ensures var draft := DraftPlan(first, signal, objective, source);
            DraftPlan(id, key, details, draft) == DraftPlan(id, key, details, source)
    ensures DraftPlan(id, key, details, source).kaizen.value.enabled == Some(false)
  {
    hide FirstById, AllValidations, LowerCase, ImprovementObjective;
    var draft := DraftPlan(first, signal, objective, source);
    var all := FirstById(AllValidations(source.tasks));
    AllOfOneTask(draft.tasks[0]);
    FirstByIdIsDistinct(AllValidations(source.tasks));
    DistinctStays(FirstEight(all));
  }

  /** A draft runs on its source's repository, with the workers of any task that names none of its own. */
  lemma DraftsRunLikeTheirSource(id: string, key: string, details: string, source: Plan, task: Task, from: string,
                                 hash: PlanHash)
    requires task.worker.None?
    ensures var draft := DraftPlan(id, key, details, source);
            && Compiled(draft, from, hash).plan.repositoryPath == Compiled(source, from, hash).plan.repositoryPath
            && draft.baseRef == source.baseRef
            && WorkerIds(draft, draft.tasks[0]) == WorkerIds(source, task)
            && (forall w :: w in draft.workers.GetOr([]) <==> w in source.workers.GetOr([]))
            && (source.kaizen.Some? && source.kaizen.value.minimumOccurrences.Some? ==>
                  draft.kaizen.value.minimumOccurrences == source.kaizen.value.minimumOccurrences)
  {
    hide FirstById, AllValidations, LowerCase, ImprovementObjective, ResolvePath, Graph, Unique;
  }

  // ---- the draft compiles ----

  lemma {:induction false} LowerCaseKeepsIds(id: string, first: bool)
    requires forall i :: 0 <= i < |id| ==> IdCharacter(id[i], first && i == 0)
    ensures |LowerCase(id)| == |id|
    ensures forall i :: 0 <= i < |id| ==> IdCharacter(LowerCase(id)[i], first && i == 0)
    decreases |id|
  {
    if id != "" {
      LowerCaseKeepsIds(id[1..], false);
    }
  }

  lemma LowerCaseIdIsValid(id: string)
    requires ValidId(id)
    ensures ValidId(LowerCase(id)) && |LowerCase(id)| == |id|
  {
    LowerCaseKeepsIds(id, true);
  }

  lemma FixedIdsAreValid()
    ensures ValidId("kaizen-") && ValidId("root-cause-improvement")
  {
  }

  lemma PrefixedIdIsValid(id: string)
    requires ValidId(id) && |id| <= 121
    ensures ValidId("kaizen-" + LowerCase(id))
  {
    hide ValidId, LowerCase;
    FixedIdsAreValid();
    LowerCaseIdIsValid(id);
    JoinedIdIsValid("kaizen-", LowerCase(id));
  }

  lemma JoinedIdIsValid(first: string, rest: string)
    requires ValidId(first) && ValidId(rest) && |first| + |rest| <= 128
    ensures ValidId(first + rest)
  {
    forall i | 0 <= i < |first + rest| ensures IdCharacter((first + rest)[i], i == 0) {
      if i >= |first| {
        assert IdCharacter(rest[i - |first|], i - |first| == 0);
      }
    }
  }

  lemma DraftValidationsAreAccepted(source: Plan)
    requires TasksAccepted(source.tasks)
    ensures var vs := FirstEight(FirstById(AllValidations(source.tasks)));
            1 <= |vs| <= 8 && AllRunnable(vs)
  {
    hide CommandAccepted, FirstById, IdsOf, AllValidations;
    forall i | 0 <= i < |source.tasks| ensures source.tasks[i].validations != [] && AllRunnable(source.tasks[i].validations) {
      assert TaskAccepted(source.tasks[i]);
    }
    AllValidationsAreRunnable(source.tasks);
    FirstByIdKeepsIds(AllValidations(source.tasks));
  }

  lemma OneTaskIsAcyclic(tasks: seq<Task>)
    requires |tasks| == 1 && tasks[0].Dependencies() == []
    ensures AllKnown(tasks) && Acyclic(tasks)
  {
    assert forall id :: Dependencies(tasks, id) == [] by { assert tasks[..0] == []; }
    assert forall path :: IsWalk(tasks, path) ==> |path| <= 1;
  }

  /** The three globs a draft may carry whatever its source plan. */
  lemma FixedGlobsAreRelative()
    ensures RelativePath("**") && RelativePath(".git/**") && RelativePath(".machine/**")
  {
    hide RelativePath;
    PlainSegmentsAreRelative("**", "");
    PlainSegmentsAreRelative(".git", "**");
    PlainSegmentsAreRelative(".machine", "**");
    assert "**" + "" == "**" && ".git" + "/" + "**" == ".git/**" && ".machine" + "/" + "**" == ".machine/**";
  }

  lemma PlainSegmentsAreRelative(first: string, second: string)
    requires first != "" && !IsSpace(first[0]) && first != ".." && second != ".."
    requires forall c :: c in first || c in second ==> c != '/' && c != '\\' && c != '\0'
    ensures RelativePath(if second == "" then first else first + "/" + second)
  {
    hide Filled, Split;
    var path := if second == "" then first else first + "/" + second;
    assert path != "" && path[0] == first[0] && first[0] in first;
    assert '\\' !in path && '\0' !in path;
    NonBlankStartIsFilled(path);
    TwoSegments(first, second);
  }

  lemma TwoSegments(first: string, second: string)
    requires '/' !in first && '/' !in second
    ensures Split(if second == "" then first else first + "/" + second, '/') == if second ==
            "" then [first] else [first, second]
  {
    hide Split;
    EmptySplits();
    if second == "" {
      SplitAt(first, "", '/');
      assert first + "" == first && [first] + [""][1..] == [first];
    } else {
      SplitAt(first, "/" + second, '/');
      SplitAfter(second, '/');
      SplitAt(second, "", '/');
      assert second + "" == second && first + "/" + second == first + ("/" + second);
      assert [second] + [""][1..] == [second] && ([""] + [second])[1..] == [second] && [first] + [second] == [first, second];
    }
  }

  lemma DraftPathsAreRelative(policy: PlanPolicy)
    requires PolicyAccepted(Some(policy))
    ensures RelativePaths(Some(policy.allowedPaths.GetOr(["**"])))
    ensures RelativePaths(Some(policy.deniedPaths.GetOr([".git/**", ".machine/**"])))
    ensures PolicyAccepted(Some(DraftPolicy(policy)))
  {
    hide RelativePath;
    FixedGlobsAreRelative();
  }

  lemma DraftTaskIsAccepted(task: Task, policy: PlanPolicy, key: string)
    requires PolicyAccepted(Some(policy)) && Filled(task.objective)
    requires task.id == "root-cause-improvement" && task.title == "Reduce " + key
    requires task.worker.None? && task.maxAttempts == Some(3)
    requires task.allowedPaths == Some(policy.allowedPaths.GetOr(["**"]))
    requires task.deniedPaths == Some(policy.deniedPaths.GetOr([".git/**", ".machine/**"]))
    requires 1 <= |task.validations| <= MAX_VALIDATIONS_PER_TASK && AllRunnable(task.validations)
    ensures TaskAccepted(task)
  {
    hide ValidId, Filled, RelativePaths, CommandAccepted, PolicyAccepted;
    FixedIdsAreValid();
    NonBlankStartIsFilled("Reduce " + key);
    DraftPathsAreRelative(policy);
  }

  lemma ObjectiveIsFilled(key: string, details: string)
    ensures Filled(ImprovementObjective(key, details))
  {
    hide Filled;
    assert ImprovementObjective(key, details)[0] == OBJECTIVE_START[0] == 'I';
    NonBlankStartIsFilled(ImprovementObjective(key, details));
  }

  lemma NoPolicyIsAccepted(source: Plan)
    requires PolicyAccepted(source.policy)
    ensures PolicyAccepted(Some(source.policy.GetOr(EMPTY_POLICY)))
  {
  }

  /** The draft of an accepted plan is itself accepted by the compiler. */
  lemma DraftCompiles(id: string, key: string, details: string, source: Plan)
    requires Accepted(source) && ValidId(id) && |id| <= 121
    ensures Accepted(DraftPlan(id, key, details, source))
  {
    hide ValidId, Filled, FirstById, AllValidations, FirstEight;
    hide LowerCase, WorkerAccepted, TaskAccepted, Acyclic, AllKnown;
    hide PolicyAccepted, StrategyAccepted, CommandAccepted, DraftPolicy, AllRunnable, ImprovementObjective;
    var draft := DraftPlan(id, key, details, source);
    PrefixedIdIsValid(id);
    NoPolicyIsAccepted(source);
    DraftPathsAreRelative(source.policy.GetOr(EMPTY_POLICY));
    DraftValidationsAreAccepted(source);
    ObjectiveIsFilled(key, details);
    DraftTaskIsAccepted(draft.tasks[0], source.policy.GetOr(EMPTY_POLICY), key);
    OneTaskIsAcyclic(draft.tasks);
    NonBlankStartIsFilled("Kaizen: " + key);
  }

  /**
    * A draft is an experiment that a human has to admit: in any run of it, every worker start has an approval as the
    * latest record read for its one task.
    */
  lemma DraftsStartApproved(id: string, key: string, details: string, source: Plan, from: string, hash: PlanHash,
                            w: World, i: nat)
    requires Accepted(source) && ValidId(id) && |id| <= 121
    requires WorldOk(Compiled(DraftPlan(id, key, details, source), from, hash), w) && i < |w.starts|
    ensures var s, only := w.starts[i], "root-cause-improvement";
            && s.taskId == only && s.entry.consulted <= |w.approvals|
            && LatestApproval(w.approvals[..s.entry.consulted], only, BeforeChange) ==
               Some(ApprovalRecord(only, BeforeChange, true))
  {
    hide Accepted, Graph, ResolvePath, FirstById, AllValidations, FirstEight, LowerCase, ImprovementObjective, Chained;
    var draft := DraftPlan(id, key, details, source);
    var c, s := Compiled(draft, from, hash), w.starts[i];
    DraftCompiles(id, key, details, source);
    AcceptedPlansCompile(draft, from, hash);
    assert StartOk(c, w.base, w.landings, s) && StartAdmitted(c, w.approvals, s);
    assert c.plan.tasks == [draft.tasks[0]];
    OnlyTask(c, s.taskId);
  }

  lemma OnlyTask(c: CompiledPlan, id: string)
    requires CompiledOk(c) && |c.plan.tasks| == 1 && id in c.taskOrder
    ensures id == c.plan.tasks[0].id && TaskOf(c, id) == c.plan.tasks[0]
  {
    assert id in Ids(c.plan.tasks);
  }
}
