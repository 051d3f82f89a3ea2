/** The patch policy of packages/agent-runtime/src/engine/policy.ts. */
module Policy {
  import opened Basics
  import opened Strings
  import opened Globs
  import opened PlanTypes
  import opened RunTypes

  const DEFAULT_DENIED_PATHS := [".git/**", ".machine/**", "node_modules/**"]

  const DEPENDENCY_FILES := {
    "package.json", "pnpm-lock.yaml", "package-lock.json", "yarn.lock", "bun.lock", "bun.lockb", "Cargo.toml",
    "Cargo.lock", "pyproject.toml", "poetry.lock", "requirements.txt", "go.mod", "go.sum", "Gemfile", "Gemfile.lock"}

  /** What staging reports about the worktree. */
  datatype StagedPatch = StagedPatch(
    changedFiles: seq<string>, patch: string, patchBytes: nat, ignoredFiles: seq<string>, unsafeSymlinks: seq<string>)

  function NormalizeAll(paths: seq<string>): (r: seq<string>)
    ensures |r| == |paths| && forall i :: 0 <= i < |r| ==> r[i] == NormalizePath(paths[i])
  {
    seq(|paths|, i requires 0 <= i < |paths| => NormalizePath(paths[i]))
  }

  /** `Array.from(new Set(paths.map(normalizePath))).sort()`. */
  function NormalPaths(paths: seq<string>): (r: seq<string>)
    ensures StrictlySorted(r)
    ensures forall p :: p in r <==> p in NormalizeAll(paths)
  {
    SortUnique(NormalizeAll(paths))
  }

  predicate DependencyChange(filePath: string) {
    var segments := Split(NormalizePath(filePath), '/');
    segments[|segments| - 1] in DEPENDENCY_FILES
  }

  predicate BinaryPatch(patch: string) {
    Contains(patch, "GIT binary patch") || Contains(patch, "Binary files ")
  }

  function PlanAllowed(policy: PlanPolicy): seq<string> { policy.allowedPaths.GetOr(["**"]) }

  function TaskAllowed(task: Task): seq<string> { task.allowedPaths.GetOr(["**"]) }

  function DeniedGlobs(policy: PlanPolicy, task: Task): seq<string> {
    DEFAULT_DENIED_PATHS + policy.deniedPaths.GetOr([]) + task.deniedPaths.GetOr([])
  }

  function FileLimit(policy: PlanPolicy): int { policy.maxChangedFiles.GetOr(100) }

  function ByteLimit(policy: PlanPolicy): int { policy.maxPatchBytes.GetOr(1024 * 1024) }

  // ---- the decision as a list of violations ----

  /** `if (condition) violations.push(violation)`. */
  function PushIf(violations: seq<Violation>, condition: bool, violation: Violation): seq<Violation> {
    if condition then violations + [violation] else violations
  }

  function PathViolations(filePath: string, policy: PlanPolicy, task: Task): seq<Violation> {
    var path := NormalizePath(filePath);
    var outside := !MatchesAnyGlob(path, PlanAllowed(policy)) || !MatchesAnyGlob(path, TaskAllowed(task));
    var scoped := PushIf([], outside, Violation(PathNotAllowed, Some(path)));
    var checked := PushIf(scoped, MatchesAnyGlob(path, DeniedGlobs(policy, task)), Violation(PathDenied, Some(path)));
    PushIf(checked, !policy.allowDependencyChanges.GetOr(false) && DependencyChange(path),
           Violation(DependencyChangeDenied, Some(path)))
  }

  function AllPathViolations(files: seq<string>, policy: PlanPolicy, task: Task): seq<Violation> {
    if files == [] then []
    else AllPathViolations(files[..|files| - 1], policy, task) + PathViolations(files[|files| - 1], policy, task)
  }

  function DeniedEach(files: seq<string>): seq<Violation> {
    seq(|files|, i requires 0 <= i < |files| => Violation(PathDenied, Some(files[i])))
  }

  function WithLimits(found: seq<Violation>, policy: PlanPolicy, task: Task, patch: StagedPatch,
                      changed: nat): seq<Violation> {
    var counted := PushIf(found, changed > FileLimit(policy), Violation(TooManyFiles, None));
    var sized := PushIf(counted, patch.patchBytes > ByteLimit(policy), Violation(PatchTooLarge, None));
    var scanned := PushIf(sized, !policy.allowBinaryChanges.GetOr(false) && BinaryPatch(patch.patch),
                          Violation(BinaryChangeDenied, None));
    PushIf(scanned, task.requireChanges.GetOr(true) && changed == 0, Violation(NoChanges, None))
  }

  function Violations(policy: PlanPolicy, task: Task, patch: StagedPatch): seq<Violation> {
    var changed := NormalPaths(patch.changedFiles);
    var onPaths := AllPathViolations(changed, policy, task);
    var onIgnored := onPaths + DeniedEach(NormalPaths(patch.ignoredFiles));
    var onLinks := onIgnored + DeniedEach(NormalPaths(patch.unsafeSymlinks));
    WithLimits(onLinks, policy, task, patch, |changed|)
  }

  /** The recorded decision. */
  function Decision(policy: PlanPolicy, task: Task, attempt: int, patch: StagedPatch): PolicyDecision {
    var violations := Violations(policy, task, patch);
    PolicyDecision(task.id, attempt, violations == [], NormalPaths(patch.changedFiles), patch.patchBytes, violations)
  }

  method PathViolation(filePath: string, planPolicy: PlanPolicy, task: Task) returns (violations: seq<Violation>)
    ensures violations == PathViolations(filePath, planPolicy, task)
  {
    var normalized := NormalizePath(filePath);
    violations := [];
    var planAllowed := planPolicy.allowedPaths.GetOr(["**"]);
    var taskAllowed := task.allowedPaths.GetOr(["**"]);
    var denied := DEFAULT_DENIED_PATHS + planPolicy.deniedPaths.GetOr([]) + task.deniedPaths.GetOr([]);
    var inPlan := MatchesAny(normalized, planAllowed);
    var inTask := MatchesAny(normalized, taskAllowed);
    if !inPlan || !inTask {
      violations := violations + [Violation(PathNotAllowed, Some(normalized))];
    }
    var refused := MatchesAny(normalized, denied);
    if refused {
      violations := violations + [Violation(PathDenied, Some(normalized))];
    }
    if !planPolicy.allowDependencyChanges.GetOr(false) && DependencyChange(normalized) {
      violations := violations + [Violation(DependencyChangeDenied, Some(normalized))];
    }
  }

  method EvaluatePatchPolicy(task: Task, policy: Option<PlanPolicy>, attempt: int, patch: StagedPatch)
    returns (decision: PolicyDecision)
    ensures decision == Decision(policy.GetOr(EMPTY_POLICY), task, attempt, patch)
  {
    var planPolicy := policy.GetOr(EMPTY_POLICY);
    var changedFiles := NormalPaths(patch.changedFiles);
    var ignoredFiles := NormalPaths(patch.ignoredFiles);
    var unsafeSymlinks := NormalPaths(patch.unsafeSymlinks);
    var violations := CheckPaths(changedFiles, planPolicy, task);
    violations := PushDenied(violations, ignoredFiles);
    violations := PushDenied(violations, unsafeSymlinks);
    violations := CheckLimits(violations, task, planPolicy, patch, |changedFiles|);
    decision := PolicyDecision(task.id, attempt, |violations| == 0, changedFiles, patch.patchBytes, violations);
  }

  method CheckPaths(changedFiles: seq<string>, planPolicy: PlanPolicy, task: Task) returns (violations: seq<Violation>)
    ensures violations == AllPathViolations(changedFiles, planPolicy, task)
  {
    violations := [];
    for i := 0 to |changedFiles|
      invariant violations == AllPathViolations(changedFiles[..i], planPolicy, task)
    {
      var found := PathViolation(changedFiles[i], planPolicy, task);
      assert changedFiles[..i + 1][..i] == changedFiles[..i];
      violations := violations + found;
    }
    assert changedFiles[..|changedFiles|] == changedFiles;
  }

  /** The loops over ignored files and unsafe links: each is denied whatever the globs say. */
  method PushDenied(found: seq<Violation>, paths: seq<string>) returns (violations: seq<Violation>)
    ensures violations == found + DeniedEach(paths)
  {
    violations := found;
    for i := 0 to |paths|
      invariant violations == found + DeniedEach(paths)[..i]
    {
      violations := violations + [Violation(PathDenied, Some(paths[i]))];
    }
  }

  /** The size, binary and emptiness checks that end `evaluatePatchPolicy`. */
  method CheckLimits(found: seq<Violation>, task: Task, planPolicy: PlanPolicy, patch: StagedPatch, changed: nat)
    returns (violations: seq<Violation>)
    ensures violations == WithLimits(found, planPolicy, task, patch, changed)
  {
    violations := found;
    var maxChangedFiles := planPolicy.maxChangedFiles.GetOr(100);
    var maxPatchBytes := planPolicy.maxPatchBytes.GetOr(1024 * 1024);
    if changed > maxChangedFiles {
      violations := violations + [Violation(TooManyFiles, None)];
    }
    if patch.patchBytes > maxPatchBytes {
      violations := violations + [Violation(PatchTooLarge, None)];
    }
    if !planPolicy.allowBinaryChanges.GetOr(false) && BinaryPatch(patch.patch) {
      violations := violations + [Violation(BinaryChangeDenied, None)];
    }
    if task.requireChanges.GetOr(true) && changed == 0 {
      violations := violations + [Violation(NoChanges, None)];
    }
  }

  // ---- what acceptance means ----

  /** A path a plan and a task let a worker change. */
  predicate Permitted(policy: PlanPolicy, task: Task, path: string) {
    && MatchesAnyGlob(path, PlanAllowed(policy))
    && MatchesAnyGlob(path, TaskAllowed(task))
    && !MatchesAnyGlob(path, DEFAULT_DENIED_PATHS)
    && !MatchesAnyGlob(path, policy.deniedPaths.GetOr([]))
    && !MatchesAnyGlob(path, task.deniedPaths.GetOr([]))
    && (DependencyChange(path) ==> policy.allowDependencyChanges.GetOr(false))
  }

  /** The set of paths a list names once normalised. */
  function PathSet(paths: seq<string>): set<string> {
    set p | p in paths :: NormalizePath(p)
  }

  /** Acceptance in terms of path sets, the patch text and its size. */
  predicate Acceptable(policy: PlanPolicy, task: Task, changed: set<string>, ignored: set<string>, links: set<string>,
                       patch: string, patchBytes: nat)
  {
    && (forall p :: p in changed ==> Permitted(policy, task, NormalizePath(p)))
    && ignored == {} && links == {}
    && |changed| <= FileLimit(policy)
    && patchBytes <= ByteLimit(policy)
    && (BinaryPatch(patch) ==> policy.allowBinaryChanges.GetOr(false))
    && (task.requireChanges.GetOr(true) ==> changed != {})
  }

  predicate Accepts(policy: PlanPolicy, task: Task, patch: StagedPatch) {
    Acceptable(policy, task, PathSet(patch.changedFiles), PathSet(patch.ignoredFiles), PathSet(patch.unsafeSymlinks),
               patch.patch, patch.patchBytes)
  }

  lemma MatchesConcatenation(path: string, xs: seq<string>, ys: seq<string>)
    ensures MatchesAnyGlob(path, xs + ys) <==> MatchesAnyGlob(path, xs) || MatchesAnyGlob(path, ys)
  {
    assert forall g :: g in xs + ys <==> g in xs || g in ys;
  }

  lemma CleanPathIsPermitted(filePath: string, policy: PlanPolicy, task: Task)
    ensures PathViolations(filePath, policy, task) == [] <==> Permitted(policy, task, NormalizePath(filePath))
  {
    var path := NormalizePath(filePath);
    var inherited := DEFAULT_DENIED_PATHS + policy.deniedPaths.GetOr([]);
    MatchesConcatenation(path, DEFAULT_DENIED_PATHS, policy.deniedPaths.GetOr([]));
    MatchesConcatenation(path, inherited, task.deniedPaths.GetOr([]));
  }

  lemma {:induction false} CleanPathsArePermitted(files: seq<string>, policy: PlanPolicy, task: Task)
    ensures AllPathViolations(files, policy, task) == [] <==>
            forall p :: p in files ==> Permitted(policy, task, NormalizePath(p))
  {
    if files != [] {
      var last := files[|files| - 1];
      var front := files[..|files| - 1];
      CleanPathsArePermitted(front, policy, task);
      CleanPathIsPermitted(last, policy, task);
      assert forall p :: p in files <==> p in front || p == last;
    }
  }

  lemma NormalizeAllMembers(paths: seq<string>)
    ensures forall p :: p in NormalizeAll(paths) <==> p in PathSet(paths)
  {
    var all := NormalizeAll(paths);
    forall p | p in PathSet(paths) ensures p in all {
      var q :| q in paths && NormalizePath(q) == p;
      var i :| 0 <= i < |paths| && paths[i] == q;
      assert all[i] == p;
    }
  }

  lemma NormalPathsAreTheSet(paths: seq<string>)
    ensures (set p | p in NormalPaths(paths)) == PathSet(paths)
    ensures |NormalPaths(paths)| == |PathSet(paths)|
  {
    NormalizeAllMembers(paths);
    assert (set p | p in NormalPaths(paths)) == PathSet(paths);
    SortedHasNoDuplicates(NormalPaths(paths));
  }

  /** A decision allows a patch exactly when the patch is acceptable. */
  lemma AllowedIffAccepted(policy: PlanPolicy, task: Task, attempt: int, patch: StagedPatch)
    ensures Decision(policy, task, attempt, patch).allowed <==> Accepts(policy, task, patch)
  {
    NormalPathsAreTheSet(patch.changedFiles);
    NormalPathsAreTheSet(patch.ignoredFiles);
    NormalPathsAreTheSet(patch.unsafeSymlinks);
    CleanPathsArePermitted(NormalPaths(patch.changedFiles), policy, task);
    assert forall p :: p in PathSet(patch.changedFiles) <==> p in NormalPaths(patch.changedFiles);
  }

  /** The whole decision, violations included, depends on path sets, patch text and size alone. */
  lemma DecisionDependsOnSets(policy: PlanPolicy, task: Task, attempt: int, p: StagedPatch, q: StagedPatch)
    requires PathSet(p.changedFiles) == PathSet(q.changedFiles)
    requires PathSet(p.ignoredFiles) == PathSet(q.ignoredFiles)
    requires PathSet(p.unsafeSymlinks) == PathSet(q.unsafeSymlinks)
    requires p.patch == q.patch && p.patchBytes == q.patchBytes
    ensures Decision(policy, task, attempt, p) == Decision(policy, task, attempt, q)
  {
    SamePathSet(p.changedFiles, q.changedFiles);
    SamePathSet(p.ignoredFiles, q.ignoredFiles);
    SamePathSet(p.unsafeSymlinks, q.unsafeSymlinks);
  }

  lemma SamePathSet(xs: seq<string>, ys: seq<string>)
    requires PathSet(xs) == PathSet(ys)
    ensures NormalPaths(xs) == NormalPaths(ys)
  {
    NormalizeAllMembers(xs);
    NormalizeAllMembers(ys);
    SortDependsOnSet(NormalizeAll(xs), NormalizeAll(ys));
  }

  // ---- paths that need the plan's permission, or never get any ----

  predicate EndsWith(text: string, end: string) {
    |end| <= |text| && text[|text| - |end|..] == end
  }

  /** A dependency manifest or lockfile, at any depth. */
  ghost predicate DependencyFile(path: string) {
    exists name :: name in DEPENDENCY_FILES && (path == name || EndsWith(path, "/" + name))
  }

  /** On one line, below a directory no worker may touch. */
  ghost predicate Protected(path: string) {
    NoLineTerminators(path) && (".git/" <= path || ".machine/" <= path || "node_modules/" <= path)
  }

  /** The manifests and lockfiles meant, in any directory. */
  lemma DependencyFilesAre(directory: string, name: string)
    requires name in {"package.json", "package-lock.json", "pnpm-lock.yaml", "yarn.lock", "bun.lock", "bun.lockb"}
             || name in {"Cargo.toml", "Cargo.lock", "pyproject.toml", "poetry.lock", "requirements.txt"}
             || name in {"go.mod", "go.sum", "Gemfile", "Gemfile.lock"}
    ensures DependencyFile(name) && DependencyFile(directory + "/" + name)
  {
    hide DEPENDENCY_FILES;
    ListedNames(name);
    var path := directory + "/" + name;
    assert path[|path| - |name| - 1..] == "/" + name;
  }

  lemma ListedNames(name: string)
    requires name in {"package.json", "package-lock.json", "pnpm-lock.yaml", "yarn.lock", "bun.lock", "bun.lockb"}
             || name in {"Cargo.toml", "Cargo.lock", "pyproject.toml", "poetry.lock", "requirements.txt"}
             || name in {"go.mod", "go.sum", "Gemfile", "Gemfile.lock"}
    ensures name in DEPENDENCY_FILES
  {
  }

  function LastPart(path: string): string {
    Split(path, '/')[|Split(path, '/')| - 1]
  }

  lemma {:induction false} LastPartMeans(path: string)
    ensures '/' !in LastPart(path) && (path == LastPart(path) || EndsWith(path, "/" + LastPart(path)))
  {
    hide Split, EndsWith;
    if '/' !in path {
      OnePart(path);
    } else {
      hide LastPart;
      var i :| 0 <= i < |path| && path[i] == '/';
      var front, rest := path[..i], path[i + 1..];
      assert path == front + ['/'] + rest;
      LastOfConcatenation(front, rest);
      LastPartMeans(rest);
      EndsStill(path, i + 1, LastPart(rest));
    }
  }

  lemma LastOfConcatenation(front: string, rest: string)
    ensures LastPart(front + ['/'] + rest) == LastPart(rest)
  {
    hide Split;
    SplitConcatenation(front, rest, '/');
  }

  lemma EndsStill(path: string, from: nat, last: string)
    requires 0 < from <= |path| && path[from - 1] == '/'
    requires path[from..] == last || EndsWith(path[from..], "/" + last)
    ensures EndsWith(path, "/" + last)
  {
    if path[from..] == last {
      assert path[from - 1..] == ['/'] + path[from..];
    } else {
      assert path[|path| - |last| - 1..] == path[from..][|path[from..]| - |last| - 1..];
    }
  }

  lemma OnePart(part: string)
    requires '/' !in part
    ensures Split(part, '/') == [part]
  {
    SplitAt(part, "", '/');
    assert part + "" == part && [part] + [""][1..] == [part];
  }

  /** The part after the last slash is found by what it ends. */
  lemma LastPartIs(path: string, last: string)
    requires '/' !in last
    ensures LastPart(path) == last <==> path == last || EndsWith(path, "/" + last)
  {
    LastPartMeans(path);
    OnePart(last);
    if EndsWith(path, "/" + last) {
      var front := path[..|path| - |last| - 1];
      assert path == front + ("/" + last) == front + "/" + last;
      SplitConcatenation(front, last, '/');
    }
  }

  /** Normalising changes at most a leading "./", and so no last part. */
  lemma NormalizingKeepsLastPart(path: string)
    requires '\\' !in path
    ensures LastPart(NormalizePath(path)) == LastPart(path)
  {
    hide LastPart;
    if "./" <= path {
      assert path == "." + ['/'] + path[2..];
      LastOfConcatenation(".", path[2..]);
    }
  }

  lemma DependencyNamesHaveNoSlash()
    ensures forall name :: name in DEPENDENCY_FILES ==> '/' !in name
  {
  }

  /** The check finds exactly the dependency files, at whatever depth. */
  lemma DependencyChangeMeans(filePath: string)
    ensures DependencyChange(filePath) <==> DependencyFile(NormalizePath(filePath))
  {
    hide Split, EndsWith;
    var path := NormalizePath(filePath);
    DependencyNamesHaveNoSlash();
    forall name | name in DEPENDENCY_FILES
      ensures LastPart(path) == name <==> path == name || EndsWith(path, "/" + name)
    {
      LastPartIs(path, name);
    }
  }

  lemma {:induction false} CodesOnPaths(files: seq<string>, policy: PlanPolicy, task: Task, v: Violation)
    ensures v in AllPathViolations(files, policy, task) <==> exists f :: f in files && v in PathViolations(f, policy, task)
  {
    hide PathViolations;
    if files != [] {
      var front, last := files[..|files| - 1], files[|files| - 1];
      CodesOnPaths(front, policy, task, v);
      assert forall f :: f in files <==> f in front || f == last;
    }
  }

  lemma DependencyCode(filePath: string, policy: PlanPolicy, task: Task, path: string)
    requires '\\' !in filePath
    ensures Violation(DependencyChangeDenied, Some(path)) in PathViolations(filePath, policy, task) <==>
            !policy.allowDependencyChanges.GetOr(false) && path == NormalizePath(filePath) && DependencyFile(filePath)
  {
    hide Split, DependencyChange, DependencyFile, MatchesAnyGlob;
    DependencyChangeMeans(NormalizePath(filePath));
    SameDependency(filePath);
    SameDependency(NormalizePath(filePath));
  }

  lemma SameDependency(path: string)
    requires '\\' !in path
    ensures DependencyFile(path) <==> DependencyFile(NormalizePath(path))
  {
    hide Split, EndsWith;
    DependencyNamesHaveNoSlash();
    NormalizingKeepsLastPart(path);
    forall name | name in DEPENDENCY_FILES
      ensures (path == name || EndsWith(path, "/" + name)) <==>
              (NormalizePath(path) == name || EndsWith(NormalizePath(path), "/" + name))
    {
      LastPartIs(path, name);
      LastPartIs(NormalizePath(path), name);
    }
  }

  /**
    * A decision reports a dependency change exactly if the plan does not permit them and a changed path is a
    * dependency file once normalised.
    */
  lemma DependencyChangesAreReported(policy: PlanPolicy, task: Task, attempt: int, patch: StagedPatch)
    ensures (exists path :: Violation(DependencyChangeDenied, Some(path)) in Decision(policy, task, attempt, patch).violations)
            <==> !policy.allowDependencyChanges.GetOr(false)
                 && exists f :: f in patch.changedFiles && DependencyFile(NormalizePath(f))
  {
    hide Violations, DependencyFile, NormalPaths;
    var violations := Decision(policy, task, attempt, patch).violations;
    forall path ensures Violation(DependencyChangeDenied, Some(path)) in violations <==>
                        exists n :: DependencyReported(policy, patch, n, path)
    {
      DependencyViolations(policy, task, patch, path);
    }
    if !policy.allowDependencyChanges.GetOr(false) {
      forall f | f in patch.changedFiles && DependencyFile(NormalizePath(f))
        ensures exists path :: Violation(DependencyChangeDenied, Some(path)) in violations
      {
        ChangedIsNormal(patch.changedFiles, f);
        var path := NormalizePath(NormalizePath(f));
        assert DependencyReported(policy, patch, NormalizePath(f), path);
        assert Violation(DependencyChangeDenied, Some(path)) in violations;
      }
    }
    forall n, path | DependencyReported(policy, patch, n, path)
      ensures exists f :: f in patch.changedFiles && DependencyFile(NormalizePath(f))
    {
      var f := NormalComesFrom(patch.changedFiles, n);
    }
  }

  /** The normal form `n` of a changed path is a dependency file that the plan does not permit. */
  ghost predicate DependencyReported(policy: PlanPolicy, patch: StagedPatch, n: string, path: string) {
    n in NormalPaths(patch.changedFiles) && path == NormalizePath(n) && DependencyFile(n)
    && !policy.allowDependencyChanges.GetOr(false)
  }

  lemma ChangedIsNormal(paths: seq<string>, f: string)
    requires f in paths
    ensures NormalizePath(f) in NormalPaths(paths)
  {
    var i :| 0 <= i < |paths| && paths[i] == f;
    assert NormalizeAll(paths)[i] == NormalizePath(f);
  }

  lemma NormalComesFrom(paths: seq<string>, n: string) returns (f: string)
    requires n in NormalPaths(paths)
    ensures f in paths && NormalizePath(f) == n
  {
    var i :| 0 <= i < |NormalizeAll(paths)| && NormalizeAll(paths)[i] == n;
    f := paths[i];
  }

  lemma DeniedAlone(paths: seq<string>, v: Violation)
    requires !v.code.PathDenied?
    ensures v !in DeniedEach(paths)
  {
  }

  lemma LimitsAlone(policy: PlanPolicy, task: Task, patch: StagedPatch, changed: nat, v: Violation)
    requires v.path.Some?
    ensures forall found :: v in WithLimits(found, policy, task, patch, changed) <==> v in found
  {
    hide BinaryPatch;
  }

  lemma DependencyViolations(policy: PlanPolicy, task: Task, patch: StagedPatch, path: string)
    ensures Violation(DependencyChangeDenied, Some(path)) in Violations(policy, task, patch) <==>
            exists n :: DependencyReported(policy, patch, n, path)
  {
    hide PathViolations, AllPathViolations, DependencyFile, NormalPaths, WithLimits, DeniedEach;
    var changed, v := NormalPaths(patch.changedFiles), Violation(DependencyChangeDenied, Some(path));
    CodesOnPaths(changed, policy, task, v);
    DeniedAlone(NormalPaths(patch.ignoredFiles), v);
    DeniedAlone(NormalPaths(patch.unsafeSymlinks), v);
    LimitsAlone(policy, task, patch, |changed|, v);
    NormalPathsAreSlashed(patch.changedFiles);
    forall n | n in changed
      ensures v in PathViolations(n, policy, task) <==> DependencyReported(policy, patch, n, path)
    {
      DependencyCode(n, policy, task, path);
    }
  }

  lemma NormalPathsAreSlashed(paths: seq<string>)
    ensures forall n :: n in NormalPaths(paths) ==> '\\' !in n
  {
    var all := NormalizeAll(paths);
    forall n | n in NormalPaths(paths) ensures '\\' !in n {
      var i :| 0 <= i < |all| && all[i] == n;
    }
  }

  /** Whatever plan and task say, a permitted path is no dependency file without permission, and never protected. */
  lemma PermittedMeans(policy: PlanPolicy, task: Task, filePath: string)
    requires Permitted(policy, task, NormalizePath(filePath))
    ensures DependencyFile(NormalizePath(filePath)) ==> policy.allowDependencyChanges.GetOr(false)
    ensures !Protected(NormalizePath(filePath))
  {
    hide DependencyFile, DependencyChange;
    var path := NormalizePath(filePath);
    DependencyChangeMeans(path);
    SameDependency(path);
    if Protected(path) {
      hide MatchesAnyGlob;
      ProtectedIsDenied(path);
    }
  }

  /** The paths below `.git`, `.machine` and `node_modules` match the lists that deny them. */
  lemma ProtectedIsDenied(path: string)
    requires Protected(path) && '\\' !in path
    ensures MatchesAnyGlob(path, DEFAULT_DENIED_PATHS)
  {
    hide MatchesAnyGlob;
    TopsAreDenied();
    if ".git/" <= path {
      BelowIsDenied(".git/", path);
    } else if ".machine/" <= path {
      BelowIsDenied(".machine/", path);
    } else {
      BelowIsDenied("node_modules/", path);
    }
  }

  lemma TopsAreDenied()
    ensures {".git/" + "**", ".machine/" + "**", "node_modules/" + "**"} <= set g | g in DEFAULT_DENIED_PATHS
  {
    assert ".git/" + "**" == ".git/**" && ".machine/" + "**" == ".machine/**";
    assert "node_modules/" + "**" == "node_modules/**";
  }

  lemma BelowIsDenied(top: string, path: string)
    requires top <= path && '\\' !in path && NoLineTerminators(path) && top + "**" in DEFAULT_DENIED_PATHS
    requires |top| > 1 && top[1] != '/' && '\\' !in top && '*' !in top && '?' !in top
    ensures MatchesAnyGlob(path, DEFAULT_DENIED_PATHS)
  {
    hide NormalizePath, GlobMatches, DEFAULT_DENIED_PATHS;
    var rest, glob := path[|top|..], top + "**";
    assert path == top + rest && path[0] == top[0] == glob[0] && path[1] == top[1] == glob[1];
    AlreadyNormal(path);
    AlreadyNormal(glob);
    assert forall i :: 0 <= i < |rest| ==> rest[i] == path[|top| + i];
    EverythingBelow(top, rest);
  }

  lemma AlreadyNormal(path: string)
    requires '\\' !in path && !("./" <= path)
    ensures NormalizePath(path) == path
  {
  }

  lemma {:induction false} EverythingBelow(top: string, rest: string)
    requires '*' !in top && '?' !in top && NoLineTerminators(rest)
    ensures GlobMatches(top + "**", top + rest, true)
  {
    if top == "" {
      assert top + "**" == "**" && top + rest == rest && "**"[2..] == "" && rest[..|rest|] == rest;
      assert rest[|rest|..] == "" && GlobMatches("", "", true);
    } else {
      assert (top + "**")[0] == top[0] && (top + "**")[1..] == top[1..] + "**";
      assert (top + rest)[0] == top[0] && (top + rest)[1..] == top[1..] + rest;
      EverythingBelow(top[1..], rest);
    }
  }

  /**
    * A patch that carries a binary change anywhere in its text is allowed only where the plan permits binary
    * changes.
    */
  lemma BinaryPatchesAreRefused(policy: PlanPolicy, task: Task, attempt: int, patch: StagedPatch, i: nat)
    requires i <= |patch.patch| && ("GIT binary patch" <= patch.patch[i..] || "Binary files " <= patch.patch[i..])
    requires Decision(policy, task, attempt, patch).allowed
    ensures policy.allowBinaryChanges.GetOr(false)
  {
    AllowedIffAccepted(policy, task, attempt, patch);
  }

  // ---- tightening ----

  /** Every limit and glob list of the first policy and task is at least as strict as the second's. */
  ghost predicate AtLeastAsStrict(p: PlanPolicy, t: Task, q: PlanPolicy, u: Task) {
    && (forall path :: MatchesAnyGlob(path, PlanAllowed(p)) && MatchesAnyGlob(path, TaskAllowed(t)) ==>
          MatchesAnyGlob(path, PlanAllowed(q)) && MatchesAnyGlob(path, TaskAllowed(u)))
    && (forall path :: MatchesAnyGlob(path, DeniedGlobs(q, u)) ==> MatchesAnyGlob(path, DeniedGlobs(p, t)))
    && FileLimit(p) <= FileLimit(q)
    && ByteLimit(p) <= ByteLimit(q)
    && (p.allowDependencyChanges.GetOr(false) ==> q.allowDependencyChanges.GetOr(false))
    && (p.allowBinaryChanges.GetOr(false) ==> q.allowBinaryChanges.GetOr(false))
    && (u.requireChanges.GetOr(true) ==> t.requireChanges.GetOr(true))
  }

  lemma PermittedAvoidsDenied(policy: PlanPolicy, task: Task, path: string)
    ensures Permitted(policy, task, path) <==>
            && MatchesAnyGlob(path, PlanAllowed(policy)) && MatchesAnyGlob(path, TaskAllowed(task))
            && !MatchesAnyGlob(path, DeniedGlobs(policy, task))
            && (DependencyChange(path) ==> policy.allowDependencyChanges.GetOr(false))
  {
    MatchesConcatenation(path, DEFAULT_DENIED_PATHS, policy.deniedPaths.GetOr([]));
    MatchesConcatenation(path, DEFAULT_DENIED_PATHS + policy.deniedPaths.GetOr([]), task.deniedPaths.GetOr([]));
  }

  /** Tightening never turns a rejection into an acceptance. */
  lemma TighteningIsMonotone(p: PlanPolicy, t: Task, q: PlanPolicy, u: Task, attempt: int, patch: StagedPatch)
    requires AtLeastAsStrict(p, t, q, u)
    requires Decision(p, t, attempt, patch).allowed
    ensures Decision(q, u, attempt, patch).allowed
  {
    AllowedIffAccepted(p, t, attempt, patch);
    AllowedIffAccepted(q, u, attempt, patch);
    forall path | path in PathSet(patch.changedFiles) ensures Permitted(q, u, NormalizePath(path)) {
      PermittedAvoidsDenied(p, t, NormalizePath(path));
      PermittedAvoidsDenied(q, u, NormalizePath(path));
    }
  }

  /** Shrinking the allowed lists, growing the denied lists and lowering the limits is tightening. */
  lemma ListsTighten(p: PlanPolicy, t: Task, q: PlanPolicy, u: Task)
    requires forall g :: g in PlanAllowed(p) ==> g in PlanAllowed(q)
    requires forall g :: g in TaskAllowed(t) ==> g in TaskAllowed(u)
    requires forall g :: g in DeniedGlobs(q, u) ==> g in DeniedGlobs(p, t)
    requires FileLimit(p) <= FileLimit(q) && ByteLimit(p) <= ByteLimit(q)
    requires p.allowDependencyChanges.GetOr(false) ==> q.allowDependencyChanges.GetOr(false)
    requires p.allowBinaryChanges.GetOr(false) ==> q.allowBinaryChanges.GetOr(false)
    requires u.requireChanges.GetOr(true) ==> t.requireChanges.GetOr(true)
    ensures AtLeastAsStrict(p, t, q, u)
  {
  }
}
