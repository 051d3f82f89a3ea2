/**
  * `compileMachinePlan` of packages/agent-runtime/src/engine/plan.ts on typed input: the checks, the
  * task order, the absolute repository path and the digest.
  */
module PlanCompiler {
  import opened Basics
  import opened Strings
  import opened PlanTypes
  import opened TaskGraph
  import opened CommandLine
  import opened CompiledPlans

  // ---- what a plan must satisfy ----

  const MAX_TASKS := 1_000
  const MAX_VALIDATIONS_PER_TASK := 100

  predicate IdCharacter(c: char, first: bool) {
    || 'A' <= c <= 'Z' || 'a' <= c <= 'z' || '0' <= c <= '9'
    || (!first && (c == '.' || c == '_' || c == ':' || c == '-'))
  }

  /** `ID_PATTERN`. */
  predicate ValidId(id: string) {
    1 <= |id| <= 128 && forall i :: 0 <= i < |id| ==> IdCharacter(id[i], i == 0)
  }

  predicate Filled(text: string) {
    Trim(text) != ""
  }

  /** `validateRelativePath`, with POSIX `isAbsolute`. */
  predicate RelativePath(path: string) {
    Filled(path) && path[0] != '/' && ".." !in Split(ForwardSlashes(path), '/') && '\0' !in path
  }

  predicate RelativePaths(paths: Option<seq<string>>) {
    paths.Some? ==> forall p :: p in paths.value ==> RelativePath(p)
  }

  predicate Within(value: Option<int>, minimum: int, maximum: int) {
    value.Some? ==> minimum <= value.value <= maximum
  }

  predicate CommandAccepted(v: ValidationCommand) {
    && ValidId(v.id) && Filled(v.executable) && SafeExecutable(v.executable)
    && (v.cwd.Some? ==> RelativePath(v.cwd.value))
    && Within(v.timeoutMs, 1, 3_600_000)
  }

  predicate WorkerAccepted(w: CliWorker) {
    && ValidId(w.id) && Filled(w.executable) && SafeExecutable(w.executable)
    && Within(w.timeoutMs, 1, 24 * 60 * 60 * 1_000)
    && Within(w.maxOutputBytes, 1, 64 * 1024 * 1024)
  }

  predicate TaskAccepted(t: Task) {
    && ValidId(t.id) && Filled(t.title) && Filled(t.objective)
    && (t.worker.Some? ==> ValidId(t.worker.value))
    && RelativePaths(t.allowedPaths) && RelativePaths(t.deniedPaths)
    && 1 <= |t.validations| <= MAX_VALIDATIONS_PER_TASK
    && (forall v :: v in t.validations ==> CommandAccepted(v))
    && Within(t.maxAttempts, 1, 10)
  }

  predicate PolicyAccepted(policy: Option<PlanPolicy>) {
    policy.Some? ==>
      && RelativePaths(policy.value.allowedPaths) && RelativePaths(policy.value.deniedPaths)
      && Within(policy.value.maxChangedFiles, 1, 100_000)
      && Within(policy.value.maxPatchBytes, 1, 128 * 1024 * 1024)
  }

  predicate WorkersAccepted(workers: seq<CliWorker>) {
    && (forall w :: w in workers ==> WorkerAccepted(w))
    && (forall i, j :: 0 <= i < j < |workers| ==> workers[i].id != workers[j].id)
  }

  predicate StrategyAccepted(s: WorkerStrategy) {
    ValidId(s.primary) && (s.fallbacks.Some? ==> forall w :: w in s.fallbacks.value ==> ValidId(w))
  }

  /** Everything but the task graph. */
  predicate HeadAccepted(plan: Plan) {
    && plan.version == 1 && ValidId(plan.id) && Filled(plan.title) && Filled(plan.repositoryPath)
    && (plan.workers.Some? ==> WorkersAccepted(plan.workers.value))
    && StrategyAccepted(plan.workerStrategy)
    && PolicyAccepted(plan.policy)
  }

  predicate TasksAccepted(tasks: seq<Task>) {
    && 1 <= |tasks| <= MAX_TASKS
    && (forall t :: t in tasks ==> TaskAccepted(t))
    && (forall i, j :: 0 <= i < j < |tasks| ==> tasks[i].id != tasks[j].id)
  }

  /** The plans the compiler accepts: the graph part is stated by what it means. */
  ghost predicate Accepted(plan: Plan) {
    HeadAccepted(plan) && TasksAccepted(plan.tasks) && AllKnown(plan.tasks) && Acyclic(plan.tasks)
  }

  // ---- absolute paths ----

  /** `path.posix.normalize` on segments: "." and empty segments vanish, ".." removes its predecessor. */
  function Normalized(done: seq<string>, parts: seq<string>): (r: seq<string>)
    requires forall p :: p in done ==> Proper(p)
    ensures (forall p :: p in parts ==> '/' !in p) ==> forall p :: p in r ==> Proper(p)
    decreases |parts|
  {
    if parts == [] then done
    else if parts[0] == "" || parts[0] == "." || '/' in parts[0] then Normalized(done, parts[1..])
    else if parts[0] == ".." then Normalized(if done == [] then [] else done[..|done| - 1], parts[1..])
    else Normalized(done + [parts[0]], parts[1..])
  }

  predicate Proper(segment: string) {
    segment != "" && segment != "." && segment != ".." && '/' !in segment
  }

  function Joined(segments: seq<string>): string {
    if segments == [] then "" else "/" + segments[0] + Joined(segments[1..])
  }

  /** `resolve(from, path)` for an absolute directory `from`. */
  function ResolvePath(from: string, path: string): string {
    var joined := if path != "" && path[0] == '/' then path else from + "/" + path;
    var segments := Normalized([], Split(joined, '/'));
    if segments == [] then "/" else Joined(segments)
  }

  lemma {:induction false} JoinedSplits(segments: seq<string>)
    requires forall p :: p in segments ==> Proper(p)
    ensures Split(Joined(segments), '/') == [""] + segments
    ensures segments != [] ==> Joined(segments) != "" && Joined(segments)[0] == '/'
    decreases |segments|
  {
    hide Split, Proper, Joined;
    JoinedUnfolds(segments);
    if segments == [] {
      EmptySplits();
    } else {
      var rest := Joined(segments[1..]);
      assert segments[0] in segments && forall p :: p in segments[1..] ==> p in segments;
      JoinedSplits(segments[1..]);
      ProperHasNoSlash(segments[0]);
      JoinedUnfolds(segments[1..]);
      SplitAt(segments[0], rest, '/');
      SplitAfter(segments[0] + rest, '/');
      assert Joined(segments) == "/" + (segments[0] + rest);
      assert ([""] + segments[1..])[1..] == segments[1..];
      assert [segments[0]] + segments[1..] == segments;
    }
  }

  lemma JoinedUnfolds(segments: seq<string>)
    ensures Joined(segments) == if segments == [] then "" else "/" + segments[0] + Joined(segments[1..])
  {
  }

  lemma EmptySplits()
    ensures Split("", '/') == [""] && [""] + [] == [""]
  {
  }

  lemma ProperHasNoSlash(segment: string)
    requires Proper(segment)
    ensures '/' !in segment
  {
  }

  lemma {:induction false} ProperStays(done: seq<string>, parts: seq<string>)
    requires forall p :: p in done ==> Proper(p)
    requires forall p :: p in parts ==> Proper(p)
    ensures Normalized(done, parts) == done + parts
    decreases |parts|
  {
    if parts == [] {
      assert done + parts == done;
    } else {
      assert parts[0] in parts;
      ProperStays(done + [parts[0]], parts[1..]);
      assert done + [parts[0]] + parts[1..] == done + parts;
    }
  }

  function Segments(from: string, path: string): (r: seq<string>) {
    Normalized([], Split(if path != "" && path[0] == '/' then path else from + "/" + path, '/'))
  }

  /** A resolved path is absolute, and resolving it again, from anywhere, changes nothing. */
  lemma ResolvingIsIdempotent(from: string, path: string, elsewhere: string)
    ensures ResolvePath(from, path) != "" && ResolvePath(from, path)[0] == '/'
    ensures ResolvePath(elsewhere, ResolvePath(from, path)) == ResolvePath(from, path)
  {
    hide Normalized, Joined, Split, Proper;
    SplitParts(if path != "" && path[0] == '/' then path else from + "/" + path);
    var segments := Segments(from, path);
    if segments == [] {
      RootResolves();
    } else {
      JoinedSplits(segments);
      JoinedNormalizes(segments);
    }
  }

  lemma JoinedNormalizes(segments: seq<string>)
    requires forall p :: p in segments ==> Proper(p)
    ensures Normalized([], [""] + segments) == segments
  {
    hide Proper;
    assert ([""] + segments)[1..] == segments;
    ProperStays([], segments);
    assert [] + segments == segments;
  }

  lemma RootResolves()
    ensures Normalized([], Split("/", '/')) == []
  {
    assert "/"[1..] == "" && ["", ""][1..] == [""] && [""][1..] == [];
  }

  // ---- what resolving means ----

  /** An absolute directory in its resolved form. */
  predicate Resolved(directory: string) {
    ResolvePath("/", directory) == directory
  }

  /** The entry of a directory. */
  function Below(directory: string, segment: string): string {
    if directory == "/" then "/" + segment else directory + "/" + segment
  }

  function Shown(segments: seq<string>): string {
    if segments == [] then "/" else Joined(segments)
  }

  lemma {:induction false} NormalizedConcatenation(done: seq<string>, a: seq<string>, b: seq<string>)
    requires (forall p :: p in done ==> Proper(p)) && (forall p :: p in a ==> '/' !in p)
    ensures Normalized(done, a + b) == Normalized(Normalized(done, a), b)
    decreases |a|
  {
    if a == [] {
      assert a + b == b;
    } else {
      assert a[0] in a && (a + b)[0] == a[0] && (a + b)[1..] == a[1..] + b;
      if a[0] == "" || a[0] == "." {
        NormalizedConcatenation(done, a[1..], b);
      } else if a[0] == ".." {
        NormalizedConcatenation(if done == [] then [] else done[..|done| - 1], a[1..], b);
      } else {
        NormalizedConcatenation(done + [a[0]], a[1..], b);
      }
    }
  }

  lemma SegmentsAreProper(from: string, path: string)
    ensures forall p :: p in Segments(from, path) ==> Proper(p)
    ensures ResolvePath(from, path) == Shown(Segments(from, path))
  {
    hide Normalized, Joined, Split, Proper;
    SplitParts(if path != "" && path[0] == '/' then path else from + "/" + path);
  }

  lemma ShownNormalizes(segments: seq<string>)
    requires forall p :: p in segments ==> Proper(p)
    ensures Normalized([], Split(Shown(segments), '/')) == segments
    ensures forall p :: p in Split(Shown(segments), '/') ==> '/' !in p
  {
    hide Normalized, Joined, Split, Proper;
    SplitParts(Shown(segments));
    if segments == [] {
      RootResolves();
    } else {
      JoinedSplits(segments);
      JoinedNormalizes(segments);
    }
  }

  /** A relative path continues from the segments of its directory. */
  lemma RelativeContinues(segments: seq<string>, path: string)
    requires forall p :: p in segments ==> Proper(p)
    requires path == "" || path[0] != '/'
    ensures Segments(Shown(segments), path) == Normalized(segments, Split(path, '/'))
  {
    hide Normalized, Joined, Split, Proper;
    ShownNormalizes(segments);
    SplitConcatenation(Shown(segments), path, '/');
    NormalizedConcatenation([], Split(Shown(segments), '/'), Split(path, '/'));
  }

  lemma {:induction false} JoinedAppends(segments: seq<string>, last: string)
    ensures Joined(segments + [last]) == Joined(segments) + "/" + last
  {
    if segments == [] {
      assert [last][1..] == [] && segments + [last] == [last];
    } else {
      JoinedAppends(segments[1..], last);
      assert (segments + [last])[1..] == segments[1..] + [last] && (segments + [last])[0] == segments[0];
    }
  }

  lemma ShownAppends(segments: seq<string>, last: string)
    requires forall p :: p in segments ==> Proper(p)
    ensures Shown(segments + [last]) == Below(Shown(segments), last)
  {
    JoinedAppends(segments, last);
    if segments != [] {
      assert segments[0] in segments;
      assert |Joined(segments)| >= 2;
    }
  }

  lemma OneSegment(segment: string)
    requires '/' !in segment
    ensures Split(segment, '/') == [segment]
  {
    SplitAt(segment, "", '/');
    assert segment + "" == segment && [segment] + [""][1..] == [segment];
  }

  lemma OneProper(segments: seq<string>, segment: string)
    requires (forall p :: p in segments ==> Proper(p)) && Proper(segment)
    ensures Normalized(segments, [segment]) == segments + [segment]
  {
    assert [segment][1..] == [];
  }

  lemma OneDotted(segments: seq<string>)
    requires forall p :: p in segments ==> Proper(p)
    ensures Normalized(segments, ["."]) == segments && Normalized(segments, [""]) == segments
    ensures Normalized(segments, [".."]) == if segments == [] then [] else segments[..|segments| - 1]
  {
    assert ["."][1..] == [] && [""][1..] == [] && [".."][1..] == [];
  }

  /** The rules of one segment, read from a resolved directory: down, up again, and nowhere. */
  lemma ResolvingWalks(directory: string, segment: string)
    requires Resolved(directory) && Proper(segment)
    ensures ResolvePath(directory, segment) == Below(directory, segment) && Resolved(Below(directory, segment))
    ensures ResolvePath(Below(directory, segment), "..") == directory
    ensures ResolvePath("/", "..") == "/" && ResolvePath(directory, "/") == "/"
    ensures ResolvePath(directory, ".") == ResolvePath(directory, "") == directory
  {
    hide Normalized, Joined, Split, Proper, ResolvePath;
    var segments := Segments("/", directory);
    SegmentsAreProper("/", directory);
    SegmentsAreProper(directory, segment);
    ResolvingIsIdempotent(directory, segment, "/");
    ProperHasNoSlash(segment);
    ProperIsNotEmpty(segment);
    OneSegment(segment);
    OneProper(segments, segment);
    RelativeContinues(segments, segment);
    ShownAppends(segments, segment);
    UpAgain(segments, segment);
    AtRoot(directory);
    Standing(directory, segments);
  }

  lemma ProperIsNotEmpty(segment: string)
    requires Proper(segment)
    ensures segment != "" && segment[0] != '/'
  {
    assert segment[0] in segment;
  }

  lemma UpAgain(segments: seq<string>, segment: string)
    requires (forall p :: p in segments ==> Proper(p)) && Proper(segment)
    ensures ResolvePath(Shown(segments + [segment]), "..") == Shown(segments)
  {
    hide Normalized, Joined, Split, Proper, ResolvePath;
    var longer := segments + [segment];
    SegmentsAreProper(Shown(longer), "..");
    RelativeContinues(longer, "..");
    OneSegment("..");
    OneDotted(longer);
    assert longer[..|longer| - 1] == segments;
  }

  lemma AtRoot(directory: string)
    ensures ResolvePath("/", "..") == "/" && ResolvePath(directory, "/") == "/"
  {
    hide Normalized, Joined, Split, Proper, ResolvePath;
    SegmentsAreProper("/", "..");
    RelativeContinues([], "..");
    OneSegment("..");
    OneDotted([]);
    SegmentsAreProper(directory, "/");
    RootResolves();
  }

  lemma Standing(directory: string, segments: seq<string>)
    requires (forall p :: p in segments ==> Proper(p)) && directory == Shown(segments)
    ensures ResolvePath(directory, ".") == ResolvePath(directory, "") == directory
  {
    hide Normalized, Joined, Split, Proper, ResolvePath;
    SegmentsAreProper(directory, ".");
    SegmentsAreProper(directory, "");
    RelativeContinues(segments, ".");
    RelativeContinues(segments, "");
    OneSegment(".");
    OneSegment("");
    OneDotted(segments);
  }

  /** Resolving a path is resolving its parts one after the other, and an absolute path forgets the directory. */
  lemma ResolvingConcatenates(from: string, elsewhere: string, path: string, rest: string)
    requires path != "" && (rest == "" || rest[0] != '/')
    ensures ResolvePath(from, path + "/" + rest) == ResolvePath(ResolvePath(from, path), rest)
    ensures path[0] == '/' ==> ResolvePath(from, path) == ResolvePath(elsewhere, path)
    ensures ResolvePath(from, "/" + rest) == ResolvePath("/", rest)
  {
    hide Normalized, Joined, Split, Proper;
    var start := if path[0] == '/' then path else from + "/" + path;
    var segments := Segments(from, path);
    SegmentsAreProper(from, path);
    SplitParts(start);
    assert (path + "/" + rest)[0] == path[0];
    assert from + "/" + (path + "/" + rest) == (from + "/" + path) + "/" + rest;
    SplitConcatenation(start, rest, '/');
    NormalizedConcatenation([], Split(start, '/'), Split(rest, '/'));
    RelativeContinues(segments, rest);
    RootedRest(from, rest);
  }

  /** The directory to resolve from need not be resolved itself. */
  lemma ResolvingFromUnresolved(from: string, path: string)
    requires from != "" && from[0] == '/' && (path == "" || path[0] != '/')
    ensures ResolvePath(from, path) == ResolvePath(ResolvePath("/", from), path)
  {
    hide Normalized, Joined, Split, Proper;
    ResolvingConcatenates("/", "/", from, path);
    assert (from + "/" + path)[0] == '/';
  }

  lemma RootedRest(from: string, rest: string)
    requires rest == "" || rest[0] != '/'
    ensures ResolvePath(from, "/" + rest) == ResolvePath("/", rest)
  {
    hide Joined, Split, Proper;
    SplitAfter(rest, '/');
    SplitAfter("/" + rest, '/');
    assert "/" + "/" + rest == ['/'] + ("/" + rest) && "/" + rest == ['/'] + rest;
    assert ([""] + Split(rest, '/'))[1..] == Split(rest, '/');
    assert ([""] + Split("/" + rest, '/'))[1..] == Split("/" + rest, '/');
  }

  // ---- the compiled plan ----

  /** `digestPlan`: any function of the plan; `CanonicalJson` says what its canonical form tells apart. */
  type PlanHash = Plan -> string

  function Absolute(plan: Plan, from: string): Plan {
    plan.(repositoryPath := ResolvePath(from, plan.repositoryPath))
  }

  ghost function Compiled(plan: Plan, from: string, hash: PlanHash): CompiledPlan {
    CompiledPlan(Absolute(plan, from), hash(Absolute(plan, from)), Graph(plan.tasks).order)
  }

  /** The compiled repository path of the plan with another path written in it. */
  ghost function RepositoryAt(plan: Plan, path: string, from: string, hash: PlanHash): string {
    Compiled(plan.(repositoryPath := path), from, hash).plan.repositoryPath
  }

  /**
    * Where a compiled plan's repository is. "." is the plan's own directory, a segment is its entry, ".." of an
    * entry is the directory again, "../.." two levels up, and "/" is the root from everywhere.
    */
  lemma RepositoryPathWalks(plan: Plan, directory: string, s: string, t: string, hash: PlanHash)
    requires Resolved(directory) && Proper(s) && Proper(t)
    ensures RepositoryAt(plan, ".", directory, hash) == directory
    ensures RepositoryAt(plan, s, directory, hash) == Below(directory, s)
    ensures RepositoryAt(plan, "..", Below(directory, s), hash) == directory
    ensures RepositoryAt(plan, "../..", Below(Below(directory, s), t), hash) == directory
    ensures RepositoryAt(plan, "/", directory, hash) == "/" && RepositoryAt(plan, "..", "/", hash) == "/"
  {
    hide Graph, ResolvePath, Proper;
    ResolvingWalks(directory, s);
    ResolvingWalks(Below(directory, s), t);
    ResolvingConcatenates(Below(Below(directory, s), t), "/", "..", "..");
    assert ".." + "/" + ".." == "../..";
  }

  /** A longer path is followed from where the shorter one leads; an absolute one leads there from everywhere. */
  lemma RepositoryPathConcatenates(plan: Plan, path: string, rest: string, from: string, elsewhere: string,
                                   hash: PlanHash)
    requires path != "" && (rest == "" || rest[0] != '/')
    ensures RepositoryAt(plan, path + "/" + rest, from, hash) ==
            RepositoryAt(plan, rest, RepositoryAt(plan, path, from, hash), hash)
    ensures Resolved(RepositoryAt(plan, path, from, hash))
    ensures path[0] == '/' ==> RepositoryAt(plan, path, from, hash) == RepositoryAt(plan, path, elsewhere, hash)
    ensures RepositoryAt(plan, "/" + rest, from, hash) == RepositoryAt(plan, rest, "/", hash)
  {
    hide Graph, ResolvePath;
    ResolvingConcatenates(from, elsewhere, path, rest);
    ResolvingIsIdempotent(from, path, "/");
  }

  // ---- what the checks on texts mean ----

  /** A path the checks accept never leads out of the directory it is resolved from. */
  lemma RelativePathsStayInside(root: string, path: string)
    requires Resolved(root) && RelativePath(path)
    ensures ResolvePath(root, path) == root || Below(root, "") <= ResolvePath(root, path)
  {
    hide Normalized, Joined, Split, Proper, Filled, ResolvePath, Below;
    var segments := Segments("/", root);
    SegmentsAreProper("/", root);
    SegmentsAreProper(root, path);
    RelativeContinues(segments, path);
    ParentsSurvive(path);
    SplitParts(path);
    var below := NeverUp(segments, Split(path, '/'));
    ShownGrows(segments, below);
  }

  /** Without "..", segments are only added. */
  lemma {:induction false} NeverUp(done: seq<string>, parts: seq<string>) returns (below: seq<string>)
    requires forall p :: p in done ==> Proper(p)
    requires ".." !in parts && forall p :: p in parts ==> '/' !in p
    ensures Normalized(done, parts) == done + below
    ensures forall p :: p in below ==> Proper(p)
    decreases |parts|
  {
    if parts == [] {
      below := [];
    } else if parts[0] == "" || parts[0] == "." {
      below := NeverUp(done, parts[1..]);
    } else {
      assert parts[0] in parts;
      var rest := NeverUp(done + [parts[0]], parts[1..]);
      below := [parts[0]] + rest;
      assert done + [parts[0]] + rest == done + below;
    }
  }

  lemma {:induction false} JoinedConcatenation(a: seq<string>, b: seq<string>)
    ensures Joined(a + b) == Joined(a) + Joined(b)
  {
    if a == [] {
      assert a + b == b;
    } else {
      JoinedConcatenation(a[1..], b);
      assert (a + b)[1..] == a[1..] + b && (a + b)[0] == a[0];
    }
  }

  lemma ShownGrows(segments: seq<string>, below: seq<string>)
    requires forall p :: p in segments ==> Proper(p)
    ensures Shown(segments + below) == Shown(segments) || Below(Shown(segments), "") <= Shown(segments + below)
  {
    if below == [] {
      assert segments + below == segments;
    } else {
      JoinedConcatenation(segments, below);
      JoinedUnfolds(below);
      if segments != [] {
        assert segments[0] in segments;
        assert |Joined(segments)| >= 2;
        assert Joined(segments) + ("/" + (below[0] + Joined(below[1..]))) == Shown(segments + below);
      }
    }
  }

  /** A ".." between slashes is one between forward slashes. */
  lemma ParentsSurvive(path: string)
    ensures ".." in Split(path, '/') ==> ".." in Split(ForwardSlashes(path), '/')
  {
    hide Split, ForwardSlashes;
    var parts, slashed := Split(path, '/'), Split(ForwardSlashes(path), '/');
    PartsSurvive(path);
    if ".." in parts && ".." != parts[0] {
      assert ".." in parts[1..];
      assert ".." in slashed[1..];
    }
  }

  lemma {:induction false} PartsSurvive(path: string)
    ensures var parts, slashed := Split(path, '/'), Split(ForwardSlashes(path), '/');
            && ('\\' !in parts[0] ==> slashed[0] == parts[0])
            && (forall p :: p in parts[1..] && '\\' !in p ==> p in slashed[1..])
  {
    if path != "" {
      PartsSurvive(path[1..]);
      var rest, slashed := Split(path[1..], '/'), Split(ForwardSlashes(path[1..]), '/');
      assert ForwardSlashes(path)[1..] == ForwardSlashes(path[1..]);
      if path[0] == '/' || path[0] == '\\' {
        assert Split(ForwardSlashes(path), '/')[1..] == slashed;
        assert slashed == [slashed[0]] + slashed[1..] && rest == [rest[0]] + rest[1..];
      } else {
        assert Split(path, '/')[1..] == rest[1..];
        assert Split(ForwardSlashes(path), '/')[1..] == slashed[1..];
      }
    }
  }

  /** Two dots that make up a whole segment, whichever way the slashes lean. */
  predicate ClimbsAt(path: string, i: nat) {
    && i + 2 <= |path| && path[i] == path[i + 1] == '.'
    && (i == 0 || path[i - 1] == '/' || path[i - 1] == '\\')
    && (i + 2 == |path| || path[i + 2] == '/' || path[i + 2] == '\\')
  }

  /** The paths accepted: with something in them, not absolute, without a NUL, and nowhere climbing. */
  lemma RelativePathMeans(path: string)
    ensures RelativePath(path) <==>
            && (exists i :: 0 <= i < |path| && !IsSpace(path[i])) && path[0] != '/'
            && (forall i :: 0 <= i < |path| ==> path[i] != '\0') && (forall i: nat :: !ClimbsAt(path, i))
  {
    hide Filled, Split, SegmentAt, ClimbsAt;
    FilledMeans(path);
    var slashed := ForwardSlashes(path);
    forall i: nat ensures ClimbsAt(path, i) <==> SegmentAt(slashed, "..", '/', i) {
      ClimbingIsASegment(path, i);
    }
    if ".." in Split(slashed, '/') {
      var k :| 0 <= k < |Split(slashed, '/')| && Split(slashed, '/')[k] == "..";
      var i := PartStandsBetween(slashed, '/', k);
      assert ClimbsAt(path, i);
    }
    if i: nat :| ClimbsAt(path, i) {
      BetweenIsPart(slashed, "..", '/', i);
    }
  }

  lemma ClimbingIsASegment(path: string, i: nat)
    ensures ClimbsAt(path, i) <==> SegmentAt(ForwardSlashes(path), "..", '/', i)
  {
    ForwardSlashesMean(path);
    if i + 2 <= |path| {
      assert ForwardSlashes(path)[i..i + 2] == [ForwardSlashes(path)[i], ForwardSlashes(path)[i + 1]];
    }
  }

  const UPPER := {'A', 'B', 'C', 'D', 'E', 'F', 'G', 'H', 'I', 'J', 'K', 'L', 'M', 'N', 'O', 'P', 'Q', 'R', 'S',
    'T', 'U', 'V', 'W', 'X', 'Y', 'Z'}

  const LOWER := {'a', 'b', 'c', 'd', 'e', 'f', 'g', 'h', 'i', 'j', 'k', 'l', 'm', 'n', 'o', 'p', 'q', 'r', 's',
    't', 'u', 'v', 'w', 'x', 'y', 'z'}

  const DIGITS := {'0', '1', '2', '3', '4', '5', '6', '7', '8', '9'}

  predicate Alphanumeric(c: char) {
    c in UPPER || c in LOWER || c in DIGITS
  }

  /** The ids accepted, by their alphabet. */
  lemma ValidIdMeans(id: string)
    ensures ValidId(id) <==>
            && 1 <= |id| <= 128 && Alphanumeric(id[0])
            && forall i :: 1 <= i < |id| ==> Alphanumeric(id[i]) || id[i] in {'.', '_', ':', '-'}
  {
    hide IdCharacter, Alphanumeric;
    forall i | 0 <= i < |id|
      ensures IdCharacter(id[i], i == 0) <==> Alphanumeric(id[i]) || (i > 0 && id[i] in {'.', '_', ':', '-'})
    {
      AlphabetMeans(id[i], i == 0);
    }
  }

  lemma AlphabetMeans(c: char, first: bool)
    ensures IdCharacter(c, first) <==> Alphanumeric(c) || (!first && c in {'.', '_', ':', '-'})
  {
    UpperMeans(c);
    LowerMeans(c);
    DigitMeans(c);
  }

  lemma DigitMeans(c: char)
    ensures '0' <= c <= '9' <==> c in DIGITS
  {
  }

  lemma UpperMeans(c: char)
    ensures 'A' <= c <= 'Z' <==> c in UPPER
  {
  }

  lemma LowerMeans(c: char)
    ensures 'a' <= c <= 'z' <==> c in LOWER
  {
  }

  /** An id is one segment of a path: run directories stay where they belong. */
  lemma IdsAreSegments(id: string)
    requires ValidId(id)
    ensures Proper(id)
  {
    assert IdCharacter(id[0], true);
  }

  /** A text is filled exactly if it has a character that is not white space. */
  lemma FilledMeans(text: string)
    ensures Filled(text) <==> exists i :: 0 <= i < |text| && !IsSpace(text[i])
  {
    var before, after := TrimSplits(text);
    if Filled(text) {
      assert text[|before|] == Trim(text)[0];
    }
  }

  lemma {:induction false} SetSizeTellsRepeats(xs: seq<string>)
    ensures |set x | x in xs| <= |xs|
    ensures |set x | x in xs| == |xs| <==> Distinct(xs)
  {
    if xs != [] {
      hide Distinct;
      var rest, seen := xs[1..], set x | x in xs[1..];
      SetSizeTellsRepeats(rest);
      OneMoreDistinct(xs);
      assert (set x | x in xs) == seen + {xs[0]};
    }
  }

  lemma OneMoreDistinct(xs: seq<string>)
    requires xs != []
    ensures Distinct(xs) <==> Distinct(xs[1..]) && xs[0] !in xs[1..]
  {
    var rest := xs[1..];
    assert forall k :: 0 <= k < |rest| ==> rest[k] == xs[k + 1];
  }

  // ---- the validators: each adds an error for every check that fails ----

  function Unless(errors: seq<string>, condition: bool, error: string): (r: seq<string>)
    ensures errors <= r && (r == errors <==> condition)
  {
    if condition then errors else errors + [error]
  }

  method ValidateCommand(v: ValidationCommand, errors: seq<string>) returns (found: seq<string>)
    ensures errors <= found && (found == errors <==> CommandAccepted(v))
  {
    found := Unless(errors, ValidId(v.id), "id");
    found := Unless(found, Filled(v.executable), "executable");
    if Filled(v.executable) {
      found := Unless(found, SafeExecutable(v.executable), "executable");
    }
    if v.cwd.Some? {
      found := Unless(found, RelativePath(v.cwd.value), "cwd");
    }
    found := Unless(found, Within(v.timeoutMs, 1, 3_600_000), "timeoutMs");
  }

  method ValidateWorker(w: CliWorker, errors: seq<string>) returns (found: seq<string>)
    ensures errors <= found && (found == errors <==> WorkerAccepted(w))
  {
    found := Unless(errors, ValidId(w.id), "id");
    found := Unless(found, Filled(w.executable), "executable");
    if Filled(w.executable) {
      found := Unless(found, SafeExecutable(w.executable), "executable");
    }
    found := Unless(found, Within(w.timeoutMs, 1, 24 * 60 * 60 * 1_000), "timeoutMs");
    found := Unless(found, Within(w.maxOutputBytes, 1, 64 * 1024 * 1024), "maxOutputBytes");
  }

  method ValidatePathPatterns(paths: Option<seq<string>>, errors: seq<string>) returns (found: seq<string>)
    ensures errors <= found && (found == errors <==> RelativePaths(paths))
  {
    found := errors;
    if paths.None? {
      return;
    }
    for index := 0 to |paths.value|
      invariant errors <= found
      invariant found == errors <==> forall p :: p in paths.value[..index] ==> RelativePath(p)
    {
      found := Unless(found, RelativePath(paths.value[index]), "path");
      assert paths.value[..index + 1] == paths.value[..index] + [paths.value[index]];
    }
    assert paths.value[..|paths.value|] == paths.value;
  }

  method ValidateCommands(commands: seq<ValidationCommand>, errors: seq<string>) returns (found: seq<string>)
    ensures errors <= found && (found == errors <==> forall v :: v in commands ==> CommandAccepted(v))
  {
    found := errors;
    for index := 0 to |commands|
      invariant errors <= found
      invariant found == errors <==> forall v :: v in commands[..index] ==> CommandAccepted(v)
    {
      found := ValidateCommand(commands[index], found);
      assert commands[..index + 1] == commands[..index] + [commands[index]];
    }
    assert commands[..|commands|] == commands;
  }

  method ValidateTask(t: Task, errors: seq<string>) returns (found: seq<string>)
    ensures errors <= found && (found == errors <==> TaskAccepted(t))
  {
    hide ValidId, Filled, RelativePaths, CommandAccepted, Within;
    found := Unless(errors, ValidId(t.id), "id");
    found := Unless(found, Filled(t.title), "title");
    found := Unless(found, Filled(t.objective), "objective");
    if t.worker.Some? {
      found := Unless(found, ValidId(t.worker.value), "worker");
    }
    found := ValidatePathPatterns(t.allowedPaths, found);
    found := ValidatePathPatterns(t.deniedPaths, found);
    if |t.validations| == 0 {
      found := found + ["validations"];
    } else if |t.validations| > MAX_VALIDATIONS_PER_TASK {
      found := found + ["validations"];
    } else {
      found := ValidateCommands(t.validations, found);
    }
    found := Unless(found, Within(t.maxAttempts, 1, 10), "maxAttempts");
  }

  method ValidatePolicy(policy: Option<PlanPolicy>, errors: seq<string>) returns (found: seq<string>)
    ensures errors <= found && (found == errors <==> PolicyAccepted(policy))
  {
    hide RelativePaths, Within;
    found := errors;
    if policy.None? {
      return;
    }
    found := ValidatePathPatterns(policy.value.allowedPaths, found);
    found := ValidatePathPatterns(policy.value.deniedPaths, found);
    found := Unless(found, Within(policy.value.maxChangedFiles, 1, 100_000), "maxChangedFiles");
    found := Unless(found, Within(policy.value.maxPatchBytes, 1, 128 * 1024 * 1024), "maxPatchBytes");
  }

  method ValidateWorkers(workers: seq<CliWorker>, errors: seq<string>) returns (found: seq<string>)
    ensures errors <= found && (found == errors <==> WorkersAccepted(workers))
  {
    hide WorkerAccepted;
    found := errors;
    for index := 0 to |workers|
      invariant errors <= found
      invariant found == errors <==> forall w :: w in workers[..index] ==> WorkerAccepted(w)
    {
      found := ValidateWorker(workers[index], found);
      assert workers[..index + 1] == workers[..index] + [workers[index]];
    }
    assert workers[..|workers|] == workers;
    var ids := seq(|workers|, i requires 0 <= i < |workers| => workers[i].id);
    SetSizeTellsRepeats(ids);
    assert Distinct(ids) <==> forall i, j :: 0 <= i < j < |workers| ==> workers[i].id != workers[j].id by {
      assert forall i :: 0 <= i < |workers| ==> ids[i] == workers[i].id;
    }
    found := Unless(found, |set id | id in ids| == |ids|, "workers");
  }

  method ValidateStrategy(s: WorkerStrategy, errors: seq<string>) returns (found: seq<string>)
    ensures errors <= found && (found == errors <==> StrategyAccepted(s))
  {
    hide ValidId;
    found := Unless(errors, ValidId(s.primary), "primary");
    if s.fallbacks.Some? {
      found := Unless(found, forall w :: w in s.fallbacks.value ==> ValidId(w), "fallbacks");
    }
  }

  method ValidateHead(plan: Plan, errors: seq<string>) returns (found: seq<string>)
    ensures errors <= found && (found == errors <==> HeadAccepted(plan))
  {
    hide ValidId, Filled, WorkersAccepted, StrategyAccepted, PolicyAccepted;
    found := Unless(errors, plan.version == 1, "version");
    found := Unless(found, ValidId(plan.id), "id");
    found := Unless(found, Filled(plan.title), "title");
    found := Unless(found, Filled(plan.repositoryPath), "repository.path");
    if plan.workers.Some? {
      found := ValidateWorkers(plan.workers.value, found);
    }
    found := ValidateStrategy(plan.workerStrategy, found);
    found := ValidatePolicy(plan.policy, found);
  }

  method ValidateTasks(tasks: seq<Task>, errors: seq<string>) returns (found: seq<string>)
    requires 1 <= |tasks| <= MAX_TASKS
    ensures errors <= found && (found == errors <==> TasksAccepted(tasks))
  {
    hide TaskAccepted;
    found := errors;
    for index := 0 to |tasks|
      invariant errors <= found
      invariant found == errors <==> forall t :: t in tasks[..index] ==> TaskAccepted(t)
    {
      found := ValidateTask(tasks[index], found);
      assert tasks[..index + 1] == tasks[..index] + [tasks[index]];
    }
    assert tasks[..|tasks|] == tasks;
    var ids := Ids(tasks);
    SetSizeTellsRepeats(ids);
    found := Unless(found, |set id | id in ids| == |ids|, "tasks");
  }

  /** `compileMachinePlan`: compiles exactly the accepted plans. */
  method CompileMachinePlan(plan: Plan, from: string, hash: PlanHash) returns (r: Exit<CompiledPlan>)
    ensures r.Done? <==> Accepted(plan)
    ensures r == if Accepted(plan) then Done(Compiled(plan, from, hash)) else Thrown(InvalidPlan)
    ensures r.Done? ==> r.value.plan == plan.(repositoryPath := ResolvePath(from, plan.repositoryPath))
    ensures r.Done? ==> r.value.digest == hash(r.value.plan)
  {
    hide HeadAccepted, TaskAccepted, Graph, AllKnown, Acyclic, ResolvePath;
    var errors := ValidateHead(plan, []);
    var tasks: seq<Task> := [];
    if |plan.tasks| == 0 {
      errors := errors + ["tasks"];
    } else if |plan.tasks| > MAX_TASKS {
      errors := errors + ["tasks"];
    } else {
      errors := ValidateTasks(plan.tasks, errors);
      tasks := plan.tasks;
    }
    var taskOrder, graphErrors := ValidateGraph(tasks);
    if DistinctIds(plan.tasks) {
      GraphIsSoundAndComplete(plan.tasks);
    }
    if |errors| > 0 || |graphErrors| > 0 {
      return Thrown(InvalidPlan);
    }
    var normalized := Absolute(plan, from);
    r := Done(CompiledPlan(normalized, hash(normalized), taskOrder));
  }

  // ---- what the orchestrator relies on ----

  lemma {:induction false} FirstIsLast(tasks: seq<Task>, id: string)
    requires DistinctIds(tasks) && FindTask(tasks, id).Some?
    ensures Dependencies(tasks, id) == FindTask(tasks, id).value.Dependencies()
    decreases |tasks|
  {
    var task := FindTask(tasks, id).value;
    var k :| 0 <= k < |tasks| && tasks[k] == task;
    var last := |tasks| - 1;
    if tasks[last].id != id {
      FoundInFront(tasks, id);
      FirstIsLast(tasks[..last], id);
    } else {
      assert k == last;
    }
  }

  lemma {:induction false} FoundInFront(tasks: seq<Task>, id: string)
    requires tasks != [] && tasks[|tasks| - 1].id != id
    ensures FindTask(tasks[..|tasks| - 1], id) == FindTask(tasks, id)
    decreases |tasks|
  {
    if |tasks| > 1 && tasks[0].id != id {
      assert tasks[..|tasks| - 1][1..] == tasks[1..][..|tasks[1..]| - 1];
      FoundInFront(tasks[1..], id);
    }
  }

  /** Every accepted plan compiles to one whose order holds each task once, after its dependencies. */
  lemma AcceptedPlansCompile(plan: Plan, from: string, hash: PlanHash)
    requires Accepted(plan)
    ensures CompiledOk(Compiled(plan, from, hash))
  {
    hide TaskAccepted, Graph, Acyclic, AllKnown, HeadAccepted, ResolvePath, FindTask, Dependencies;
    GraphIsSoundAndComplete(plan.tasks);
    NoErrorsMeansSound(plan.tasks);
    var c := Compiled(plan, from, hash);
    forall id | id in c.taskOrder
      ensures FindTask(c.plan.tasks, id).Some? && TaskOf(c, id).validations != []
      ensures Dependencies(plan.tasks, id) == TaskOf(c, id).Dependencies()
    {
      assert TaskAccepted(FindTask(plan.tasks, id).value);
      FirstIsLast(plan.tasks, id);
      AcceptedTasksAreValidated(FindTask(plan.tasks, id).value);
    }
  }

  /** An accepted plan is of bounded size, and its tasks depend on its tasks. */
  lemma AcceptedPlansAreBounded(plan: Plan)
    requires Accepted(plan)
    ensures 1 <= |plan.tasks| <= 1_000 && forall t :: t in plan.tasks ==> 1 <= |t.validations| <= 100
    ensures forall t, d :: t in plan.tasks && t.dependsOn.Some? && d in t.dependsOn.value ==> d in Ids(plan.tasks)
  {
    hide CommandAccepted, HeadAccepted, Acyclic, ValidId, Filled, RelativePaths;
    forall t | t in plan.tasks
      ensures 1 <= |t.validations| <= 100
      ensures forall d :: t.dependsOn.Some? && d in t.dependsOn.value ==> d in Ids(plan.tasks)
    {
      assert TaskAccepted(t);
      var i :| 0 <= i < |plan.tasks| && plan.tasks[i] == t;
    }
  }

  lemma AcceptedTasksAreValidated(t: Task)
    requires TaskAccepted(t)
    ensures t.validations != [] && 1 <= t.Budget() <= 10
  {
  }

  lemma NonBlankStartIsFilled(s: string)
    requires s != "" && !IsSpace(s[0])
    ensures Filled(s)
  {
    NonBlankStartTrims(s);
  }

  /** Compiling a compiled plan again, from anywhere, gives the same plan, order and digest. */
  lemma RecompilingChangesNothing(plan: Plan, from: string, elsewhere: string, hash: PlanHash)
    requires Accepted(plan)
    ensures var c := Compiled(plan, from, hash);
            Accepted(c.plan) && Compiled(c.plan, elsewhere, hash) == c
  {
    hide TaskAccepted, Graph, AllKnown, Acyclic, Filled, ResolvePath, TasksAccepted;
    ResolvingIsIdempotent(from, plan.repositoryPath, elsewhere);
    NonBlankStartIsFilled(ResolvePath(from, plan.repositoryPath));
  }
}
