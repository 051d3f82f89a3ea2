/**
  * The run's git worktree (packages/agent-runtime/src/engine/git.ts) as three trees: HEAD, the index
  * and the working files. Workers and validation commands are arbitrary edits of the last two.
  */
module Worktrees {
  import opened Basics
  import opened Strings
  import opened Globs
  import opened Policy
  import opened RunTypes

  /** A path as git prints it and the policy reads it: trimmed, forward slashes, no leading "./". */
  predicate PlainPath(p: string) {
    p != "" && Trim(p) == p && '\\' !in p && !("./" <= p)
  }

  /** Files by path. */
  type Tree = map<string, string>

  ghost predicate PlainTree(t: Tree) {
    forall p {:trigger PlainPath(p)} :: p in t ==> PlainPath(p)
  }

  /** The part of a tree git tracks under the names the model assumes. */
  function Plain(t: Tree): (r: Tree)
    ensures PlainTree(r)
    ensures PlainTree(t) ==> r == t
  {
    map p | p in t && PlainPath(p) :: t[p]
  }

  /** The paths at which two trees differ. */
  function Diff(a: Tree, b: Tree): set<string> {
    set p | p in a.Keys + b.Keys && (p !in a || p !in b || a[p] != b[p])
  }

  /** One tree has the path and the other has not, or they have different contents there. */
  predicate Differ(a: Tree, b: Tree, path: string) {
    if path in a && path in b then a[path] != b[path] else path in a || path in b
  }

  lemma DiffMeans(a: Tree, b: Tree)
    ensures forall p :: p in Diff(a, b) <==> Differ(a, b, p)
    ensures Diff(a, b) == {} <==> a == b
  {
    if Diff(a, b) == {} {
      forall p ensures p in a <==> p in b {
        assert p !in Diff(a, b);
      }
      forall p | p in a ensures a[p] == b[p] {
        assert p !in Diff(a, b);
      }
    }
  }

  /** The reading of a gate: how long the approval log was when the gate was taken up, and how much of it was read. */
  datatype GateReading = GateReading(since: nat, consulted: nat)

  /**
    * The record of one passage through the checkpoint step: what was validated and decided, how the gate
    * was read, and the HEAD trees before and after.
    */
  datatype Landing = Landing(
    taskId: string,
    attempt: int,
    validations: seq<ValidationResult>,
    patch: StagedPatch,
    decision: PolicyDecision,
    gate: GateReading,
    before: Tree,
    after: Tree,
    commit: nat)

  /**
    * The record of one worker start: how its task was taken up, what the worker found, how many landings preceded
    * it.
    */
  datatype Start = Start(
    taskId: string,
    attempt: int,
    workerId: string,
    entry: GateReading,
    index: Tree,
    working: Tree,
    ignored: Tree,
    landed: nat)

  function TipTree(base: Tree, landings: seq<Landing>): Tree {
    if landings == [] then base else landings[|landings| - 1].after
  }

  function TipCommit(landings: seq<Landing>): nat {
    if landings == [] then 0 else landings[|landings| - 1].commit
  }

  /** Each landing starts at the tree the one before left; a new commit is made exactly when the tree moves. */
  ghost predicate Chained(base: Tree, landings: seq<Landing>) {
    landings == []
    || var front, last := landings[..|landings| - 1], landings[|landings| - 1];
       && Chained(base, front)
       && last.before == TipTree(base, front)
       && last.commit == TipCommit(front) + (if last.before == last.after then 0 else 1)
  }

  lemma ChainGrows(base: Tree, landings: seq<Landing>, next: Landing)
    requires Chained(base, landings)
    requires next.before == TipTree(base, landings)
    requires next.commit == TipCommit(landings) + (if next.before == next.after then 0 else 1)
    ensures Chained(base, landings + [next])
  {
    assert (landings + [next])[..|landings|] == landings;
  }

  /** Two points of one history with the same commit number have the same tree. */
  lemma {:induction false} SameCommitSameTree(base: Tree, landings: seq<Landing>, k: nat)
    requires Chained(base, landings) && k <= |landings|
    ensures TipCommit(landings[..k]) <= TipCommit(landings)
    ensures TipCommit(landings[..k]) == TipCommit(landings) ==> TipTree(base, landings[..k]) == TipTree(base, landings)
    decreases |landings|
  {
    if k == |landings| {
      assert landings[..k] == landings;
    } else {
      var front := landings[..|landings| - 1];
      SameCommitSameTree(base, front, k);
      assert front[..k] == landings[..k];
    }
  }

  /** `parseNullSeparated` on the paths git listed. */
  function ParsePaths(listed: seq<string>): seq<string> {
    if listed == [] then []
    else
      var path := Trim(listed[0]);
      (if path == "" then [] else [ForwardSlashes(path)]) + ParsePaths(listed[1..])
  }

  /** Exactly the entries with something in them, trimmed and with forward slashes. */
  lemma {:induction false} ParsedPathsMean(listed: seq<string>, p: string)
    ensures p in ParsePaths(listed) <==> exists l :: l in listed && Trim(l) != "" && p == ForwardSlashes(Trim(l))
  {
    if listed != [] {
      ParsedPathsMean(listed[1..], p);
      assert forall l :: l in listed <==> l == listed[0] || l in listed[1..];
    }
  }

  lemma {:induction false} PlainPathsParseToThemselves(listed: seq<string>)
    requires forall p :: p in listed ==> PlainPath(p)
    ensures ParsePaths(listed) == listed
    ensures PathSet(listed) == set p | p in listed
  {
    if listed != [] {
      PlainPathsParseToThemselves(listed[1..]);
      assert PlainPath(listed[0]) && forall p :: p in listed[1..] ==> p in listed;
    }
    forall p | p in listed ensures NormalizePath(p) == p {}
  }

  lemma ListedPathsParse(listed: seq<string>, paths: set<string>)
    requires forall p :: p in listed <==> p in paths
    requires forall p :: p in paths ==> PlainPath(p)
    ensures PathSet(ParsePaths(listed)) == paths
  {
    PlainPathsParseToThemselves(listed);
    assert (set p | p in listed) == paths;
  }

  lemma DiffIsPlain(a: Tree, b: Tree)
    requires PlainTree(a) && PlainTree(b)
    ensures forall p :: p in Diff(a, b) ==> PlainPath(p)
  {
  }

  class Worktree {
    const base: Tree
    var head: Tree
    var headCommit: nat
    var index: Tree
    var working: Tree
    var ignored: Tree
    ghost var landings: seq<Landing>
    ghost var starts: seq<Start>

    constructor (base: Tree)
      requires PlainTree(base)
      ensures this.base == base && Valid() && landings == [] && starts == []
    {
      this.base := base;
      head, headCommit := base, 0;
      index, working, ignored := base, base, map[];
      landings, starts := [], [];
    }

    ghost predicate Valid()
      reads this
    {
      && Chained(base, landings) && head == TipTree(base, landings) && headCommit == TipCommit(landings)
      && PlainTree(head) && PlainTree(index) && PlainTree(working) && PlainTree(ignored)
    }

    predicate Clean()
      reads this
    {
      index == head && working == head && ignored == map[]
    }

    /** A worker or a validation command: any edit of files and index. */
    method Edit()
      requires Valid()
      modifies `index, `working, `ignored
      ensures Valid()
    {
      var staged: Tree := *;
      var files: Tree := *;
      var unlisted: Tree := *;
      index, working, ignored := Plain(staged), Plain(files), Plain(unlisted);
    }

    method ListPaths(paths: set<string>) returns (listed: seq<string>)
      ensures forall p :: p in listed <==> p in paths
    {
      listed := [];
      var rest := paths;
      while rest != {}
        invariant rest <= paths
        invariant forall p :: p in listed <==> p in paths - rest
        decreases rest
      {
        var p :| p in rest;
        listed := listed + [p];
        rest := rest - {p};
      }
    }

    /** Stages everything, reports exactly the difference between HEAD and the index, and drops ignored files. */
    method StageAndInspect() returns (r: Exit<StagedPatch>)
      requires Valid()
      modifies `index, `working, `ignored
      ensures Valid()
      ensures r.Done? ==> index == working == old(working) && ignored == map[]
      ensures r.Done? ==> PathSet(r.value.changedFiles) == Diff(head, index)
      ensures r.Done? ==> PathSet(r.value.ignoredFiles) == old(ignored).Keys
    {
      hide PathSet, ParsePaths, Diff, PlainPath, Chained;
      var interrupted: bool := *;
      if interrupted {
        Edit();
        var dies: bool := *;
        return if dies then Crashed else Thrown(GitFailure);
      }
      index := working;
      DiffIsPlain(head, index);
      var changed := ListPaths(Diff(head, index));
      var unlisted := ListPaths(ignored.Keys);
      ListedPathsParse(changed, Diff(head, index));
      ListedPathsParse(unlisted, ignored.Keys);
      var links: seq<string> := *;
      var patch: string := *;
      var patchBytes: nat := *;
      r := Done(StagedPatch(ParsePaths(changed), patch, patchBytes, ParsePaths(unlisted), links));
      if ignored != map[] {
        ignored := map[];
      }
    }

    /** Back to HEAD: no staged, unstaged, untracked or ignored residue. */
    method ResetWorktree() returns (r: Exit<()>)
      requires Valid()
      modifies `index, `working, `ignored
      ensures Valid()
      ensures r.Done? ==> Clean()
      ensures r.Thrown? ==> r.fault == GitFailure
    {
      var interrupted: bool := *;
      if interrupted {
        Edit();
        var dies: bool := *;
        return if dies then Crashed else Thrown(GitFailure);
      }
      index, working := head, head;
      ignored := map[];
      r := Done(());
    }

    /**
      * Commits the index. HEAD may have moved although the call died or threw: the commit and the
      * `rev-parse` after it are two commands.
      */
    method CommitCheckpoint(ghost evidence: Landing) returns (r: Exit<nat>)
      requires Valid()
      modifies `head, `headCommit, `landings
      ensures Valid()
      ensures landings == old(landings)
              || landings == old(landings) + [evidence.(before := old(head), after := index, commit := headCommit)]
      ensures r.Done? ==> landings != old(landings) && r.value == headCommit
    {
      var interrupted: bool := *;
      if interrupted {
        var dies: bool := *;
        return if dies then Crashed else Thrown(GitFailure);
      }
      MoveHead(evidence);
      interrupted := *;
      if interrupted {
        var dies: bool := *;
        return if dies then Crashed else Thrown(GitFailure);
      }
      r := Done(headCommit);
    }

    /** `git commit`, unless nothing is staged. */
    method MoveHead(ghost evidence: Landing)
      requires Valid()
      modifies `head, `headCommit, `landings
      ensures Valid()
      ensures landings == old(landings) + [evidence.(before := old(head), after := index, commit := headCommit)]
      ensures head == index && headCommit == old(headCommit) + (if index == old(head) then 0 else 1)
    {
      ghost var before := head;
      if index != head {
        head := index;
        headCommit := headCommit + 1;
      }
      ghost var landing := evidence.(before := before, after := index, commit := headCommit);
      ChainGrows(base, landings, landing);
      landings := landings + [landing];
    }
  }
}
