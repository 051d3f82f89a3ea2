/**
  * `validateGraph` of packages/agent-runtime/src/engine/plan.ts: a depth-first walk of the task
  * dependencies that finds cycles and produces the execution order.
  */
module TaskGraph {
  import opened PlanTypes

  datatype Mark = Visiting | Visited

  datatype GraphError =
    | UnknownDependency(task: string, dependency: string)
    | SelfDependency(task: string)
    | Cycle(path: seq<string>)

  datatype Walk = Walk(marks: map<string, Mark>, order: seq<string>, errors: seq<GraphError>)

  function Ids(tasks: seq<Task>): (r: seq<string>)
    ensures |r| == |tasks| && forall i :: 0 <= i < |r| ==> r[i] == tasks[i].id
  {
    seq(|tasks|, i requires 0 <= i < |tasks| => tasks[i].id)
  }

  ghost predicate DistinctIds(tasks: seq<Task>) {
    forall i, j :: 0 <= i < j < |tasks| ==> tasks[i].id != tasks[j].id
  }

  /** The dependencies of the last task with an id, as `new Map(tasks.map(...))` keeps it; none for an unknown id. */
  function Dependencies(tasks: seq<Task>, id: string): seq<string> {
    if tasks == [] then []
    else if tasks[|tasks| - 1].id == id then tasks[|tasks| - 1].Dependencies()
    else Dependencies(tasks[..|tasks| - 1], id)
  }

  ghost function Members(xs: seq<string>): set<string> {
    set x | x in xs
  }

  /** Every id a walk can meet. */
  ghost function Universe(tasks: seq<Task>): set<string> {
    if tasks == [] then {}
    else
      var last := tasks[|tasks| - 1];
      Universe(tasks[..|tasks| - 1]) + {last.id} + Members(last.Dependencies())
  }

  lemma {:induction false} DependenciesAreInUniverse(tasks: seq<Task>, id: string)
    ensures forall d :: d in Dependencies(tasks, id) ==> d in Universe(tasks)
  {
    if tasks != [] {
      DependenciesAreInUniverse(tasks[..|tasks| - 1], id);
    }
  }

  lemma {:induction false} TaskWithDependencies(tasks: seq<Task>, id: string)
    requires Dependencies(tasks, id) != []
    ensures id in Ids(tasks)
  {
    var last := |tasks| - 1;
    if tasks[last].id == id {
      assert Ids(tasks)[last] == id;
    } else {
      TaskWithDependencies(tasks[..last], id);
      var i :| 0 <= i < last && Ids(tasks[..last])[i] == id;
      assert Ids(tasks)[i] == id;
    }
  }

  // ---- the walk as a function of its state ----

  ghost function Unmarked(tasks: seq<Task>, w: Walk): nat {
    |Universe(tasks) - w.marks.Keys|
  }

  ghost function Visit(tasks: seq<Task>, id: string, stack: seq<string>, w: Walk): (r: Walk)
    requires id in Universe(tasks)
    ensures w.marks.Keys <= r.marks.Keys
    decreases Unmarked(tasks, w), 0
  {
    if id in w.marks then
      if w.marks[id] == Visited then w else w.(errors := w.errors + [Cycle(stack + [id])])
    else
      var entered := w.(marks := w.marks[id := Visiting]);
      EnteringShrinks(tasks, id, w);
      DependenciesAreInUniverse(tasks, id);
      var left := VisitAll(tasks, Dependencies(tasks, id), stack + [id], entered);
      Walk(left.marks[id := Visited], left.order + [id], left.errors)
  }

  ghost function VisitAll(tasks: seq<Task>, ids: seq<string>, stack: seq<string>, w: Walk): (r: Walk)
    requires forall id :: id in ids ==> id in Universe(tasks)
    ensures w.marks.Keys <= r.marks.Keys
    decreases Unmarked(tasks, w), |ids| + 1
  {
    if ids == [] then w
    else
      var next := Visit(tasks, ids[0], stack, w);
      FewerUnmarked(tasks, w, next);
      VisitAll(tasks, ids[1..], stack, next)
  }

  lemma EnteringShrinks(tasks: seq<Task>, id: string, w: Walk)
    requires id in Universe(tasks) && id !in w.marks
    ensures Unmarked(tasks, w.(marks := w.marks[id := Visiting])) < Unmarked(tasks, w)
  {
    assert Universe(tasks) - w.marks[id := Visiting].Keys == Universe(tasks) - w.marks.Keys - {id};
  }

  lemma FewerUnmarked(tasks: seq<Task>, w: Walk, next: Walk)
    requires w.marks.Keys <= next.marks.Keys
    ensures Unmarked(tasks, next) <= Unmarked(tasks, w)
  {
    var a, b := Universe(tasks) - next.marks.Keys, Universe(tasks) - w.marks.Keys;
    assert b == a + (b - a);
  }

  /** The errors of one task's own list. */
  function ListErrors(tasks: seq<Task>, task: string, dependencies: seq<string>): seq<GraphError> {
    if dependencies == [] then []
    else
      var dependency := dependencies[|dependencies| - 1];
      ListErrors(tasks, task, dependencies[..|dependencies| - 1])
      + (if dependency in Ids(tasks) then [] else [UnknownDependency(task, dependency)])
      + (if dependency == task then [SelfDependency(task)] else [])
  }

  function ReferenceErrors(tasks: seq<Task>, upTo: nat): seq<GraphError>
    requires upTo <= |tasks|
  {
    if upTo == 0 then []
    else ReferenceErrors(tasks, upTo - 1) + ListErrors(tasks, tasks[upTo - 1].id, tasks[upTo - 1].Dependencies())
  }

  lemma {:induction false} IdsAreInUniverse(tasks: seq<Task>)
    ensures forall id :: id in Ids(tasks) ==> id in Universe(tasks)
  {
    if tasks != [] {
      var front := tasks[..|tasks| - 1];
      IdsAreInUniverse(front);
      forall id | id in Ids(tasks) ensures id in Universe(tasks) {
        var i :| 0 <= i < |tasks| && Ids(tasks)[i] == id;
        if i < |front| { assert Ids(front)[i] == id; }
      }
    }
  }

  /** `validateGraph`: the order and the errors of a task list. */
  ghost function Graph(tasks: seq<Task>): Walk {
    IdsAreInUniverse(tasks);
    VisitAll(tasks, Ids(tasks), [], Walk(map[], [], ReferenceErrors(tasks, |tasks|)))
  }

  // ---- the walk in place ----

  class GraphVisitor {
    const tasks: seq<Task>
    var marks: map<string, Mark>
    var order: seq<string>
    var errors: seq<GraphError>

    constructor (tasks: seq<Task>)
      ensures this.tasks == tasks && State() == Walk(map[], [], [])
    {
      this.tasks := tasks;
      marks, order, errors := map[], [], [];
    }

    function State(): Walk
      reads this
    {
      Walk(marks, order, errors)
    }

    method VisitTask(taskId: string, stack: seq<string>)
      requires taskId in Universe(tasks)
      modifies this
      ensures State() == Visit(tasks, taskId, stack, old(State()))
      decreases Unmarked(tasks, State()), 0
    {
      if taskId in marks {
        if marks[taskId] == Visiting {
          errors := errors + [Cycle(stack + [taskId])];
        }
        return;
      }
      EnteringShrinks(tasks, taskId, State());
      marks := marks[taskId := Visiting];
      ghost var entered := State();
      var dependencies := Dependencies(tasks, taskId);
      DependenciesAreInUniverse(tasks, taskId);
      for k := 0 to |dependencies|
        invariant entered.marks.Keys <= marks.Keys
        invariant VisitAll(tasks, dependencies[k..], stack + [taskId], State())
                  == VisitAll(tasks, dependencies, stack + [taskId], entered)
      {
        FewerUnmarked(tasks, entered, State());
        assert dependencies[k..][0] == dependencies[k] && dependencies[k..][1..] == dependencies[k + 1..];
        VisitTask(dependencies[k], stack + [taskId]);
      }
      marks := marks[taskId := Visited];
      order := order + [taskId];
    }

    /** The unknown and self dependencies, in list order. */
    method CheckReferences()
      requires errors == []
      modifies `errors
      ensures errors == ReferenceErrors(tasks, |tasks|)
    {
      for i := 0 to |tasks|
        invariant errors == ReferenceErrors(tasks, i)
      {
        CheckList(tasks[i].id, tasks[i].Dependencies());
      }
    }

    method CheckList(taskId: string, dependencies: seq<string>)
      modifies `errors
      ensures errors == old(errors) + ListErrors(tasks, taskId, dependencies)
    {
      for k := 0 to |dependencies|
        invariant errors == old(errors) + ListErrors(tasks, taskId, dependencies[..k])
      {
        var dependency := dependencies[k];
        assert dependencies[..k + 1][..k] == dependencies[..k];
        if dependency !in Ids(tasks) {
          errors := errors + [UnknownDependency(taskId, dependency)];
        }
        if dependency == taskId {
          errors := errors + [SelfDependency(taskId)];
        }
      }
      assert dependencies[..|dependencies|] == dependencies;
    }
  }

  method ValidateGraph(tasks: seq<Task>) returns (order: seq<string>, errors: seq<GraphError>)
    ensures order == Graph(tasks).order && errors == Graph(tasks).errors
  {
    var visitor := new GraphVisitor(tasks);
    visitor.CheckReferences();
    ghost var entered := visitor.State();
    IdsAreInUniverse(tasks);
    var ids := Ids(tasks);
    for k := 0 to |ids|
      invariant visitor.tasks == tasks
      invariant VisitAll(tasks, ids[k..], [], visitor.State()) == VisitAll(tasks, ids, [], entered)
    {
      assert ids[k..][0] == ids[k] && ids[k..][1..] == ids[k + 1..];
      visitor.VisitTask(ids[k], []);
    }
    order, errors := visitor.order, visitor.errors;
  }

  // ---- what the walk keeps ----

  /** Each element depends on the next. */
  ghost predicate IsWalk(tasks: seq<Task>, path: seq<string>) {
    |path| <= 1
    || (path[|path| - 1] in Dependencies(tasks, path[|path| - 2]) && IsWalk(tasks, path[..|path| - 1]))
  }

  /** A dependency walk of at least one step that ends on an id it already contains. */
  ghost predicate RealCycle(tasks: seq<Task>, path: seq<string>) {
    |path| >= 2 && IsWalk(tasks, path) && path[|path| - 1] in path[..|path| - 1]
  }

  ghost predicate Acyclic(tasks: seq<Task>) {
    forall path :: IsWalk(tasks, path) && |path| >= 2 ==> path[0] != path[|path| - 1]
  }

  ghost predicate AllKnown(tasks: seq<Task>) {
    forall i, d :: 0 <= i < |tasks| && d in tasks[i].Dependencies() ==> d in Ids(tasks)
  }

  ghost predicate Distinct(xs: seq<string>) {
    forall i, j :: 0 <= i < j < |xs| ==> xs[i] != xs[j]
  }

  /** Every element's dependencies stand before it. */
  ghost predicate DependenciesFirst(tasks: seq<Task>, order: seq<string>) {
    forall i, d :: 0 <= i < |order| && d in Dependencies(tasks, order[i]) ==> d in order[..i]
  }

  ghost predicate NoCycleReported(errors: seq<GraphError>) {
    forall e :: e in errors ==> !e.Cycle?
  }

  ghost predicate WalkOk(tasks: seq<Task>, stack: seq<string>, w: Walk) {
    && Distinct(w.order)
    && (forall id :: id in w.order <==> id in w.marks && w.marks[id] == Visited)
    && (forall id :: id in stack <==> id in w.marks && w.marks[id] == Visiting)
    && IsWalk(tasks, stack)
    && (forall e :: e in w.errors && e.Cycle? ==> RealCycle(tasks, e.path))
    && (NoCycleReported(w.errors) ==> DependenciesFirst(tasks, w.order))
  }

  ghost predicate Extends(w: Walk, r: Walk) {
    w.order <= r.order && w.errors <= r.errors
  }

  lemma AppendKeepsOrder(tasks: seq<Task>, order: seq<string>, id: string)
    requires Distinct(order) && id !in order
    ensures Distinct(order + [id])
    ensures forall x :: x in order + [id] <==> x in order || x == id
    ensures DependenciesFirst(tasks, order) && (forall d :: d in Dependencies(tasks, id) ==> d in order)
            ==> DependenciesFirst(tasks, order + [id])
  {
    var longer := order + [id];
    forall i | 0 <= i < |longer| ensures longer[..i] == order[..i] && (i < |order| ==> longer[i] == order[i]) {}
    assert order[..|order|] == order;
  }

  lemma FinishKeepsOk(tasks: seq<Task>, id: string, stack: seq<string>, left: Walk)
    requires WalkOk(tasks, stack + [id], left) && id !in stack
    requires NoCycleReported(left.errors) ==> forall d :: d in Dependencies(tasks, id) ==> d in left.order
    ensures WalkOk(tasks, stack, Walk(left.marks[id := Visited], left.order + [id], left.errors))
  {
    hide IsWalk, RealCycle, Distinct, DependenciesFirst, NoCycleReported, Dependencies;
    assert forall x :: x in stack + [id] <==> x in stack || x == id;
    AppendKeepsOrder(tasks, left.order, id);
    WalkPrefix(tasks, stack, id);
  }

  lemma WalkPrefix(tasks: seq<Task>, stack: seq<string>, id: string)
    ensures IsWalk(tasks, stack + [id]) <==>
            IsWalk(tasks, stack) && (stack != [] ==> id in Dependencies(tasks, stack[|stack| - 1]))
  {
    assert (stack + [id])[..|stack|] == stack;
  }

  lemma {:induction false} WalkSuffix(tasks: seq<Task>, path: seq<string>, k: nat)
    requires IsWalk(tasks, path) && k < |path|
    ensures IsWalk(tasks, path[k..])
  {
    if k + 1 < |path| {
      var front := path[..|path| - 1];
      WalkSuffix(tasks, front, k);
      assert path[k..][..|path[k..]| - 1] == front[k..];
    }
  }

  lemma EnterKeepsOk(tasks: seq<Task>, id: string, stack: seq<string>, w: Walk)
    requires WalkOk(tasks, stack, w) && id !in w.marks
    requires stack != [] ==> id in Dependencies(tasks, stack[|stack| - 1])
    ensures WalkOk(tasks, stack + [id], w.(marks := w.marks[id := Visiting]))
  {
    hide IsWalk, RealCycle, Distinct, DependenciesFirst, NoCycleReported, Dependencies;
    assert forall x :: x in stack + [id] <==> x in stack || x == id;
    WalkPrefix(tasks, stack, id);
  }

  lemma {:induction false} VisitKeepsOk(tasks: seq<Task>, id: string, stack: seq<string>, w: Walk)
    requires WalkOk(tasks, stack, w)
    requires id in Universe(tasks)
    requires stack != [] ==> id in Dependencies(tasks, stack[|stack| - 1])
    ensures var r := Visit(tasks, id, stack, w);
            && WalkOk(tasks, stack, r) && Extends(w, r)
            && (NoCycleReported(r.errors) ==> id in r.order)
    decreases Unmarked(tasks, w), 0
  {
    hide WalkOk, IsWalk, Dependencies, Universe, Unmarked, NoCycleReported;
    NewIsNotOnStack(tasks, id, stack, w);
    if id in w.marks {
      RevisitKeepsOk(tasks, id, stack, w);
    } else {
      var entered := w.(marks := w.marks[id := Visiting]);
      EnterKeepsOk(tasks, id, stack, w);
      EnteringShrinks(tasks, id, w);
      DependenciesAreInUniverse(tasks, id);
      var deeper := stack + [id];
      assert deeper[|deeper| - 1] == id;
      VisitAllKeepsOk(tasks, Dependencies(tasks, id), deeper, entered);
      var left := VisitAll(tasks, Dependencies(tasks, id), deeper, entered);
      FinishKeepsOk(tasks, id, stack, left);
      assert Visit(tasks, id, stack, w) == Walk(left.marks[id := Visited], left.order + [id], left.errors);
    }
  }

  lemma NewIsNotOnStack(tasks: seq<Task>, id: string, stack: seq<string>, w: Walk)
    requires WalkOk(tasks, stack, w)
    ensures id !in w.marks ==> id !in stack
  {
  }

  lemma RevisitKeepsOk(tasks: seq<Task>, id: string, stack: seq<string>, w: Walk)
    requires WalkOk(tasks, stack, w) && id in w.marks && id in Universe(tasks)
    requires stack != [] ==> id in Dependencies(tasks, stack[|stack| - 1])
    ensures var r := Visit(tasks, id, stack, w);
            WalkOk(tasks, stack, r) && Extends(w, r) && (NoCycleReported(r.errors) ==> id in r.order)
  {
    hide WalkOk, IsWalk, RealCycle, NoCycleReported, Dependencies, Universe, Visit;
    Revisiting(tasks, id, stack, w);
    if w.marks[id] == Visiting {
      ReturningIsRealCycle(tasks, id, stack, w);
      CycleKeepsOk(tasks, stack, w, stack + [id]);
      CycleIsReported(w.errors, stack + [id]);
    } else {
      VisitedIsOrdered(tasks, id, stack, w);
    }
  }

  lemma Revisiting(tasks: seq<Task>, id: string, stack: seq<string>, w: Walk)
    requires id in w.marks && id in Universe(tasks)
    ensures Visit(tasks, id, stack, w) ==
            if w.marks[id] == Visiting then w.(errors := w.errors + [Cycle(stack + [id])]) else w
  {
    hide Universe;
  }

  lemma VisitedIsOrdered(tasks: seq<Task>, id: string, stack: seq<string>, w: Walk)
    requires WalkOk(tasks, stack, w) && id in w.marks && w.marks[id] == Visited
    ensures id in w.order
  {
    hide IsWalk, Distinct, DependenciesFirst, NoCycleReported, RealCycle;
  }

  lemma ReturningIsRealCycle(tasks: seq<Task>, id: string, stack: seq<string>, w: Walk)
    requires WalkOk(tasks, stack, w) && id in w.marks && w.marks[id] == Visiting
    requires stack != [] ==> id in Dependencies(tasks, stack[|stack| - 1])
    ensures RealCycle(tasks, stack + [id])
  {
    hide IsWalk, Distinct, DependenciesFirst, NoCycleReported, Dependencies;
    var path := stack + [id];
    assert path[..|path| - 1] == stack;
    WalkPrefix(tasks, stack, id);
  }

  lemma CycleKeepsOk(tasks: seq<Task>, stack: seq<string>, w: Walk, path: seq<string>)
    requires WalkOk(tasks, stack, w) && RealCycle(tasks, path)
    ensures WalkOk(tasks, stack, w.(errors := w.errors + [Cycle(path)]))
  {
    hide IsWalk, Distinct, DependenciesFirst, NoCycleReported, RealCycle;
    CycleIsReported(w.errors, path);
  }

  lemma CycleIsReported(errors: seq<GraphError>, path: seq<string>)
    ensures !NoCycleReported(errors + [Cycle(path)])
    ensures forall e :: e in errors + [Cycle(path)] <==> e in errors || e == Cycle(path)
  {
    assert (errors + [Cycle(path)])[|errors|] == Cycle(path);
    assert Cycle(path) in errors + [Cycle(path)];
  }

  lemma {:induction false} VisitAllKeepsOk(tasks: seq<Task>, ids: seq<string>, stack: seq<string>, w: Walk)
    requires WalkOk(tasks, stack, w)
    requires forall id :: id in ids ==> id in Universe(tasks)
    requires stack != [] ==> forall id :: id in ids ==> id in Dependencies(tasks, stack[|stack| - 1])
    ensures var r := VisitAll(tasks, ids, stack, w);
            && WalkOk(tasks, stack, r) && Extends(w, r)
            && (NoCycleReported(r.errors) ==> forall id :: id in ids ==> id in r.order)
    decreases Unmarked(tasks, w), |ids| + 1
  {
    hide WalkOk, IsWalk, Dependencies, Universe, Unmarked, NoCycleReported, Visit;
    if ids != [] {
      var first, rest := ids[0], ids[1..];
      assert first in ids && forall id :: id in rest ==> id in ids;
      var next := Visit(tasks, first, stack, w);
      VisitKeepsOk(tasks, first, stack, w);
      FewerUnmarked(tasks, w, next);
      VisitAllKeepsOk(tasks, rest, stack, next);
      var r := VisitAll(tasks, rest, stack, next);
      assert VisitAll(tasks, ids, stack, w) == r;
      Chain(ids, w, next, r);
    }
  }

  lemma Chain(ids: seq<string>, w: Walk, next: Walk, r: Walk)
    requires ids != [] && Extends(w, next) && Extends(next, r)
    requires NoCycleReported(next.errors) ==> ids[0] in next.order
    requires NoCycleReported(r.errors) ==> forall id :: id in ids[1..] ==> id in r.order
    ensures Extends(w, r)
    ensures NoCycleReported(r.errors) ==> forall id :: id in ids ==> id in r.order
  {
    if NoCycleReported(r.errors) {
      assert forall e :: e in next.errors ==> e in r.errors;
      assert ids[0] in r.order;
      assert forall id :: id in ids ==> id == ids[0] || id in ids[1..];
    }
  }

  // ---- the theorems ----

  lemma {:induction false} ListErrorsMean(tasks: seq<Task>, task: string, dependencies: seq<string>)
    ensures NoCycleReported(ListErrors(tasks, task, dependencies))
    ensures ListErrors(tasks, task, dependencies) == [] <==> forall d :: d in dependencies ==> d in Ids(tasks) && d != task
  {
    if dependencies != [] {
      var front := dependencies[..|dependencies| - 1];
      ListErrorsMean(tasks, task, front);
      assert forall d :: d in dependencies <==> d in front || d == dependencies[|dependencies| - 1];
    }
  }

  /** Every dependency of the first tasks is a known id and not the task itself. */
  ghost predicate ReferencesResolve(tasks: seq<Task>, upTo: nat)
    requires upTo <= |tasks|
  {
    forall i :: 0 <= i < upTo ==> ListResolves(tasks, tasks[i])
  }

  ghost predicate ListResolves(tasks: seq<Task>, task: Task) {
    forall d :: d in task.Dependencies() ==> d in Ids(tasks) && d != task.id
  }

  lemma {:induction false} ReferenceErrorsMean(tasks: seq<Task>, upTo: nat)
    requires upTo <= |tasks|
    ensures NoCycleReported(ReferenceErrors(tasks, upTo))
    ensures ReferenceErrors(tasks, upTo) == [] <==> ReferencesResolve(tasks, upTo)
  {
    if upTo > 0 {
      ReferenceErrorsMean(tasks, upTo - 1);
      ListErrorsMean(tasks, tasks[upTo - 1].id, tasks[upTo - 1].Dependencies());
      var front := ReferenceErrors(tasks, upTo - 1);
      var last := ListErrors(tasks, tasks[upTo - 1].id, tasks[upTo - 1].Dependencies());
      assert ReferenceErrors(tasks, upTo) == front + last;
      assert ReferencesResolve(tasks, upTo) <==> ReferencesResolve(tasks, upTo - 1) && ListResolves(tasks, tasks[upTo - 1]);
    }
  }

  lemma {:induction false} DependenciesOfTask(tasks: seq<Task>, i: nat)
    requires DistinctIds(tasks) && i < |tasks|
    ensures Dependencies(tasks, tasks[i].id) == tasks[i].Dependencies()
  {
    if i < |tasks| - 1 {
      DependenciesOfTask(tasks[..|tasks| - 1], i);
    }
  }

  /** Along a walk, positions in an order that puts dependencies first only go down. */
  lemma {:induction false} WalksDescend(tasks: seq<Task>, order: seq<string>, path: seq<string>, from: nat)
    requires DependenciesFirst(tasks, order)
    requires IsWalk(tasks, path) && |path| >= 1
    requires from < |order| && order[from] == path[0]
    ensures exists k :: 0 <= k <= from && order[k] == path[|path| - 1] && (|path| >= 2 ==> k < from)
    decreases |path|
  {
    if |path| >= 2 {
      var front := path[..|path| - 1];
      WalksDescend(tasks, order, front, from);
      var k :| 0 <= k <= from && order[k] == front[|front| - 1];
      assert path[|path| - 1] in order[..k];
    }
  }

  /** A walk that leaves an id makes it the id of a task with dependencies. */
  lemma {:induction false} WalkStartsAtTask(tasks: seq<Task>, path: seq<string>)
    requires IsWalk(tasks, path) && |path| >= 2
    ensures path[0] in Ids(tasks)
  {
    if |path| == 2 {
      TaskWithDependencies(tasks, path[0]);
    } else {
      WalkStartsAtTask(tasks, path[..|path| - 1]);
    }
  }

  lemma OrderedMeansAcyclic(tasks: seq<Task>, order: seq<string>)
    requires DependenciesFirst(tasks, order) && Distinct(order)
    requires forall id :: id in Ids(tasks) ==> id in order
    ensures Acyclic(tasks)
  {
    forall path | IsWalk(tasks, path) && |path| >= 2 ensures path[0] != path[|path| - 1] {
      WalkStartsAtTask(tasks, path);
      var from :| 0 <= from < |order| && order[from] == path[0];
      WalksDescend(tasks, order, path, from);
    }
  }

  lemma RealCycleIsCyclic(tasks: seq<Task>, path: seq<string>)
    requires RealCycle(tasks, path)
    ensures !Acyclic(tasks)
  {
    hide IsWalk;
    var front, last := path[..|path| - 1], path[|path| - 1];
    var k :| 0 <= k < |front| && front[k] == last;
    WalkSuffix(tasks, path, k);
    var loop := path[k..];
    assert |loop| >= 2 && loop[0] == front[k] && loop[|loop| - 1] == last;
  }

  /** The walk over every task, from the reference errors on. */
  lemma GraphIsOk(tasks: seq<Task>)
    ensures WalkOk(tasks, [], Graph(tasks))
    ensures ReferenceErrors(tasks, |tasks|) <= Graph(tasks).errors
    ensures NoCycleReported(Graph(tasks).errors) ==> forall id :: id in Ids(tasks) ==> id in Graph(tasks).order
  {
    IdsAreInUniverse(tasks);
    ReferenceErrorsMean(tasks, |tasks|);
    VisitAllKeepsOk(tasks, Ids(tasks), [], Walk(map[], [], ReferenceErrors(tasks, |tasks|)));
  }

  /** Every reported cycle is a real dependency walk that ends on an id it already contains. */
  lemma ReportedCyclesAreReal(tasks: seq<Task>, path: seq<string>)
    requires Cycle(path) in Graph(tasks).errors
    ensures RealCycle(tasks, path) && !Acyclic(tasks)
  {
    GraphIsOk(tasks);
    RealCycleIsCyclic(tasks, path);
  }

  lemma {:induction false} VisitMarksUniverse(tasks: seq<Task>, ids: seq<string>, stack: seq<string>, w: Walk)
    requires forall id :: id in ids ==> id in Universe(tasks)
    requires w.marks.Keys <= Universe(tasks)
    ensures VisitAll(tasks, ids, stack, w).marks.Keys <= Universe(tasks)
    decreases Unmarked(tasks, w), |ids| + 1
  {
    if ids != [] {
      var next := Visit(tasks, ids[0], stack, w);
      if ids[0] !in w.marks {
        var entered := w.(marks := w.marks[ids[0] := Visiting]);
        EnteringShrinks(tasks, ids[0], w);
        DependenciesAreInUniverse(tasks, ids[0]);
        VisitMarksUniverse(tasks, Dependencies(tasks, ids[0]), stack + [ids[0]], entered);
      }
      FewerUnmarked(tasks, w, next);
      VisitMarksUniverse(tasks, ids[1..], stack, next);
    }
  }

  lemma {:induction false} KnownUniverseIsIds(tasks: seq<Task>, upTo: nat)
    requires AllKnown(tasks) && upTo <= |tasks|
    ensures forall id :: id in Universe(tasks[..upTo]) ==> id in Ids(tasks)
  {
    if upTo > 0 {
      KnownUniverseIsIds(tasks, upTo - 1);
      assert tasks[..upTo][..upTo - 1] == tasks[..upTo - 1];
      assert Ids(tasks)[upTo - 1] == tasks[upTo - 1].id;
    }
  }

  lemma NoErrorsMeansSound(tasks: seq<Task>)
    requires Graph(tasks).errors == []
    ensures AllKnown(tasks) && Acyclic(tasks)
    ensures Distinct(Graph(tasks).order) && DependenciesFirst(tasks, Graph(tasks).order)
    ensures forall id :: id in Graph(tasks).order <==> id in Ids(tasks)
  {
    GraphIsOk(tasks);
    ReferenceErrorsMean(tasks, |tasks|);
    forall i, d | 0 <= i < |tasks| && d in tasks[i].Dependencies() ensures d in Ids(tasks) {
      assert ListResolves(tasks, tasks[i]);
    }
    OrderedMeansAcyclic(tasks, Graph(tasks).order);
    IdsAreInUniverse(tasks);
    VisitMarksUniverse(tasks, Ids(tasks), [], Walk(map[], [], ReferenceErrors(tasks, |tasks|)));
    assert tasks[..|tasks|] == tasks;
    KnownUniverseIsIds(tasks, |tasks|);
  }

  lemma AcyclicMeansNoErrors(tasks: seq<Task>)
    requires DistinctIds(tasks) && AllKnown(tasks) && Acyclic(tasks)
    ensures Graph(tasks).errors == []
  {
    hide Acyclic, AllKnown, IsWalk, Distinct, DependenciesFirst, ListResolves;
    GraphIsOk(tasks);
    ReferenceErrorsMean(tasks, |tasks|);
    FirstIsMember(Graph(tasks).errors);
    ListsResolve(tasks);
    forall path | Cycle(path) in Graph(tasks).errors ensures false { RealCycleIsCyclic(tasks, path); }
    IdsAreInUniverse(tasks);
    NoLateReferenceErrors(tasks, Ids(tasks), [], Walk(map[], [], ReferenceErrors(tasks, |tasks|)));
  }

  lemma ListsResolve(tasks: seq<Task>)
    requires DistinctIds(tasks) && AllKnown(tasks) && Acyclic(tasks)
    ensures forall i :: 0 <= i < |tasks| ==> ListResolves(tasks, tasks[i])
  {
    forall i | 0 <= i < |tasks| ensures ListResolves(tasks, tasks[i]) {
      forall d | d in tasks[i].Dependencies() ensures d in Ids(tasks) && d != tasks[i].id {
        DependenciesOfTask(tasks, i);
        var step := [tasks[i].id, d];
        assert IsWalk(tasks, step) && step[0] == tasks[i].id && step[1] == d;
      }
    }
  }

  lemma FirstIsMember<T>(xs: seq<T>)
    ensures xs == [] || exists x :: x in xs
  {
    assert xs != [] ==> xs[0] in xs;
  }

  /** The walk itself reports only cycles. */
  lemma {:induction false} NoLateReferenceErrors(tasks: seq<Task>, ids: seq<string>, stack: seq<string>, w: Walk)
    requires forall id :: id in ids ==> id in Universe(tasks)
    ensures forall e :: e in VisitAll(tasks, ids, stack, w).errors ==> e in w.errors || e.Cycle?
    decreases Unmarked(tasks, w), |ids| + 1
  {
    if ids != [] {
      var next := Visit(tasks, ids[0], stack, w);
      if ids[0] !in w.marks {
        var entered := w.(marks := w.marks[ids[0] := Visiting]);
        EnteringShrinks(tasks, ids[0], w);
        DependenciesAreInUniverse(tasks, ids[0]);
        NoLateReferenceErrors(tasks, Dependencies(tasks, ids[0]), stack + [ids[0]], entered);
      }
      FewerUnmarked(tasks, w, next);
      NoLateReferenceErrors(tasks, ids[1..], stack, next);
    }
  }

  /**
    * `validateGraph` is sound and complete on distinct ids: no error exactly when every dependency is
    * known and the graph is acyclic, and then the order is a permutation of the ids that puts every
    * dependency before its dependents.
    */
  lemma GraphIsSoundAndComplete(tasks: seq<Task>)
    requires DistinctIds(tasks)
    ensures Graph(tasks).errors == [] <==> AllKnown(tasks) && Acyclic(tasks)
    ensures Graph(tasks).errors == [] ==>
              && multiset(Graph(tasks).order) == multiset(Ids(tasks))
              && DependenciesFirst(tasks, Graph(tasks).order)
  {
    if Graph(tasks).errors == [] {
      NoErrorsMeansSound(tasks);
      SameElementsOnce(Graph(tasks).order, Ids(tasks));
    }
    if AllKnown(tasks) && Acyclic(tasks) {
      AcyclicMeansNoErrors(tasks);
    }
  }

  lemma {:induction false} CountOnce(xs: seq<string>, x: string)
    requires Distinct(xs)
    ensures multiset(xs)[x] == if x in xs then 1 else 0
  {
    if xs != [] {
      assert xs == [xs[0]] + xs[1..];
      CountOnce(xs[1..], x);
      assert x in xs <==> x == xs[0] || x in xs[1..];
      forall k | 0 <= k < |xs[1..]| ensures xs[1..][k] != xs[0] {
        assert xs[1..][k] == xs[k + 1];
      }
    }
  }

  lemma SameElementsOnce(xs: seq<string>, ys: seq<string>)
    requires Distinct(xs) && Distinct(ys)
    requires forall x :: x in xs <==> x in ys
    ensures multiset(xs) == multiset(ys)
  {
    forall x ensures multiset(xs)[x] == multiset(ys)[x] {
      CountOnce(xs, x);
      CountOnce(ys, x);
    }
  }
}
