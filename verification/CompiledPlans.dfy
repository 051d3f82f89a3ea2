/** What the rest of the program relies on in a compiled plan (packages/agent-runtime/src/engine/plan.ts). */
module CompiledPlans {
  import opened Basics
  import opened PlanTypes
  import opened TaskGraph

  /** `tasks.find(candidate => candidate.id === id)`. */
  function FindTask(tasks: seq<Task>, id: string): (r: Option<Task>)
    ensures r.Some? ==> r.value in tasks && r.value.id == id
    ensures id in Ids(tasks) ==> r.Some?
  {
    if tasks == [] then None
    else if tasks[0].id == id then Some(tasks[0])
    else
      assert id in Ids(tasks) ==> id in Ids(tasks[1..]) by {
        if id in Ids(tasks) {
          var i :| 0 <= i < |tasks| && Ids(tasks)[i] == id;
          assert Ids(tasks[1..])[i - 1] == id;
        }
      }
      FindTask(tasks[1..], id)
  }

  /** What `compileMachinePlan` guarantees about a plan it accepts. */
  ghost predicate CompiledOk(c: CompiledPlan) {
    && Distinct(c.taskOrder)
    && (forall id :: id in c.taskOrder <==> id in Ids(c.plan.tasks))
    && (forall id :: id in c.taskOrder ==> FindTask(c.plan.tasks, id).Some?)
    && (forall i, d :: 0 <= i < |c.taskOrder| && d in TaskOf(c, c.taskOrder[i]).Dependencies() ==> d in c.taskOrder[..i])
    && (forall id :: id in c.taskOrder ==> TaskOf(c, id).validations != [])
  }

  function TaskOf(c: CompiledPlan, id: string): (task: Task)
  {
    match FindTask(c.plan.tasks, id)
    case Some(task) => task
    case None => Task(id, "", "", None, None, None, None, [], None, None, None, None)
  }

  function PolicyOf(c: CompiledPlan): PlanPolicy {
    c.plan.policy.GetOr(EMPTY_POLICY)
  }
}
