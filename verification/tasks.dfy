/** Planner: `list_tasks`. */
module Planner {
  import opened Wrappers
  import opened Records

  /** `list_tasks`: without a plan id nothing is fetched and the list is
      empty; otherwise every task of the plan, in order. */
  function ListTasks(planId: Option<string>, page: Page<PlannerTask>): (r: seq<Task>)
    ensures !Truthy(planId) ==> r == []
    ensures Truthy(planId) ==> |r| == |Items(page)|
    ensures Truthy(planId) ==> forall i :: 0 <= i < |r| ==> r[i] == ToTask(Items(page)[i])
  {
    if !Truthy(planId) then []
    else
      var tasks := Items(page);
      seq(|tasks|, i requires 0 <= i < |tasks| => ToTask(tasks[i]))
  }
}
