/** The planning node (agent/nodes/query_planner.py): a pass-through. */
module QueryPlanner {
  import opened AgentState

  /** `plan_query`: reads nothing and returns `{}`; routing happens on the edge after it. */
  function PlanQuery(s: State): (u: Update)
    ensures Written(u) == {}
  {
    Empty
  }

  /** Merging the planner's update leaves every key of the state as it was. */
  lemma PlanQueryChangesNothing(s: State)
    ensures Merge(s, PlanQuery(s)) == s
    ensures forall f :: Agree(Merge(s, PlanQuery(s)), s, f)
  {
    MergeEmpty(s);
  }
}
