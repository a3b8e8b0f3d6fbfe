/**
 * The relationship pair `Contains<LEFT, RIGHT>` and its `Try::branch`
 * short-circuit from `helixflow-core/src/task.rs`.
 */
module Relationships {
  import opened Wrappers
  import opened Entities
  import opened Errors

  /**
   * A relationship between a left and a right item. Each side is resolved
   * independently (fetched or created) and may already be an error.
   */
  datatype Contains<L, R> = Contains(left: Result<L>, sortorder: string, right: Result<R>)

  /** `std::ops::ControlFlow`. */
  datatype ControlFlow<B, C> = Continue(output: C) | Break(residual: B)

  /** True when both sides of the relationship resolved. */
  predicate BothOk<L, R>(c: Contains<L, R>)
  {
    c.left.Ok? && c.right.Ok?
  }

  /**
   * `Try::branch`: a relationship may be continued exactly when both sides
   * are `Ok`; in either case it is handed on unaltered.
   */
  function Branch<L, R>(c: Contains<L, R>): (r: ControlFlow<Contains<L, R>, Contains<L, R>>)
    ensures r.Continue? <==> c.left.Ok? && c.right.Ok?
    ensures r.Continue? ==> r.output == c
    ensures r.Break? ==> r.residual == c
  {
    if c.left.Ok? && c.right.Ok? then Continue(c) else Break(c)
  }

  /**
   * The error that stops a broken relationship: the left side is looked at
   * first, so a failed left hides whatever the right holds.
   */
  function FirstError<L, R>(c: Contains<L, R>): (e: HelixFlowError)
    requires !BothOk(c)
    ensures c.left.Err? ==> e == c.left.error
    ensures c.left.Ok? ==> e == c.right.error
  {
    if c.left.Err? then c.left.error else c.right.error
  }

  /**
   * `try_contains_oks`: a relationship between a new list and a new task,
   * both `Ok`, continues under `?` and hands back the same list and task.
   */
  lemma TryContainsOks(listName: string, listId: Uuid, taskName: string, description: Option<string>, taskId: Uuid)
    ensures var c := Contains(Ok(NewTaskList(listName, listId)), "a", Ok(NewTask(taskName, description, taskId)));
            && Branch(c).Continue?
            && Branch(c).output.left == Ok(NewTaskList(listName, listId))
            && Branch(c).output.right == Ok(NewTask(taskName, description, taskId))
  {
  }
}
