/**
 * `HelixFlowError` and `HelixFlowResult` of `helixflow-core/src/task.rs`.
 */
module Errors {
  import opened Wrappers
  import opened Entities
  import opened UiState

  /**
   * The items a `Mismatch` can carry. The source boxes any `HelixFlowItem`;
   * the three implementors are listed here as a closed union.
   */
  datatype Item = TaskItem(task: Task) | TaskListItem(list: TaskList) | StateItem(state: State)

  /** The single error type of the core. */
  datatype HelixFlowError =
    | BackendError(message: string)
    | Mismatch(expected: Item, actual: Item)
    | InvalidID(invalidId: string)
    | NotFound(itemtype: string, missingId: Uuid)
    | Relationship

  /** `HelixFlowResult<T>`. */
  datatype Result<+T> = Ok(value: T) | Err(error: HelixFlowError)

  /**
   * The `?` conversion of an `anyhow::Error` into `HelixFlowError`
   * (`#[from] anyhow::Error`): values pass through, errors become
   * `BackendError` with the same message.
   */
  function FromAnyhow<T>(o: AnyhowResult<T>): (r: Result<T>)
    ensures r.Ok? <==> o.Done?
    ensures o.Done? ==> r.value == o.value
    ensures o.Failed? ==> r.error.BackendError? && r.error.message == o.message
  {
    match o
    case Done(v) => Ok(v)
    case Failed(m) => Err(BackendError(m))
  }
}
