/**
 * The older task-create protocol of `src/task.rs`: the backend fills in the
 * task's optional id through a mutable borrow.
 *
 * `&mut Task<ID>` is modelled as a task passed in and the updated task
 * handed back.
 */
module LegacyTask {
  import opened Wrappers

  /** The test backend's id type. */
  newtype u32 = x: int | 0 <= x < 0x1_0000_0000

  /** `Task<ID>`: the id is absent until a backend assigns one. */
  datatype Task<ID> = Task(name: string, id: Option<ID>, description: Option<string>)

  /** `StorageBackend<ID>::create`: the task as the backend leaves it, and whether it succeeded. */
  type Backend<!ID> = Task<ID> -> (Task<ID>, AnyhowResult<()>)

  /**
   * `Task::create`: the call succeeds exactly when the backend does, a
   * backend error is returned as is, and the task is whatever the backend
   * left it (on either path).
   */
  method Create<ID>(task: Task<ID>, backend: Backend<ID>) returns (updated: Task<ID>, r: AnyhowResult<()>)
    ensures r.Done? <==> backend(task).1.Done?
    ensures r.Failed? ==> r.message == backend(task).1.message
    ensures updated == backend(task).0
  {
    var result;
    updated, result := backend(task).0, backend(task).1;
    if result.Failed? {
      return updated, Failed(result.message);
    }
    r := Done(());
  }

  /** The unit tests' `StorageBackend<u32>`: "FAIL" is refused untouched, anything else gets id 1. */
  function TestBackend(task: Task<u32>): (r: (Task<u32>, AnyhowResult<()>))
    ensures task.name == "FAIL" ==> r.0 == task && r.1.Failed?
    ensures task.name != "FAIL" ==> r.0 == task.(id := Some(1)) && r.1 == Done(())
  {
    if task.name == "FAIL" then (task, Failed("Taskname: FAIL"))
    else (task.(id := Some(1)), Done(()))
  }

  /**
   * `test_new_task` and `test_failed_to_create_task`: name and description
   * never change; "FAIL" leaves the id as it was and reports an error,
   * any other name gets id 1 and succeeds.
   */
  method CreateWithTestBackend(task: Task<u32>) returns (updated: Task<u32>, r: AnyhowResult<()>)
    ensures updated.name == task.name && updated.description == task.description
    ensures task.name == "FAIL" ==> r.Failed? && updated.id == task.id
    ensures task.name != "FAIL" ==> r.Done? && updated.id == Some(1)
  {
    updated, r := Create(task, TestBackend);
  }
}
