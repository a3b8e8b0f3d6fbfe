/**
 * The non-blocking `CRUD for Task` of `helixflow-core/src/task.rs`. Its
 * backend answers with an `anyhow::Result<Task>`; suspension only happens at
 * the backend call, so the synchronous semantics are modelled.
 */
module NonBlocking {
  import opened Wrappers
  import opened Entities
  import opened Errors
  import Blocking

  /** `non_blocking::StorageBackend::create`. */
  type TaskBackend = Task -> AnyhowResult<Task>

  /**
   * `non_blocking::CRUD::create` for `Task`: a backend failure becomes a
   * `BackendError` with its message; a stored task other than `task` is a
   * `Mismatch`.
   */
  function Create(task: Task, backend: TaskBackend): (r: Result<()>)
    ensures r.Ok? <==> backend(task) == Done(task)
    ensures backend(task).Failed? ==> r == Err(BackendError(backend(task).message))
    ensures backend(task).Done? && backend(task).value != task ==>
              r == Err(Mismatch(TaskItem(task), TaskItem(backend(task).value)))
  {
    match backend(task)
    case Failed(m) => Err(BackendError(m))
    case Done(created) =>
      if created == task then Ok(()) else Err(Mismatch(TaskItem(task), TaskItem(created)))
  }

  /**
   * Both flavours of `CRUD::create` agree: the non-blocking one is the
   * blocking protocol run against the same backend with its errors lifted
   * into `HelixFlowError`.
   */
  lemma AgreesWithBlocking(task: Task, backend: TaskBackend, get: Uuid -> Result<Task>)
    ensures Create(task, backend) == Blocking.Create(task, Blocking.Store(t => FromAnyhow(backend(t)), get), t => TaskItem(t))
  {
  }

  /** `non_blocking::TestBackend::create`. */
  function TestCreate(task: Task, freshId: Uuid): (r: AnyhowResult<Task>)
    ensures task.name == "FAIL" ==> r.Failed?
    ensures task.name == "MISMATCH" ==> r == Done(NewTask(task.name, task.description, freshId))
    ensures task.name != "FAIL" && task.name != "MISMATCH" ==> r == Done(task)
  {
    if task.name == "FAIL" then Failed("Taskname: FAIL")
    else if task.name == "MISMATCH" then Done(NewTask(task.name, task.description, freshId))
    else Done(task)
  }

  /** The non-blocking tests: ordinary, "FAIL" and "MISMATCH" tasks. */
  lemma TestScenarios(task: Task, freshId: Uuid)
    ensures task.name != "FAIL" && task.name != "MISMATCH" ==>
              Create(task, t => TestCreate(t, freshId)) == Ok(())
    ensures task.name == "FAIL" ==>
              Create(task, t => TestCreate(t, freshId)) == Err(BackendError("Taskname: FAIL"))
    ensures task.name == "MISMATCH" && freshId != task.id ==>
              Create(task, t => TestCreate(t, freshId)).Err?
              && Create(task, t => TestCreate(t, freshId)).error.Mismatch?
  {
  }
}
