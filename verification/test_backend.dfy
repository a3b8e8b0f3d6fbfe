/**
 * `TestBackend` of `helixflow-core/src/task.rs`: a hard-coded backend whose
 * answers exercise every branch of the blocking protocol, and the unit-test
 * scenarios run against it.
 *
 * The backend's only hidden input is the id `Task::new` generates when it
 * rebuilds a "MISMATCH" task; it is the parameter `freshId`.
 */
module TestBackend {
  import opened Wrappers
  import opened Entities
  import opened Errors
  import opened Relationships
  import opened Blocking

  const Task1Id: Uuid := 0x0196b4c9_8447_7959_ae1f_72c7c8a3dd36
  const Task2Id: Uuid := 0x0196ca5f_d934_7ec8_b042_ae37b94b8432
  const BacklogId: Uuid := 0x0196fe23_7c01_7d6b_9e09_5968eb370549

  /** The two tasks the backend knows, and the id the not-found test asks for. */
  const Task1: Task := Task("Task 1", Task1Id, None)
  const Task2: Task := Task("Task 2", Task2Id, None)
  const UnknownTaskId: Uuid := 0x0196b4c9_8447_78db_ae8a_be68a8095aa2

  /** `Store<Task>::create`: "FAIL" fails, "MISMATCH" is stored under a new id, anything else as given. */
  function CreateTask(task: Task, freshId: Uuid): (r: Result<Task>)
    ensures task.name == "FAIL" ==> r.Err? && r.error.BackendError?
    ensures task.name == "MISMATCH" ==>
              r.Ok? && r.value.name == task.name && r.value.description == task.description
              && r.value.id == freshId
    ensures task.name != "FAIL" && task.name != "MISMATCH" ==> r == Ok(task)
  {
    if task.name == "FAIL" then Err(BackendError("Failed to create task"))
    else if task.name == "MISMATCH" then Ok(NewTask(task.name, task.description, freshId))
    else Ok(task)
  }

  /** `Store<Task>::get`: the two known tasks, under exactly the id asked for; `NotFound` otherwise. */
  function GetTask(id: Uuid): (r: Result<Task>)
    ensures r.Ok? <==> id == Task1Id || id == Task2Id
    ensures r.Ok? ==> r.value.id == id && r.value.description == None
    ensures r.Err? ==> r.error == NotFound("Task", id)
  {
    if id == Task1Id then Ok(Task("Task 1", id, None))
    else if id == Task2Id then Ok(Task("Task 2", id, None))
    else Err(NotFound("Task", id))
  }

  /** `Store<TaskList>::get`: the one known list; `NotFound` (spelt "Tasklist") otherwise. */
  function GetTaskList(id: Uuid): (r: Result<TaskList>)
    ensures r.Ok? <==> id == BacklogId
    ensures r.Ok? ==> r.value.id == id
    ensures r.Err? ==> r.error == NotFound("Tasklist", id)
  {
    if id == BacklogId then Ok(TaskList("Test TaskList 1", id)) else Err(NotFound("Tasklist", id))
  }

  /** The backend seen through the `Store<Task>` contract. */
  function TaskStore(freshId: Uuid): Store<Task>
  {
    Store(t => CreateTask(t, freshId), GetTask)
  }

  /**
   * `Relate::create_linked_item`: for the known list, keep the list and the
   * sort order and create the task through `CreateTask`; for any other list,
   * `NotFound`.
   */
  function CreateLinkedTask(list: TaskList, sortorder: string, task: Task, freshId: Uuid)
    : (r: Result<Contains<TaskList, Task>>)
    ensures r.Ok? <==> list.id == BacklogId
    ensures r.Ok? ==> r.value == Contains(Ok(list), sortorder, CreateTask(task, freshId))
    ensures r.Err? ==> r.error == NotFound("Tasklist", list.id)
  {
    if list.id == BacklogId then Ok(Contains(Ok(list), sortorder, CreateTask(task, freshId)))
    else Err(NotFound("Tasklist", list.id))
  }

  /** `Relate::get_linked_items`: the known list holds Task 1 then Task 2. */
  function GetLinkedTasks(list: TaskList): (r: Result<seq<Contains<TaskList, Task>>>)
    ensures r.Ok? <==> list.id == BacklogId
    ensures r.Ok? ==> r.value == [Link(list, Task1), Link(list, Task2)]
    ensures r.Err? ==> r.error == NotFound("Tasklist", list.id)
  {
    if list.id == BacklogId then Ok([Link(list, Task1), Link(list, Task2)])
    else Err(NotFound("Tasklist", list.id))
  }

  /** The backend seen through the `Relate<Contains<TaskList, Task>>` contract. */
  function TaskRelate(freshId: Uuid): Relate
  {
    Relate((l, s, t) => CreateLinkedTask(l, s, t, freshId), GetLinkedTasks)
  }

  /**
   * The test backend confirms a task exactly when its name is not "FAIL"
   * and, for "MISMATCH", only when the rebuilt task happens to get the
   * caller's id back: a fresh id makes the rebuilt task unequal.
   */
  lemma ConfirmsExactly(task: Task, freshId: Uuid)
    ensures CreateTask(task, freshId) == Ok(task) <==>
              task.name != "FAIL" && (task.name != "MISMATCH" || freshId == task.id)
    ensures Confirms(TaskStore(freshId), task) <==> CreateTask(task, freshId) == Ok(task)
  {
  }

  /**
   * The backend agrees with itself about which lists exist: looking the
   * list up, creating a task in it and listing its tasks all succeed for
   * the same lists, and all fail with the same `NotFound` otherwise.
   */
  lemma ListExistenceAgrees(list: TaskList, sortorder: string, task: Task, freshId: Uuid)
    ensures GetTaskList(list.id).Ok? <==> CreateLinkedTask(list, sortorder, task, freshId).Ok?
    ensures CreateLinkedTask(list, sortorder, task, freshId).Ok? <==> GetLinkedTasks(list).Ok?
    ensures GetTaskList(list.id).Err? ==>
              && GetTaskList(list.id).error == NotFound("Tasklist", list.id)
              && CreateLinkedTask(list, sortorder, task, freshId).error == NotFound("Tasklist", list.id)
              && GetLinkedTasks(list).error == NotFound("Tasklist", list.id)
  {
  }

  /** `test_create_task`: an ordinary task is created and confirmed. */
  lemma CreateOrdinaryTask(task: Task, freshId: Uuid)
    requires task.name != "FAIL" && task.name != "MISMATCH"
    ensures Create(task, TaskStore(freshId), t => TaskItem(t)) == Ok(())
  {
  }

  /** `test_failed_to_create_task`: "FAIL" surfaces as a `BackendError`. */
  lemma CreateFailingTask(task: Task, freshId: Uuid)
    requires task.name == "FAIL"
    ensures Create(task, TaskStore(freshId), t => TaskItem(t)).Err?
    ensures Create(task, TaskStore(freshId), t => TaskItem(t)).error.BackendError?
  {
  }

  /**
   * `test_mismatched_task_created`: "MISMATCH" comes back under a new id,
   * so verification reports the caller's task against the stored one.
   */
  lemma CreateMismatchedTask(task: Task, freshId: Uuid)
    requires task.name == "MISMATCH" && freshId != task.id
    ensures Create(task, TaskStore(freshId), t => TaskItem(t))
            == Err(Mismatch(TaskItem(task), TaskItem(task.(id := freshId))))
  {
  }

  /** `test_get_task` and `test_get_invalid_task`. */
  lemma GetScenarios(freshId: Uuid)
    ensures Get(TaskStore(freshId), Task1Id) == Ok(Task1)
    ensures Get(TaskStore(freshId), UnknownTaskId) == Err(NotFound("Task", UnknownTaskId))
  {
  }

  /** `get_tasks_in_tasklist`: the backlog's linked items are Task 1 then Task 2, each linked from the backlog. */
  lemma LinkedTasksOfBacklog(backlog: TaskList, freshId: Uuid)
    requires backlog.id == BacklogId
    ensures GetLinkedItems(backlog, TaskRelate(freshId)).Ok?
    ensures var links := GetLinkedItems(backlog, TaskRelate(freshId)).value;
            |links| == 2 && links[0].right == Ok(Task1) && links[1].right == Ok(Task2)
            && links[0].left == Ok(backlog) && links[1].left == Ok(backlog)
  {
  }

  /** The test backend's linked creation creates the task through its own store. */
  lemma LinkedCreateMatchesCreate(list: TaskList, task: Task, freshId: Uuid)
    requires list.id == BacklogId
    ensures CreateLinkedItem(Link(list, task), TaskRelate(freshId)) == Create(task, TaskStore(freshId), t => TaskItem(t))
  {
    LinkedCreateIsCrudCreate(list, task, TaskRelate(freshId), TaskStore(freshId), "a");
  }

  /** `create_task_in_tasklist`: an ordinary task linked into the backlog is created and confirmed. */
  lemma CreateTaskInBacklog(backlog: TaskList, task: Task, freshId: Uuid)
    requires backlog.id == BacklogId
    requires task.name != "FAIL" && task.name != "MISMATCH"
    ensures CreateLinkedItem(Link(backlog, task), TaskRelate(freshId)) == Ok(())
  {
  }

  /** `create_task_in_tasklist_mismatch`: the mismatch names the intended task as expected. */
  lemma CreateMismatchInBacklog(backlog: TaskList, task: Task, freshId: Uuid)
    requires backlog.id == BacklogId
    requires task.name == "MISMATCH" && freshId != task.id
    ensures CreateLinkedItem(Link(backlog, task), TaskRelate(freshId))
            == Err(Mismatch(TaskItem(task), TaskItem(task.(id := freshId))))
  {
  }

  /** Linking into a list the backend does not know fails with that list's `NotFound`. */
  lemma CreateTaskInUnknownList(list: TaskList, task: Task, freshId: Uuid)
    requires list.id != BacklogId
    ensures CreateLinkedItem(Link(list, task), TaskRelate(freshId)) == Err(NotFound("Tasklist", list.id))
  {
  }
}
