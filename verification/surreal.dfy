/**
 * The SurrealDB backend of `backends/helixflow-surreal/src/lib.rs`, reduced
 * to what it computes: the conversions between `Task`/`TaskList` and the
 * database's record shape, and how each `Store`/`Relate` operation turns
 * the database's answers into a `HelixFlowResult`.
 *
 * The database itself is the datatype `Db`: one function per kind of call
 * the backend makes, giving the answer the database returns for that
 * request. Every property below holds for every such database.
 */
module Surreal {
  import opened Wrappers
  import opened Entities
  import opened Errors
  import opened Relationships
  import Blocking

  /**
   * SurrealDB's record id `Id`. Only the UUID variant matters to the
   * backend; every other variant (number, string, array, object, ...) is
   * represented by its textual rendering.
   */
  datatype Id = UuidId(uuid: Uuid) | OtherId(text: string)

  /** A SurrealDB record link: table name and id within it. */
  datatype Thing = Thing(tb: string, id: Id)

  const TasksTable: string := "Tasks"
  const TaskListsTable: string := "Tasklists"

  /** `SurrealTask`: a task as stored. */
  datatype SurrealTask = SurrealTask(name: string, id: Thing, description: Option<string>)

  /** `SurrealTaskList`: a task list as stored. */
  datatype SurrealTaskList = SurrealTaskList(name: string, id: Thing)

  /** `Link`: a `contains` relation edge from a list (`in`) to a task (`out`). */
  datatype LinkRecord = LinkRecord(into: Thing, out: Thing)

  /** The answer to the linked-items query: `.next().unwrap()` needs at least one row. */
  type QueryRows = rows: seq<seq<SurrealTask>> | |rows| > 0 witness [[]]

  /** The database, as the answers it gives to each call the backend makes. */
  datatype Db = Db(
    createTask: SurrealTask -> AnyhowResult<Option<SurrealTask>>,
    selectTask: Uuid -> AnyhowResult<Option<SurrealTask>>,
    createTaskList: SurrealTaskList -> AnyhowResult<Option<SurrealTaskList>>,
    selectTaskList: Uuid -> AnyhowResult<Option<SurrealTaskList>>,
    insertLink: LinkRecord -> AnyhowResult<seq<LinkRecord>>,
    queryLinked: Thing -> AnyhowResult<QueryRows>)

  /** Message of the error `with_context` raises when a create answers with no record. */
  const CreateContext: string := "Creating new record in SurrealDb"

  // ---------------------------------------------------------------------
  // Conversions

  /**
   * `TryFrom<SurrealTask> for Task`: name and description are copied; the
   * id must be the UUID variant, otherwise `InvalidID` with its text. The
   * table the record came from is not looked at.
   */
  function TaskFromRecord(rec: SurrealTask): (r: Result<Task>)
    ensures r.Ok? <==> rec.id.id.UuidId?
    ensures r.Ok? ==> r.value == Task(rec.name, rec.id.id.uuid, rec.description)
    ensures r.Err? ==> r.error == InvalidID(rec.id.id.text)
  {
    match rec.id.id
    case UuidId(u) => Ok(Task(rec.name, u, rec.description))
    case OtherId(s) => Err(InvalidID(s))
  }

  /**
   * `From<&Task> for SurrealTask`: a record in table "Tasks" keyed by the
   * task's UUID, which converts back to exactly the task.
   */
  function TaskToRecord(task: Task): (rec: SurrealTask)
    ensures rec.id == Thing(TasksTable, UuidId(task.id))
    ensures TaskFromRecord(rec) == Ok(task)
  {
    SurrealTask(task.name, Thing(TasksTable, UuidId(task.id)), task.description)
  }

  /** `TryFrom<SurrealTaskList> for TaskList`, as for tasks. */
  function TaskListFromRecord(rec: SurrealTaskList): (r: Result<TaskList>)
    ensures r.Ok? <==> rec.id.id.UuidId?
    ensures r.Ok? ==> r.value == TaskList(rec.name, rec.id.id.uuid)
    ensures r.Err? ==> r.error == InvalidID(rec.id.id.text)
  {
    match rec.id.id
    case UuidId(u) => Ok(TaskList(rec.name, u))
    case OtherId(s) => Err(InvalidID(s))
  }

  /** `From<&TaskList> for SurrealTaskList`: table "Tasklists", and it converts back. */
  function TaskListToRecord(list: TaskList): (rec: SurrealTaskList)
    ensures rec.id == Thing(TaskListsTable, UuidId(list.id))
    ensures TaskListFromRecord(rec) == Ok(list)
  {
    SurrealTaskList(list.name, Thing(TaskListsTable, UuidId(list.id)))
  }

  /**
   * The other direction of the round trip: a record in table "Tasks" whose
   * id is a UUID is exactly the record of the task it converts to.
   */
  lemma TaskRecordRoundTrip(rec: SurrealTask)
    requires rec.id.tb == TasksTable && rec.id.id.UuidId?
    ensures TaskFromRecord(rec).Ok? && TaskToRecord(TaskFromRecord(rec).value) == rec
  {
  }

  /** As `TaskRecordRoundTrip`, for task lists in table "Tasklists". */
  lemma TaskListRecordRoundTrip(rec: SurrealTaskList)
    requires rec.id.tb == TaskListsTable && rec.id.id.UuidId?
    ensures TaskListFromRecord(rec).Ok? && TaskListToRecord(TaskListFromRecord(rec).value) == rec
  {
  }

  // ---------------------------------------------------------------------
  // Store<Task> and Store<TaskList>

  /**
   * `Store<Task>::create`: send the task's record, then convert what the
   * database reports back. A failed call is a `BackendError`, as is a
   * create that answers with no record.
   */
  function CreateTask(db: Db, task: Task): (r: Result<Task>)
    ensures db.createTask(TaskToRecord(task)).Failed? ==>
              r == Err(BackendError(db.createTask(TaskToRecord(task)).message))
    ensures db.createTask(TaskToRecord(task)) == Done(None) ==> r == Err(BackendError(CreateContext))
    ensures db.createTask(TaskToRecord(task)).Done? && db.createTask(TaskToRecord(task)).value.Some? ==>
              r == TaskFromRecord(db.createTask(TaskToRecord(task)).value.value)
  {
    match db.createTask(TaskToRecord(task))
    case Failed(m) => Err(BackendError(m))
    case Done(None) => Err(BackendError(CreateContext))
    case Done(Some(rec)) => TaskFromRecord(rec)
  }

  /**
   * `Store<Task>::get`: a failed call is a `BackendError`; no record is
   * `NotFound` for item type "Task" and exactly the requested id; a record
   * is converted.
   */
  function GetTask(db: Db, id: Uuid): (r: Result<Task>)
    ensures db.selectTask(id).Failed? ==> r == Err(BackendError(db.selectTask(id).message))
    ensures db.selectTask(id) == Done(None) ==> r == Err(NotFound("Task", id))
    ensures db.selectTask(id).Done? && db.selectTask(id).value.Some? ==>
              r == TaskFromRecord(db.selectTask(id).value.value)
  {
    match db.selectTask(id)
    case Failed(m) => Err(BackendError(m))
    case Done(None) => Err(NotFound("Task", id))
    case Done(Some(rec)) => TaskFromRecord(rec)
  }

  /** `Store<TaskList>::create`, as for tasks. */
  function CreateTaskList(db: Db, list: TaskList): (r: Result<TaskList>)
    ensures db.createTaskList(TaskListToRecord(list)).Failed? ==>
              r == Err(BackendError(db.createTaskList(TaskListToRecord(list)).message))
    ensures db.createTaskList(TaskListToRecord(list)) == Done(None) ==> r == Err(BackendError(CreateContext))
    ensures db.createTaskList(TaskListToRecord(list)).Done? && db.createTaskList(TaskListToRecord(list)).value.Some? ==>
              r == TaskListFromRecord(db.createTaskList(TaskListToRecord(list)).value.value)
  {
    match db.createTaskList(TaskListToRecord(list))
    case Failed(m) => Err(BackendError(m))
    case Done(None) => Err(BackendError(CreateContext))
    case Done(Some(rec)) => TaskListFromRecord(rec)
  }

  /** `Store<TaskList>::get`: as for tasks, with item type "TaskList". */
  function GetTaskList(db: Db, id: Uuid): (r: Result<TaskList>)
    ensures db.selectTaskList(id).Failed? ==> r == Err(BackendError(db.selectTaskList(id).message))
    ensures db.selectTaskList(id) == Done(None) ==> r == Err(NotFound("TaskList", id))
    ensures db.selectTaskList(id).Done? && db.selectTaskList(id).value.Some? ==>
              r == TaskListFromRecord(db.selectTaskList(id).value.value)
  {
    match db.selectTaskList(id)
    case Failed(m) => Err(BackendError(m))
    case Done(None) => Err(NotFound("TaskList", id))
    case Done(Some(rec)) => TaskListFromRecord(rec)
  }

  /** The backend seen through the `Store<Task>` contract. */
  function TaskStore(db: Db): Blocking.Store<Task>
  {
    Blocking.Store(t => CreateTask(db, t), id => GetTask(db, id))
  }

  /** The backend seen through the `Store<TaskList>` contract. */
  function TaskListStore(db: Db): Blocking.Store<TaskList>
  {
    Blocking.Store(l => CreateTaskList(db, l), id => GetTaskList(db, id))
  }

  /**
   * Create-then-get: when the database keeps the record it is sent and
   * later answers the select with it, `CRUD::create` confirms the task and
   * `CRUD::get` returns a task equal to it.
   */
  lemma CreateThenGetTask(db: Db, task: Task)
    requires db.createTask(TaskToRecord(task)) == Done(Some(TaskToRecord(task)))
    requires db.selectTask(task.id) == Done(Some(TaskToRecord(task)))
    ensures Blocking.Create(task, TaskStore(db), t => TaskItem(t)) == Ok(())
    ensures Blocking.Get(TaskStore(db), task.id) == Ok(task)
  {
  }

  /** Create-then-get for task lists. */
  lemma CreateThenGetTaskList(db: Db, list: TaskList)
    requires db.createTaskList(TaskListToRecord(list)) == Done(Some(TaskListToRecord(list)))
    requires db.selectTaskList(list.id) == Done(Some(TaskListToRecord(list)))
    ensures Blocking.Create(list, TaskListStore(db), l => TaskListItem(l)) == Ok(())
    ensures Blocking.Get(TaskListStore(db), list.id) == Ok(list)
  {
  }

  /**
   * A stored record whose id is not a UUID surfaces as `InvalidID` at the
   * conversion, never as `NotFound` and never as a default.
   */
  lemma StoredNonUuidIsInvalidId(db: Db, id: Uuid)
    requires db.selectTask(id).Done? && db.selectTask(id).value.Some?
    requires db.selectTask(id).value.value.id.id.OtherId?
    ensures GetTask(db, id) == Err(InvalidID(db.selectTask(id).value.value.id.id.text))
  {
  }

  // ---------------------------------------------------------------------
  // Relate<Contains<TaskList, Task>>

  /**
   * `Relate::create_linked_item`: fetch the list (failing first if that
   * fails), create the task, insert the `contains` edge between their
   * records (a failed insert is a `BackendError`), and answer with both
   * stored sides and sort order "a"; the requested sort order is not used.
   */
  function CreateLinkedItem(db: Db, list: TaskList, sortorder: string, task: Task)
    : (r: Result<Contains<TaskList, Task>>)
    ensures GetTaskList(db, list.id).Err? ==> r == Err(GetTaskList(db, list.id).error)
    ensures GetTaskList(db, list.id).Ok? && CreateTask(db, task).Err? ==> r == Err(CreateTask(db, task).error)
    ensures GetTaskList(db, list.id).Ok? && CreateTask(db, task).Ok? ==>
              var inserted := db.insertLink(LinkRecord(TaskListToRecord(GetTaskList(db, list.id).value).id,
                                                       TaskToRecord(CreateTask(db, task).value).id));
              && (inserted.Done? ==> r == Ok(Contains(GetTaskList(db, list.id), "a", CreateTask(db, task))))
              && (inserted.Failed? ==> r == Err(BackendError(inserted.message)))
    ensures r.Ok? ==> r.value == Contains(GetTaskList(db, list.id), "a", CreateTask(db, task))
    ensures r.Ok? ==> r.value.left.Ok? && r.value.right.Ok?
  {
    match GetTaskList(db, list.id)
    case Err(e) => Err(e)
    case Ok(dbList) =>
      match CreateTask(db, task)
      case Err(e) => Err(e)
      case Ok(dbTask) =>
        match db.insertLink(LinkRecord(TaskListToRecord(dbList).id, TaskToRecord(dbTask).id))
        case Failed(m) => Err(BackendError(m))
        case Done(_) => Ok(Contains(Ok(dbList), "a", Ok(dbTask)))
  }

  /**
   * The relationships built from the records of the linked-items query:
   * each one links from `left` with sort order "a", and its right side is
   * the conversion of the corresponding record.
   */
  function LinksFrom(left: TaskList, recs: seq<SurrealTask>): (links: seq<Contains<TaskList, Task>>)
    ensures |links| == |recs|
    ensures forall i :: 0 <= i < |recs| ==>
              links[i] == Contains(Ok(left), "a", TaskFromRecord(recs[i]))
  {
    if recs == [] then []
    else [Contains(Ok(left), "a", TaskFromRecord(recs[0]))] + LinksFrom(left, recs[1..])
  }

  /**
   * `Relate::get_linked_items`: query the tasks the list's record
   * `contains`; a failed query is a `BackendError`, otherwise the first
   * row's records become relationships as in `LinksFrom`.
   */
  function GetLinkedItems(db: Db, left: TaskList): (r: Result<seq<Contains<TaskList, Task>>>)
    ensures db.queryLinked(TaskListToRecord(left).id).Failed? ==>
              r == Err(BackendError(db.queryLinked(TaskListToRecord(left).id).message))
    ensures db.queryLinked(TaskListToRecord(left).id).Done? ==>
              r == Ok(LinksFrom(left, db.queryLinked(TaskListToRecord(left).id).value[0]))
  {
    match db.queryLinked(TaskListToRecord(left).id)
    case Failed(m) => Err(BackendError(m))
    case Done(rows) => Ok(LinksFrom(left, rows[0]))
  }

  /** The backend seen through the `Relate<Contains<TaskList, Task>>` contract. */
  function TaskRelate(db: Db): Blocking.Relate
  {
    Blocking.Relate((l, s, t) => CreateLinkedItem(db, l, s, t), l => GetLinkedItems(db, l))
  }

  /** The records of a sequence of tasks, in order. */
  function TaskRecords(tasks: seq<Task>): (recs: seq<SurrealTask>)
    ensures |recs| == |tasks|
    ensures forall i :: 0 <= i < |tasks| ==> recs[i] == TaskToRecord(tasks[i])
  {
    if tasks == [] then [] else [TaskToRecord(tasks[0])] + TaskRecords(tasks[1..])
  }

  /**
   * Linked items round-trip: when the query answers with the records of
   * `tasks`, the relationships are exactly those tasks, in that order, each
   * linked from `left`.
   */
  lemma LinkedItemsRoundTrip(db: Db, left: TaskList, tasks: seq<Task>)
    requires db.queryLinked(TaskListToRecord(left).id) == Done([TaskRecords(tasks)])
    ensures GetLinkedItems(db, left).Ok?
    ensures |GetLinkedItems(db, left).value| == |tasks|
    ensures forall i :: 0 <= i < |tasks| ==> GetLinkedItems(db, left).value[i] == Blocking.Link(left, tasks[i])
  {
  }

  /**
   * Linked creation end to end: when the list exists, the database keeps
   * the task record it is sent and the edge insert succeeds, the `Link`
   * protocol confirms the new task.
   */
  lemma LinkedCreateConfirmed(db: Db, list: TaskList, task: Task)
    requires db.selectTaskList(list.id) == Done(Some(TaskListToRecord(list)))
    requires db.createTask(TaskToRecord(task)) == Done(Some(TaskToRecord(task)))
    requires db.insertLink(LinkRecord(TaskListToRecord(list).id, TaskToRecord(task).id)).Done?
    ensures Blocking.CreateLinkedItem(Blocking.Link(list, task), TaskRelate(db)) == Ok(())
  {
  }

  /**
   * Linked creation into a list the database does not hold fails with the
   * list's `NotFound`, whatever the database would answer to the task's
   * creation.
   */
  lemma LinkedCreateMissingList(db: Db, list: TaskList, task: Task)
    requires db.selectTaskList(list.id) == Done(None)
    ensures Blocking.CreateLinkedItem(Blocking.Link(list, task), TaskRelate(db)) == Err(NotFound("TaskList", list.id))
  {
  }
}
