/**
 * The value types of `helixflow-core/src/task.rs`: `Task` and `TaskList`.
 * Both are plain immutable snapshots identified by a client-chosen UUID.
 */
module Entities {
  import opened Wrappers

  /**
   * A UUID as its 128-bit value. Equality of two `Uuid`s is equality of their
   * canonical hyphenated text, which is what the test backend compares.
   */
  newtype Uuid = x: int | 0 <= x < 0x1_0000_0000_0000_0000_0000_0000_0000_0000

  /** A task: a (possibly blank) name, its identifier and an optional description. */
  datatype Task = Task(name: string, id: Uuid, description: Option<string>)

  /** A list of tasks: a name and an identifier. */
  datatype TaskList = TaskList(name: string, id: Uuid)

  /**
   * `Task::new`: the caller's name and description with a freshly generated
   * id. Id generation (`Uuid::now_v7`) is the parameter `freshId`.
   */
  function NewTask(name: string, description: Option<string>, freshId: Uuid): (t: Task)
    ensures t.id == freshId
    ensures t.name == name && t.description == description
  {
    Task(name, freshId, description)
  }

  /** `TaskList::new`: the caller's name with a freshly generated id. */
  function NewTaskList(name: string, freshId: Uuid): (l: TaskList)
    ensures l.id == freshId && l.name == name
  {
    TaskList(name, freshId)
  }
}
