/**
 * The blocking protocol layer of `helixflow-core/src/task.rs`: the `Store`
 * and `Relate` backend contracts, the create-then-verify `CRUD` protocol and
 * the `Link` protocol for `Contains<TaskList, Task>`.
 *
 * A backend is any value of the datatypes below: its operations are
 * arbitrary total functions, so every property proved here holds for every
 * backend.
 */
module Blocking {
  import opened Entities
  import opened Errors
  import opened Relationships

  /**
   * `Store<ITEM>`: `create` answers with the record actually stored,
   * `get` fetches by id.
   */
  datatype Store<!T> = Store(create: T -> Result<T>, get: Uuid -> Result<T>)

  /**
   * `Relate<Contains<TaskList, Task>>`. `createLinkedItem` is given the two
   * resolved sides and the sort order: the `Link` protocol only calls the
   * backend once both sides are `Ok`.
   */
  datatype Relate = Relate(
    createLinkedItem: (TaskList, string, Task) -> Result<Contains<TaskList, Task>>,
    getLinkedItems: TaskList -> Result<seq<Contains<TaskList, Task>>>)

  /** The backend confirms `item`: its create call returns exactly `item`. */
  predicate Confirms<T(==)>(backend: Store<T>, item: T)
  {
    backend.create(item) == Ok(item)
  }

  /**
   * `CRUD::create`: ask the backend to store `item` and verify that what it
   * reports as stored is `item` itself. `box` is `Box::new` into the
   * mismatch payload.
   */
  function Create<T(==)>(item: T, backend: Store<T>, box: T -> Item): (r: Result<()>)
    ensures r.Ok? <==> Confirms(backend, item)
    ensures backend.create(item).Err? ==> r == Err(backend.create(item).error)
    ensures backend.create(item).Ok? && backend.create(item).value != item ==>
              r == Err(Mismatch(box(item), box(backend.create(item).value)))
  {
    match backend.create(item)
    case Err(e) => Err(e)
    case Ok(created) =>
      if created == item then Ok(()) else Err(Mismatch(box(item), box(created)))
  }

  /** `CRUD::get`: a plain pass-through to the backend. */
  function Get<T>(backend: Store<T>, id: Uuid): (r: Result<T>)
    ensures r == backend.get(id)
  {
    backend.get(id)
  }

  /**
   * `Linkable::link` for `TaskList`: a relationship with both sides resolved,
   * which therefore always continues, and the sort order "a".
   */
  function Link(list: TaskList, task: Task): (c: Contains<TaskList, Task>)
    ensures Branch(c) == Continue(c)
    ensures c.left == Ok(list) && c.right == Ok(task)
    ensures c.sortorder == "a"
  {
    Contains(Ok(list), "a", Ok(task))
  }

  /**
   * `Link::create_linked_item` for `Contains<TaskList, Task>`. A broken
   * relationship stops with its first error before the backend is asked;
   * otherwise the backend creates and links the right side, and the right
   * side it reports is verified as in `Create`.
   */
  function CreateLinkedItem(c: Contains<TaskList, Task>, backend: Relate): (r: Result<()>)
    ensures Branch(c).Break? ==> r == Err(FirstError(c))
    ensures Branch(c).Continue? ==>
              (r.Ok? <==> (var created := backend.createLinkedItem(c.left.value, c.sortorder, c.right.value);
                           created.Ok? && created.value.right == Ok(c.right.value)))
    ensures Branch(c).Continue? && backend.createLinkedItem(c.left.value, c.sortorder, c.right.value).Err? ==>
              r == Err(backend.createLinkedItem(c.left.value, c.sortorder, c.right.value).error)
    ensures Branch(c).Continue? && backend.createLinkedItem(c.left.value, c.sortorder, c.right.value).Ok? ==>
              (var right := backend.createLinkedItem(c.left.value, c.sortorder, c.right.value).value.right;
               && (right.Err? ==> r == Err(right.error))
               && (right.Ok? && right.value != c.right.value ==>
                     r == Err(Mismatch(TaskItem(c.right.value), TaskItem(right.value)))))
  {
    if c.left.Ok? && c.right.Ok? then
      match backend.createLinkedItem(c.left.value, c.sortorder, c.right.value)
      case Err(e) => Err(e)
      case Ok(created) =>
        match created.right
        case Ok(task) =>
          if task == c.right.value then Ok(())
          else Err(Mismatch(TaskItem(c.right.value), TaskItem(task)))
        case Err(e) => Err(e)
    else if c.left.Err? then Err(c.left.error)
    else Err(c.right.error)
  }

  /**
   * A broken relationship never reaches the backend: the outcome is the
   * same whichever backend is given.
   */
  lemma ShortCircuitIgnoresBackend(c: Contains<TaskList, Task>, b1: Relate, b2: Relate)
    requires Branch(c).Break?
    ensures CreateLinkedItem(c, b1) == CreateLinkedItem(c, b2)
    ensures CreateLinkedItem(c, b1).Err?
  {
  }

  /**
   * Linked creation verifies the right side exactly as `CRUD::create` does:
   * for a backend whose linked creation stores the task through `store`
   * (keeping the list), creating the linked task and creating the task on
   * its own give the same answer.
   */
  lemma LinkedCreateIsCrudCreate(list: TaskList, task: Task, backend: Relate, store: Store<Task>, sortorder: string)
    requires backend.createLinkedItem(list, "a", task) == Ok(Contains(Ok(list), sortorder, store.create(task)))
    ensures CreateLinkedItem(Link(list, task), backend) == Create(task, store, t => TaskItem(t))
  {
  }

  /** `Linkable::get_linked_items`: a plain pass-through to the backend. */
  function GetLinkedItems(list: TaskList, backend: Relate): (r: Result<seq<Contains<TaskList, Task>>>)
    ensures r == backend.getLinkedItems(list)
  {
    backend.getLinkedItems(list)
  }
}
