# HelixFlow storage core in Dafny

A model of HelixFlow's backend-agnostic storage core: the `Task` and
`TaskList` value types, the `Contains<TaskList, Task>` relationship with its
`Try::branch` short-circuit, the create-then-verify `CRUD` protocol over any
`Store`, the `Link` protocol over any `Relate` backend, the hard-coded
`TestBackend`, the non-blocking `CRUD for Task`, the UI `State` record, the
record conversions and result shaping of the SurrealDB backend, and the
older `src/task.rs` create protocol that fills in a task's id.

Modules (one per source component):

- `Wrappers` (`wrappers.dfy`): `Option`, and `AnyhowResult` for `anyhow::Result`.
- `Entities` (`entities.dfy`): `Uuid` as its 128-bit value, `Task`, `TaskList`, `Task::new` / `TaskList::new`.
- `UiState` (`state.dfy`): `State` and its builder-style setter and getter.
- `Errors` (`errors.dfy`): `HelixFlowError`, `HelixFlowResult` (as `Result`), the closed `Item` union carried by `Mismatch`.
- `Relationships` (`relationship.dfy`): `Contains`, `ControlFlow`, `Branch`.
- `Blocking` (`blocking.dfy`): `Store`, `Relate`, `CRUD::create`/`get`, `Linkable::link`, `Link::create_linked_item`.
- `TestBackend` (`test_backend.dfy`): the hard-coded backend and its unit-test scenarios.
- `NonBlocking` (`non_blocking.dfy`): the non-blocking `CRUD::create` and its test backend.
- `Surreal` (`surreal.dfy`): `SurrealTask`/`SurrealTaskList` conversions and the SurrealDB `Store`/`Relate` implementations with the database as a parameter.
- `LegacyTask` (`legacy_task.dfy`): `Task<ID>::create` and its `StorageBackend<u32>` test backend.

Modelling choices:

- A backend is a value of the datatype `Blocking.Store` or `Blocking.Relate`, whose fields are arbitrary total functions. Every property of `Blocking` therefore holds for every backend.
- `Relate.createLinkedItem` receives the already unwrapped list, sort order and task. The `Link` protocol only calls the backend when both sides are `Ok`, so the backend never sees an unresolved side.
- `Box<dyn HelixFlowItem>` in `Mismatch` is the closed union `Item = TaskItem | TaskListItem | StateItem`. The generic `Create` takes the boxing function as a parameter.
- `anyhow::Error` is its message only. Its `?` conversion into `HelixFlowError` is `Errors.FromAnyhow`, giving `BackendError(message)`.
- The UUID freshly generated by `Task::new` / `TaskList::new` (`Uuid::now_v7`) is a parameter `freshId`. The test backend's "MISMATCH" rebuild takes it the same way.
- A `Uuid` is a 128-bit integer, so the test backend's comparisons of `id.to_string()` with literal UUID texts become comparisons with the corresponding constants.
- In the SurrealDB backend, the database is the datatype `Surreal.Db`. It has one function per kind of call: create, select, relation insert, query. Each function gives the database's answer to that request. A failed call is `Failed(message)`.
- SurrealDB's record id `Id` is `UuidId(uuid) | OtherId(text)`. Here `text` is the rendering `to_string` gives for the non-UUID variants.
- `&mut Task<ID>` in `src/task.rs` is a task passed in and the updated task returned.

Behaviour of the source worth knowing:

- Nothing aggregates a broken relationship into a two-sided error. Its `FromResidual` impls are `todo!()`, and the `Relationship {}` variant has no payload. `Link::create_linked_item` instead returns the left error, or else the right error (`Relationships.FirstError`).
- `CRUD::create` propagates the backend's error unchanged, whatever its kind. Only the non-blocking `create` wraps its backend's failures as `BackendError`.
- The SurrealDB `get_linked_items` never reports `NotFound` for a missing list. Only the test backend does.
- The test backend spells the list item type "Tasklist". The SurrealDB backend spells it "TaskList".

## Model

| member | source | states |
|---|---|---|
| Entities.NewTask | helixflow-core/src/task.rs:51-60 | a new task keeps the caller's name and description and takes the freshly generated id |
| Entities.NewTaskList | helixflow-core/src/task.rs:72-80 | a new list keeps the caller's name and takes the freshly generated id |
| UiState.NewState | helixflow-core/src/state.rs:22-29 | a new state keeps the given id and shows no backlog |
| UiState.VisibleBacklogId | helixflow-core/src/state.rs:36-38 | the getter returns the state's current visible-backlog field |
| UiState.SetVisibleBacklog | helixflow-core/src/state.rs:32-34 | after setting backlog `b`, the getter returns `Some(b.id)` and the state's id is unchanged |
| UiState.LastBacklogWins | helixflow-core/src/state.rs:32-34 | setting two backlogs in turn is the same as setting only the second |
| UiState.SetVisibleBacklogIdempotent | helixflow-core/src/state.rs:32-34 | setting the same backlog twice is the same as setting it once |
| UiState.OnlyBacklogIdMatters | helixflow-core/src/state.rs:32-34 | only the backlog's id is remembered: lists with equal ids give equal states |
| Errors.FromAnyhow | helixflow-core/src/task.rs:130-132 | an anyhow error converts to `BackendError` with the same message; values pass through |
| Relationships.Branch | helixflow-core/src/task.rs:96-102 | continues iff both sides are `Ok`, otherwise breaks; the relationship is handed on unaltered in both cases |
| Relationships.TryContainsOks | helixflow-core/src/task.rs:156-174 | a relationship between a new list and a new task, both `Ok`, continues and hands back the same list and task |
| Relationships.FirstError | helixflow-core/src/task.rs:265-269 | a broken relationship's error is the left error if the left failed, otherwise the right error |
| Blocking.Create | helixflow-core/src/task.rs:205-215 | succeeds iff the backend's create returns exactly the item; a backend error is returned unchanged; a different stored item gives `Mismatch` with the caller's item as expected and the stored one as actual |
| Blocking.Get | helixflow-core/src/task.rs:218-220 | returns exactly the backend's answer for the id |
| Blocking.Link | helixflow-core/src/task.rs:276-282 | linking a list and a task gives both sides `Ok`, sort order "a", and a relationship that always continues |
| Blocking.CreateLinkedItem | helixflow-core/src/task.rs:249-272 | a broken relationship fails with its first error; otherwise the call succeeds iff the backend's returned right side is `Ok` and equal to the intended task; backend errors and a failed returned right side pass through; a different returned task is a `Mismatch` expecting the intended task |
| Blocking.ShortCircuitIgnoresBackend | helixflow-core/src/task.rs:254-270 | a broken relationship gives the same error whichever backend is given, so the backend is never consulted |
| Blocking.LinkedCreateIsCrudCreate | helixflow-core/src/task.rs:255-264 | for a backend that creates the linked task through a store, linked creation gives the same answer as `CRUD::create` on that store |
| Blocking.GetLinkedItems | helixflow-core/src/task.rs:283-291 | returns exactly the backend's linked items for the list |
| TestBackend.CreateTask | helixflow-core/src/task.rs:325-333 | "FAIL" gives a `BackendError`; "MISMATCH" gives the same name and description under the new id; any other task is returned unchanged |
| TestBackend.GetTask | helixflow-core/src/task.rs:335-352 | found iff the id is one of the two known ids, and a found task carries exactly the requested id; otherwise `NotFound("Task", id)` |
| TestBackend.GetTaskList | helixflow-core/src/task.rs:359-370 | found iff the id is the known list id, with that id; otherwise `NotFound("Tasklist", id)` |
| TestBackend.CreateLinkedTask | helixflow-core/src/task.rs:375-391 | for the known list, returns the list, the requested sort order and the task as the backend's create stores it; for any other list, `NotFound("Tasklist", id)` |
| TestBackend.GetLinkedTasks | helixflow-core/src/task.rs:392-417 | the known list's links are Task 1 then Task 2, each linked from the list; any other list gives `NotFound("Tasklist", id)` |
| TestBackend.ConfirmsExactly | helixflow-core/src/task.rs:325-333 | the backend confirms a task exactly when its name is not "FAIL" and, for "MISMATCH", only if the rebuilt task got the caller's id back, so a fresh id makes it unequal |
| TestBackend.ListExistenceAgrees | helixflow-core/src/task.rs:359-417 | list lookup, linked creation and linked listing succeed for the same lists and otherwise all fail with the same `NotFound("Tasklist", id)` |
| TestBackend.CreateOrdinaryTask | helixflow-core/src/task.rs:472-477 | creating a task with an ordinary name is confirmed |
| TestBackend.CreateFailingTask | helixflow-core/src/task.rs:479-485 | creating "FAIL" fails with a `BackendError` |
| TestBackend.CreateMismatchedTask | helixflow-core/src/task.rs:487-499 | creating "MISMATCH" fails with a `Mismatch` of the caller's task against the re-identified one |
| TestBackend.GetScenarios | helixflow-core/src/task.rs:501-529 | getting Task 1's id yields Task 1; getting the unknown id yields `NotFound("Task", id)` with exactly that id |
| TestBackend.LinkedTasksOfBacklog | helixflow-core/src/task.rs:554-580 | the backlog's linked items have rights Task 1 then Task 2 and the backlog as left |
| TestBackend.LinkedCreateMatchesCreate | helixflow-core/src/task.rs:375-391 | for the known list, linked creation gives the same answer as creating the task alone |
| TestBackend.CreateTaskInBacklog | helixflow-core/src/task.rs:582-593 | linking an ordinary task into the backlog and creating it is confirmed |
| TestBackend.CreateMismatchInBacklog | helixflow-core/src/task.rs:595-611 | linked creation of "MISMATCH" fails with a `Mismatch` whose expected item is the intended task |
| TestBackend.CreateTaskInUnknownList | helixflow-core/src/task.rs:386-389 | linked creation into an unknown list fails with that list's `NotFound` |
| NonBlocking.Create | helixflow-core/src/task.rs:639-652 | succeeds iff the backend returns exactly the task; a backend failure is a `BackendError` with its message; a different task is a `Mismatch` |
| NonBlocking.AgreesWithBlocking | helixflow-core/src/task.rs:641-651 | the non-blocking create equals the blocking create over the same backend with its errors converted |
| NonBlocking.TestCreate | helixflow-core/src/task.rs:659-669 | "FAIL" fails; "MISMATCH" is rebuilt by `Task::new` under the new id; anything else is returned unchanged |
| NonBlocking.TestScenarios | helixflow-core/src/task.rs:679-712 | ordinary tasks are confirmed, "FAIL" is a `BackendError`, "MISMATCH" is a `Mismatch` |
| LegacyTask.Create | src/task.rs:27-30 | succeeds exactly when the backend succeeds, returns a backend error's message unchanged, and leaves the task as the backend left it on either path |
| LegacyTask.TestBackend | src/task.rs:40-50 | "FAIL" is refused with the task untouched; any other task gets id `Some(1)` and succeeds |
| LegacyTask.CreateWithTestBackend | src/task.rs:52-79 | name and description never change; "FAIL" fails and keeps the id; any other name succeeds with id `Some(1)` |
| Surreal.TaskFromRecord | backends/helixflow-surreal/src/lib.rs:35-50 | converts iff the record id is the UUID variant, copying name, description and UUID; otherwise `InvalidID` with the id's text |
| Surreal.TaskToRecord | backends/helixflow-surreal/src/lib.rs:52-60 | a task's record lives in table "Tasks" under its UUID and converts back to exactly the task |
| Surreal.TaskListFromRecord | backends/helixflow-surreal/src/lib.rs:72-86 | converts iff the record id is the UUID variant; otherwise `InvalidID` with the id's text |
| Surreal.TaskListToRecord | backends/helixflow-surreal/src/lib.rs:88-95 | a list's record lives in table "Tasklists" under its UUID and converts back to exactly the list |
| Surreal.TaskRecordRoundTrip | backends/helixflow-surreal/src/lib.rs:35-60 | a "Tasks" record with a UUID id is exactly the record of the task it converts to |
| Surreal.TaskListRecordRoundTrip | backends/helixflow-surreal/src/lib.rs:72-95 | a "Tasklists" record with a UUID id is exactly the record of the list it converts to |
| Surreal.CreateTask | backends/helixflow-surreal/src/lib.rs:124-139 | a failed database call or a create answering no record is a `BackendError`; a returned record is converted back |
| Surreal.GetTask | backends/helixflow-surreal/src/lib.rs:141-154 | a failed call is a `BackendError`; no record is `NotFound("Task", id)` with the requested id; a record is converted |
| Surreal.CreateTaskList | backends/helixflow-surreal/src/lib.rs:158-173 | as `CreateTask`, for lists |
| Surreal.GetTaskList | backends/helixflow-surreal/src/lib.rs:175-188 | as `GetTask`, with `NotFound("TaskList", id)` |
| Surreal.CreateThenGetTask | backends/helixflow-surreal/src/lib.rs:441-450 | when the database keeps and returns the record it is sent, `CRUD::create` confirms the task and `CRUD::get` returns an equal task |
| Surreal.CreateThenGetTaskList | backends/helixflow-surreal/src/lib.rs:157-188 | the same create-then-get round trip for lists |
| Surreal.StoredNonUuidIsInvalidId | backends/helixflow-surreal/src/lib.rs:146-148 | a stored record with a non-UUID id surfaces as `InvalidID`, not `NotFound` |
| Surreal.CreateLinkedItem | backends/helixflow-surreal/src/lib.rs:192-221 | fails first with the list lookup's error, then with the task creation's error; once both succeed, a failed edge insert is a `BackendError` with its message and a successful one gives both stored sides `Ok` with sort order "a" whatever was requested |
| Surreal.LinksFrom | backends/helixflow-surreal/src/lib.rs:240-249 | one relationship per record, each with left the given list, sort order "a" and right the record's conversion |
| Surreal.GetLinkedItems | backends/helixflow-surreal/src/lib.rs:222-251 | a failed query is a `BackendError`; otherwise the relationships are built from the first result row as `LinksFrom` states |
| Surreal.TaskRecords | backends/helixflow-surreal/src/lib.rs:52-60 | the records of a sequence of tasks, one `From<&Task>` record per task, in order |
| Surreal.LinkedItemsRoundTrip | backends/helixflow-surreal/src/lib.rs:222-251 | when the query answers with the records of some tasks, the linked items are exactly those tasks, in order, each linked from the list |
| Surreal.LinkedCreateConfirmed | backends/helixflow-surreal/src/lib.rs:192-221 | with an existing list, a database that keeps the task record, and a successful edge insert, the `Link` protocol confirms the new task |
| Surreal.LinkedCreateMissingList | backends/helixflow-surreal/src/lib.rs:197-202 | linked creation into a list the database does not hold fails with `NotFound("TaskList", id)` |

## Left out

- `TestBackend.TaskStore`, `TestBackend.TaskRelate`, `Surreal.TaskStore`, `Surreal.TaskListStore` and `Surreal.TaskRelate` carry no contract of their own: they only bundle a backend's operations into the `Store`/`Relate` records, as the source's `impl` blocks do.
- `Try::from_output` and both `FromResidual` impls: they are `todo!()` in the source. Nothing aggregates a broken relationship into the `Relationship` error, so that variant is declared and never produced.
- `TestBackend`'s `Store<TaskList>::create`: it is `todo!()`. Only its `get` is modelled.
- The test backends' `Cow::Borrowed("FAIL")` / `Cow::Borrowed("MISMATCH")` patterns match only borrowed strings. Every test builds its names from string literals, which are borrowed. The model has plain strings, so it compares names whatever their ownership.
- UUID v7 generation and time ordering: the fresh id is a parameter. The scenario lemmas that need it to differ from the caller's id say so in their requires.
- Error messages and `Display`/`Debug` formatting, including the "404 No … found" text: errors are compared by kind and fields. The `with_context` message of a create that answers no record is the fixed string `CreateContext`.
- `Box<dyn …>` and `Any` downcasting: replaced by the closed `Item` union.
- All SurrealDB I/O: the tokio runtime, `block_on`, `SurrealDb::new` with its file import, and the `Drop` export. The database's answers are the parameter `Db`. Whether `create_linked_item` is atomic is left to that parameter as well.
- Surreal.GetLinkedItems: when the query returns no row, the source panics at `.next().unwrap()`. The model's query answer has at least one row (`QueryRows`), so that panic is not modelled.
- The `State` ⇄ `SurrealState` conversion and `Store<State>` for SurrealDB: they read `State`'s private string id as a UUID, which does not type-check against `state.rs`. They also `unwrap()` an optional backlog.
- The blocking `StorageBackend`, `TaskList::all` and `TaskList::tasks`: trivial delegations to a backend listing.
- Async machinery (`async_trait`, executors) and the wasm tests, which name a type that does not exist. Only the synchronous meaning of the non-blocking `create` is modelled.
- `src/backends/surreal.rs`, `src/surreal.rs`, all UI code and application bootstrap: I/O and presentation glue outside this core.
