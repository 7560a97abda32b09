# Zweites Gehirn task core, modelled in Dafny

Zweites Gehirn is a desktop task manager. A Tauri back end written in Rust keeps tasks in
SQLite, and a Svelte front end holds them in a store. This project models its core and
proves properties of that model:

- the `tasks` table with the repository's create, read, update, delete, complete and
  subtask queries;
- the step-by-step construction of the partial UPDATE statement;
- subtask progress;
- the migration ladder over the `schema_version` ledger;
- the Kanban move;
- the service layer that forwards to the repository;
- the front-end store: its derived views and the list updates of its actions.

Layout, one module per file:

| file | module | models |
|---|---|---|
| results.dfy | `Results` | `Option`, `Result` and the causes a database call can fail with |
| models.dfy | `Models` | `Task`, `CreateTaskInput`, `UpdateTaskInput`, `SubtaskProgress`, `TaskWithSubtasks`; `i32`/`i64` as bounded integer types |
| text.dfy | `Text` | SQLite's BINARY text order, decimal rendering of integers and the INTEGER-affinity conversion back, placeholder counting |
| ordering.dfy | `Ordering` | the three sort orders and a stable insertion sort proved to return a sorted permutation |
| update_builder.dfy | `UpdateBuilder` | the SET list of `update`, its pushes, its SQL text and what executing it does to a row |
| task_repository.dfy | `TaskRepository` | class `TaskTable`, a map from id to row plus the AUTOINCREMENT counter, and the repository operations on it |
| task_service.dfy | `TaskService` | class `TaskService`, forwarding every call to its table |
| kanban.dfy | `Kanban` | `move_task_to_column` and `get_tasks_by_status` |
| schema.dfy | `Schema` | statements by their effect on a schema state, migrations v1 and v2 as scripts, and class `Database` whose methods execute them |
| task_store.dfy | `TaskStore` | the derived views as sequence functions, and class `TaskStore` with the `tasks`, `loading` and `error` stores |

Modelling choices:

- CURRENT_TIMESTAMP is a parameter `now`. The store's "today" is a parameter too.
- What a back-end call resolves to or rejects with is passed to each store action as an
  `Outcome`.
- Failures of the engine itself during a migration are modelled as a parameter. `faults`
  names the statements the engine rejects. `readFails` says whether the version read
  fails.
- Every mutating operation keeps the table invariant `TableInvariant`:
  - each row is stored under its own id;
  - ids lie below the AUTOINCREMENT counter;
  - a parent reference names a stored row no younger than the child;
  - a project reference names an existing project.

  This invariant makes the parent relation acyclic apart from self-references. The
  strict descent relation therefore terminates, and the ON DELETE CASCADE of
  `parent_task_id` can be stated as "the row and everything that descends from it".
- A task may name itself as its parent. SQLite checks the foreign key after the row is
  in place, so `create` accepts a parent id equal to the id the row is about to receive.
- `ORDER BY` does not fix the relative order of rows with equal keys. The model scans rows
  in id order and sorts them, and claims for the queries only that the result is sorted and
  a permutation of the matching rows. The insertion sort itself is stable, as
  `Array.prototype.sort` is for the store's views.
- `move_task_to_column` binds the position and the id as decimal text, built with
  `to_string`. The model renders them as text and reads them back the way an INTEGER
  column does, and proves that this round trip returns the integers.
- The front end's `!t.parent_task_id` is true for a missing parent and also for parent 0,
  so both count as top level. The views model both.
- A Tauri command rejects with a plain string, not with an `Error` object, so the store's
  message falls back to its default text. The model keeps the two kinds of rejection
  apart.

Three behaviours of the code worth knowing:

- `update` always pushes `updated_at = CURRENT_TIMESTAMP`. The SET list is therefore never
  empty, so the "nothing to update" return can never be taken, and an input with every
  field absent still writes `updated_at`.
- `complete` writes `status` and `completed_at` only; it leaves `updated_at` as it was.
- `update` accepts seven fields (`project_id`, `estimated_minutes`, `difficulty_level`,
  `energy_level`, `parent_task_id`, `order_index`, `tags`) but never writes them.

## Model

| member | source | states |
|---|---|---|
| Models.EncodeTagsInjective | src-tauri/src/db/repositories/task_repository.rs:17 | different tag lists are never stored as the same `tags` text |
| Text.TextLeTotal | src-tauri/src/db/repositories/task_repository.rs:92 | any two TEXT values are comparable in BINARY order |
| Text.TextLeTransitive | src-tauri/src/db/repositories/task_repository.rs:92 | BINARY order is transitive |
| Text.TextLeAntisymmetric | src-tauri/src/db/repositories/task_repository.rs:92 | two texts that each sort no later than the other are equal |
| Text.TextLe | src-tauri/src/db/repositories/task_repository.rs:92 | BINARY order: a prefix sorts no later than the text it begins, and a text sorts after each of its proper prefixes |
| Text.NatToDecimal | src-tauri/src/commands/kanban.rs:18 | the rendering of a number is non-empty and all digits |
| Text.ParseNatToDecimal | src-tauri/src/commands/kanban.rs:18 | reading back the digits of a number gives the number |
| Text.IntToDecimal | src-tauri/src/commands/kanban.rs:18 | `to_string` of an integer: digits, with a leading minus sign exactly when it is negative |
| Text.ParseDigits | src-tauri/src/commands/kanban.rs:16 | a digit string has a value exactly when it is non-empty and made only of digits |
| Text.IntegerAffinity | src-tauri/src/commands/kanban.rs:16 | text of the `to_string` form, an optional minus sign and at least one digit, reads back as an integer, negative only with the sign; other text has no reading in the model |
| Text.IntegerAffinityRoundTrip | src-tauri/src/commands/kanban.rs:16-18 | an integer bound as its `to_string` text is stored in an INTEGER column as that same integer, negative ones included |
| Text.OccurrencesAppend | src-tauri/src/db/repositories/task_repository.rs:154 | the placeholders of two joined fragments are those of each |
| Text.OccurrencesJoin | src-tauri/src/db/repositories/task_repository.rs:154 | when the separator has no placeholder, `join` has as many as its parts together |
| Text.TotalOccurrencesAppend | src-tauri/src/db/repositories/task_repository.rs:154 | counting placeholders over a list of parts distributes over concatenation |
| Text.Join | src-tauri/src/db/repositories/task_repository.rs:154 | `join` starts with the first part, and its length is that of the parts together plus one separator between each two neighbours |
| Ordering.LeTotal | src-tauri/src/db/repositories/task_repository.rs:92 | each of the listing order (`column_position`, `order_index`, `created_at DESC`), the subtask order (`order_index`, `created_at`) and the store's `order_index` comparator relates any two tasks one way or the other |
| Ordering.LeTransitive | src-tauri/src/db/repositories/task_repository.rs:190 | each of the three orders is transitive |
| Ordering.Insert | src-tauri/src/db/repositories/task_repository.rs:92 | inserting into a sorted list gives a sorted list with exactly one more occurrence of the new task |
| Ordering.Sort | src-tauri/src/db/repositories/task_repository.rs:92 | the result is sorted by the order and is a permutation of the input |
| Ordering.PermutationKeepsDistinct | src-tauri/src/db/repositories/task_repository.rs:111 | a permutation of a list without repeats has no repeats |
| Ordering.Le | src-tauri/src/db/repositories/task_repository.rs:92 | each order is reflexive, and its leading key (`column_position` for the listing order, `order_index` otherwise) decides whenever it differs |
| Ordering.InsertStable | src/lib/stores/tasks.ts:16 | inserting a task puts it ahead of the tasks with its key already in the list, and keeps their order |
| Ordering.InsertBehindHead | src/lib/stores/tasks.ts:16 | the step where the task goes behind the head: head and task cannot both have the key, so the order within the key is kept |
| Ordering.SortStable | src/lib/stores/tasks.ts:16-24 | the sort is stable: for every key, the tasks with that key come out in the order they went in |
| UpdateBuilder.Assignments | src-tauri/src/db/repositories/task_repository.rs:123-148 | the SET list is never empty and ends with the unconditional `updated_at` entry |
| UpdateBuilder.Clauses | src-tauri/src/db/repositories/task_repository.rs:120 | one clause text per entry |
| UpdateBuilder.UpdateSql | src-tauri/src/db/repositories/task_repository.rs:154 | the statement text begins `UPDATE tasks SET ` and ends with ` WHERE id = ?` |
| UpdateBuilder.ClausePlaceholders | src-tauri/src/db/repositories/task_repository.rs:124-148 | an entry's text has one `?` when it binds a value and none for `updated_at = CURRENT_TIMESTAMP` |
| UpdateBuilder.ClausesPlaceholders | src-tauri/src/db/repositories/task_repository.rs:120-148 | the clause texts together hold as many `?` as there are bound values |
| UpdateBuilder.SetListPlaceholders | src-tauri/src/db/repositories/task_repository.rs:154 | the joined SET list holds one `?` per bound value |
| UpdateBuilder.WhereClausePlaceholder | src-tauri/src/db/repositories/task_repository.rs:154 | the WHERE clause holds exactly one `?` |
| UpdateBuilder.PlaceholdersMatchParams | src-tauri/src/db/repositories/task_repository.rs:154-155 | the statement text holds exactly one `?` more than the SET list binds, the one for the id |
| UpdateBuilder.PushMaybe | src-tauri/src/db/repositories/task_repository.rs:123-126 | appending an optional entry appends its clause, and its value when it has one, to the two lists |
| UpdateBuilder.Push | src-tauri/src/db/repositories/task_repository.rs:124-125 | one `push` onto `updates` and onto `params` keeps both lists the texts and values of the entries pushed so far |
| UpdateBuilder.PushIf | src-tauri/src/db/repositories/task_repository.rs:123-126 | an `if let Some` push extends the entries by that field when present and keeps both lists in step |
| UpdateBuilder.PushFirstFields | src-tauri/src/db/repositories/task_repository.rs:123-134 | the pushes for title, description and status, in that order, each only when present |
| UpdateBuilder.PushLastFields | src-tauri/src/db/repositories/task_repository.rs:135-146 | the pushes for priority, scheduled_date and due_date, in that order, each only when present |
| UpdateBuilder.PushAssignments | src-tauri/src/db/repositories/task_repository.rs:120-148 | the built `updates` and `params` are the texts and values of the SET list of the input, in push order |
| UpdateBuilder.BuildUpdate | src-tauri/src/db/repositories/task_repository.rs:148-155 | the early return is never taken; the statement is `UPDATE tasks SET <clauses joined by ", "> WHERE id = ?`; its parameters are the SET values in column order with the id last; there is one placeholder per parameter |
| UpdateBuilder.Patched | src-tauri/src/db/repositories/task_repository.rs:123-148 | reference partial update: each of the six wired fields takes the input's value when present and keeps its own otherwise, `updated_at` becomes `now`, and every other column, including the seven accepted-but-unwired fields, is unchanged |
| UpdateBuilder.Apply | src-tauri/src/db/repositories/task_repository.rs:124-148 | one SET entry writes its own column and no other |
| UpdateBuilder.ApplyAll | src-tauri/src/db/repositories/task_repository.rs:154-160 | the SET list as executed never reaches the columns outside it, and leaves title, status or `updated_at` alone when it has no entry for them |
| UpdateBuilder.ApplyAllAppend | src-tauri/src/db/repositories/task_repository.rs:154 | executing a SET list is executing its parts left to right |
| UpdateBuilder.ApplyMaybe | src-tauri/src/db/repositories/task_repository.rs:123-126 | an absent field's entry leaves the row alone, a present one writes its column |
| UpdateBuilder.ApplyFirstFields | src-tauri/src/db/repositories/task_repository.rs:123-134 | the first three entries write title, description and status when present and nothing else |
| UpdateBuilder.ApplyLastFields | src-tauri/src/db/repositories/task_repository.rs:135-146 | the next three write priority, scheduled_date and due_date when present and nothing else |
| UpdateBuilder.AssignmentsArePatch | src-tauri/src/db/repositories/task_repository.rs:123-160 | executing the built SET list on a row gives exactly the reference partial update |
| UpdateBuilder.EmptyUpdateStillWrites | src-tauri/src/db/repositories/task_repository.rs:148-152 | with every field absent the SET list is `updated_at` alone, nothing but the id is bound, and the row changes only in `updated_at` |
| UpdateBuilder.TimestampOnlySql | src-tauri/src/db/repositories/task_repository.rs:148-154 | the statement for the timestamp alone is `UPDATE tasks SET updated_at = CURRENT_TIMESTAMP WHERE id = ?` with no SET parameter |
| TaskRepository.InsertError | src-tauri/src/db/repositories/task_repository.rs:19-37 | the INSERT fails exactly when the rowid space is exhausted, the parent names no row and is not the new row itself, or the project names no project; it fails only with a full database or a foreign key violation |
| TaskRepository.NewRow | src-tauri/src/db/repositories/task_repository.rs:19-37 | the inserted row has the given id, copies the ten caller columns, takes the schema defaults for the rest, and both timestamps are `now` |
| TaskRepository.InsertKeepsInvariant | src-tauri/src/db/schema.rs:97-121 | a successful insert uses an id not present before, copies the ten caller columns, gives the others their schema defaults (status `todo`, priority 0, order_index 0, column_position 0, user and workspace 1, no completion), stamps both timestamps, and keeps the table invariant |
| TaskRepository.SelfParentAccepted | src-tauri/src/db/schema.rs:120 | a task whose parent is the id it is about to receive is accepted |
| TaskRepository.Cascade | src-tauri/src/db/repositories/task_repository.rs:166-170 | after a delete the row is gone, no row is added or altered, and every row the cascade does not reach is kept |
| TaskRepository.CascadeRemovesSubtasks | src-tauri/src/db/schema.rs:120 | every direct subtask of the deleted row is deleted with it |
| TaskRepository.SubtaskDescends | src-tauri/src/db/schema.rs:120 | a stored row descends from its parent |
| TaskRepository.DescendsFromStored | src-tauri/src/db/schema.rs:120 | the ancestors of a stored row are stored |
| TaskRepository.CascadeMissingIsNoop | src-tauri/src/db/repositories/task_repository.rs:166-170 | deleting an id that is not stored changes nothing |
| TaskRepository.CascadeKeepsInvariant | src-tauri/src/db/schema.rs:120 | the cascade leaves no orphan: the table invariant holds afterwards |
| TaskRepository.Completed | src-tauri/src/db/repositories/task_repository.rs:176 | status becomes `completed`, completed_at becomes `now`, every other column, updated_at included, is kept |
| TaskRepository.Matches | src-tauri/src/db/repositories/task_repository.rs:86-190 | no WHERE clause admits every row, `status = ?1` admits only that status, and `parent_task_id = ?1` never admits a row without a parent |
| TaskRepository.CompleteTwice | src-tauri/src/db/repositories/task_repository.rs:173-179 | completing twice is completing once at the later time; the status is the same after the second call |
| TaskRepository.Scan | src-tauri/src/db/repositories/task_repository.rs:86-101 | a scan lists stored, matching rows of its id range in increasing id order |
| TaskRepository.ScanComplete | src-tauri/src/db/repositories/task_repository.rs:86-101 | a scan meets every matching row in its range |
| TaskRepository.ScanDistinct | src-tauri/src/db/repositories/task_repository.rs:111 | a scan lists no row twice |
| TaskRepository.Query | src-tauri/src/db/repositories/task_repository.rs:86-113 | a query returns exactly the stored rows that match its WHERE clause, each once, sorted by its ORDER BY |
| TaskRepository.CountCompleted | src-tauri/src/db/repositories/task_repository.rs:204-207 | the count is at most the length, equals it exactly when every subtask is completed, and is 0 exactly when none is |
| TaskRepository.CountCompletedAppend | src-tauri/src/db/repositories/task_repository.rs:204-207 | counting completed subtasks distributes over concatenation |
| TaskRepository.Percentage | src-tauri/src/db/repositories/task_repository.rs:208-212 | the percentage times the total is the completed count times 100; it lies in [0, 100]; it is 0 without subtasks; it is 100 exactly when there are subtasks and all are completed |
| TaskRepository.PercentageBounds | src-tauri/src/db/repositories/task_repository.rs:209 | the quotient `completed / total * 100` is exact, lies in [0, 100], and is 100 exactly when all are completed |
| TaskRepository.Progress | src-tauri/src/db/repositories/task_repository.rs:203-218 | total is the number of subtasks, completed the number of completed ones and at most total, percentage as above |
| TaskRepository.TaskTable.constructor | src-tauri/src/db/schema.rs:97-121 | a freshly created table is empty, counts from 1 and satisfies the invariant |
| TaskRepository.TaskTable.GetById | src-tauri/src/db/repositories/task_repository.rs:44-80 | the row stored under the id, or "no rows" exactly when there is none |
| TaskRepository.TaskTable.GetAll | src-tauri/src/db/repositories/task_repository.rs:83-113 | exactly the stored rows, or exactly those of the given status, each once, in listing order |
| TaskRepository.TaskTable.GetSubtasks | src-tauri/src/db/repositories/task_repository.rs:183-196 | exactly the stored rows whose parent is the id, each once, in subtask order |
| TaskRepository.TaskTable.GetWithSubtasks | src-tauri/src/db/repositories/task_repository.rs:199-225 | fails with "no rows" exactly when the task is missing; otherwise the task, its subtasks as `get_subtasks` lists them, their counts, and the percentage of the completed count over the total |
| TaskRepository.TaskTable.Create | src-tauri/src/db/repositories/task_repository.rs:15-41 | on an INSERT error nothing changes and the error is returned; otherwise the new row is stored under the counter's id, the counter moves on, the invariant is kept, and the result equals `get_by_id` of the new id |
| TaskRepository.TaskTable.Update | src-tauri/src/db/repositories/task_repository.rs:116-163 | the row under the id becomes its reference partial update and is returned; a missing id changes nothing and fails with "no rows" |
| TaskRepository.TaskTable.Delete | src-tauri/src/db/repositories/task_repository.rs:166-170 | the cascade is applied, the call always succeeds, the invariant is kept, and `get_by_id` of the id fails afterwards |
| TaskRepository.TaskTable.Complete | src-tauri/src/db/repositories/task_repository.rs:173-180 | the row under the id is completed and returned; a missing id changes nothing and fails with "no rows" |
| TaskService.TaskService.constructor | src-tauri/src/services/task_service.rs:9-13 | the service works on the given table |
| TaskService.TaskService.CreateTask | src-tauri/src/services/task_service.rs:15-17 | exactly the effect and the result of the repository's `create` |
| TaskService.TaskService.GetTask | src-tauri/src/services/task_service.rs:19-21 | exactly `get_by_id`, so it succeeds exactly when the id is stored |
| TaskService.TaskService.GetAllTasks | src-tauri/src/services/task_service.rs:23-25 | exactly `get_all` with the same filter |
| TaskService.TaskService.UpdateTask | src-tauri/src/services/task_service.rs:27-29 | exactly the effect and the result of `update` |
| TaskService.TaskService.DeleteTask | src-tauri/src/services/task_service.rs:31-33 | exactly the effect and the result of `delete` |
| TaskService.TaskService.CompleteTask | src-tauri/src/services/task_service.rs:35-37 | exactly the effect and the result of `complete` |
| TaskService.TaskService.GetTaskWithSubtasks | src-tauri/src/services/task_service.rs:40-42 | exactly `get_with_subtasks` |
| TaskService.TaskService.GetSubtasks | src-tauri/src/services/task_service.rs:44-46 | exactly `get_subtasks` |
| Kanban.Moved | src-tauri/src/commands/kanban.rs:16-18 | status, column_position and updated_at take the new values and every other column is kept |
| Kanban.MoveIsNotComplete | src-tauri/src/commands/kanban.rs:17 | moving into the `completed` column keeps completed_at, so it differs from `complete` |
| Kanban.MoveTaskToColumn | src-tauri/src/commands/kanban.rs:5-27 | the row under the id is moved, with position and id surviving their text binding, and re-read; a missing id changes nothing and the re-read fails with "no rows"; the invariant is kept |
| Kanban.GetTasksByStatus | src-tauri/src/commands/kanban.rs:29-38 | the service's listing for that status: exactly the stored tasks of that status, in listing order |
| Schema.MaxVersion | src-tauri/src/db/schema.rs:35 | `MAX(version)` of a non-empty ledger is a recorded version and no recorded version exceeds it |
| Schema.Exec | src-tauri/src/db/schema.rs:12-214 | one statement: a rejected one fails with the engine fault; a successful one drops nothing, touches the ledger only if it records a version, and the Kanban column only if it adds it |
| Schema.Run | src-tauri/src/db/schema.rs:56-214 | statements in order, `?` ending the run at the first error; nothing is dropped or deleted on the way, and the empty script succeeds without change |
| Schema.Pending | src-tauri/src/db/schema.rs:23-28 | at version 2 or above no step runs; at version 1 exactly v2 runs; nothing is dropped or deleted |
| Schema.Migrate | src-tauri/src/db/schema.rs:11-31 | a rejected ledger creation ends the run unchanged with that error; otherwise the ledger table exists afterwards; nothing is dropped or deleted |
| Schema.CurrentVersion | src-tauri/src/db/schema.rs:33-41 | always within `i32`; 0 for an empty ledger or a failed read; otherwise the maximum recorded version whenever every version fits `i32`; never a value other than 0 or that maximum |
| Schema.VersionsAppend | src-tauri/src/db/schema.rs:43-48 | appending a ledger row adds exactly its version |
| Schema.RecordVersion | src-tauri/src/db/schema.rs:13-16 | recording a version already in the ledger fails on the primary key and changes nothing; a new one appends one row stamped `now` |
| Schema.SeedsKeepExistingRows | src-tauri/src/db/schema.rs:182-191 | the seeds never overwrite: an existing user 1 or workspace 1 is kept as it is; user 1 exists afterwards, and so does workspace 1 once user 1 does; without user 1 and workspace 1 the workspace seed fails on its foreign key |
| Schema.FailedRunKeepsLedger | src-tauri/src/db/schema.rs:193 | a script that records its version last leaves the ledger as it was when it fails |
| Schema.RunKeepsColumns | src-tauri/src/db/schema.rs:52-196 | a script without the ADD COLUMN leaves `column_position` as it was |
| Schema.LedgerGrowsBy | src-tauri/src/db/schema.rs:43-48 | after a run the ledger holds only its old versions and those the script records |
| Schema.V001Shape | src-tauri/src/db/schema.rs:52-196 | v1 records version 1 and no other, last, and does not add the Kanban column |
| Schema.V002Shape | src-tauri/src/db/schema.rs:199-217 | v2 records version 2 and no other, last |
| Schema.CoreTablesSetup | src-tauri/src/db/schema.rs:56-123 | with no engine fault the four core tables are created without error |
| Schema.TaskIndexesSetup | src-tauri/src/db/schema.rs:126-129 | with no engine fault and the tasks table present the four indexes are created without error |
| Schema.SearchSetup | src-tauri/src/db/schema.rs:132-165 | with no engine fault the search table and its three triggers are created without error |
| Schema.SeedsSetup | src-tauri/src/db/schema.rs:168-191 | with no engine fault the preferences table and both seeds succeed |
| Schema.V001Setup | src-tauri/src/db/schema.rs:56-191 | with no engine fault, every statement of v1 before its ledger row succeeds on any database |
| Schema.V001Completes | src-tauri/src/db/schema.rs:52-196 | with no engine fault and version 1 not recorded, v1 completes and appends the row for version 1 |
| Schema.V002Completes | src-tauri/src/db/schema.rs:199-217 | with no engine fault, the tasks table present, no Kanban column and version 2 not recorded, v2 adds the column and the index and appends the row for version 2 |
| Schema.BothComplete | src-tauri/src/db/schema.rs:23-28 | from version 0 with an empty ledger and no faults, v1 then v2 run and the ledger becomes exactly {1, 2}, rows in that order, with user 1, workspace 1 and the column present |
| Schema.FreshRunAppliesBoth | src-tauri/src/db/schema.rs:5-31 | a run on a fresh database with no faults succeeds, whether or not the version read fails, and leaves the ledger rows 1 then 2 |
| Schema.RerunIsNoop | src-tauri/src/db/schema.rs:20-28 | at version 2 or above a run applies no step and changes nothing: startup is idempotent |
| Schema.FailureAborts | src-tauri/src/db/schema.rs:23-27 | when v1 fails the run ends there: v2 never runs, no version is recorded and `column_position` is unchanged |
| Schema.V001RecordsOnlyOne | src-tauri/src/db/schema.rs:193 | v1 never records version 2 |
| Schema.FailureLeavesV002Unrecorded | src-tauri/src/db/schema.rs:214 | a failed run never leaves version 2 recorded where it was not |
| Schema.ExistingColumnFailsV002 | src-tauri/src/db/schema.rs:203-206 | with the column already present while the ledger stops at 1, the run fails with a duplicate column and changes nothing |
| Schema.FailedReadReplaysV001 | src-tauri/src/db/schema.rs:33-41 | on a migrated database a failed version read falls back to 0 and replays v1: its creations and seeds succeed again, its ledger row fails on the primary key, and v2 never runs |
| Schema.Database.constructor | src-tauri/src/db/schema.rs:5 | a database nothing has been run on |
| Schema.Database.Execute | src-tauri/src/db/schema.rs:12-18 | one `conn.execute`: on success the new state is the statement's effect, on failure the error is returned and nothing changes |
| Schema.Database.SetVersion | src-tauri/src/db/schema.rs:43-49 | one ledger row for the version, or the insert's error with nothing changed |
| Schema.Database.Step | src-tauri/src/db/schema.rs:56-65 | one statement of a migration advances its run by one step or ends it with the statement's error |
| Schema.Database.CreateCoreTables | src-tauri/src/db/schema.rs:56-123 | the four table creations, stopping at the first error |
| Schema.Database.CreateTaskIndexes | src-tauri/src/db/schema.rs:126-129 | the four index creations, stopping at the first error |
| Schema.Database.CreateSearch | src-tauri/src/db/schema.rs:132-165 | the search table and its triggers, stopping at the first error |
| Schema.Database.CreatePreferencesAndSeeds | src-tauri/src/db/schema.rs:168-191 | the preferences table and the two seeds, stopping at the first error |
| Schema.Database.MigrationV001 | src-tauri/src/db/schema.rs:52-196 | the new state and result are those of running v1's statements in order, stopping at the first error |
| Schema.Database.MigrationV002 | src-tauri/src/db/schema.rs:199-217 | the new state and result are those of running v2's statements in order, stopping at the first error |
| Schema.Database.RunMigrations | src-tauri/src/db/schema.rs:11-31 | the new state and result are those of the ladder: ledger table, one version read, then the pending migrations in order |
| TaskStore.Filter | src/lib/stores/tasks.ts:15-36 | `filter` keeps exactly the admitted tasks, each as often as in the store, and never lengthens the list |
| TaskStore.NoParent | src/lib/stores/tasks.ts:16 | `!t.parent_task_id`: a task without a parent is top level, a task with a nonzero parent is not |
| TaskStore.Shows | src/lib/stores/tasks.ts:15-36 | the status views show only top-level tasks of their statuses (the active view none that is completed); the day view shows tasks scheduled or due that day |
| TaskStore.FilterAppend | src/lib/stores/tasks.ts:27-29 | filtering keeps store order: it distributes over concatenation |
| TaskStore.SortedView | src/lib/stores/tasks.ts:15-25 | a filtered view sorted by `order_index`, a permutation of the filtered tasks |
| TaskStore.ActiveTasks | src/lib/stores/tasks.ts:15-17 | sorted by `order_index`; exactly the parentless `todo` and `in_progress` tasks, each as often as in the store |
| TaskStore.TodoTasks | src/lib/stores/tasks.ts:19-21 | sorted by `order_index`; exactly the parentless `todo` tasks |
| TaskStore.InProgressTasks | src/lib/stores/tasks.ts:23-25 | sorted by `order_index`; exactly the parentless `in_progress` tasks |
| TaskStore.CompletedTasks | src/lib/stores/tasks.ts:27-29 | exactly the parentless `completed` tasks, in store order |
| TaskStore.TodayTasks | src/lib/stores/tasks.ts:31-36 | exactly the tasks scheduled or due on the given day, subtasks included, in store order |
| TaskStore.ActiveIsTodoAndInProgress | src/lib/stores/tasks.ts:15-25 | the active view holds the todo view and the in-progress view together, and its length is the sum of theirs |
| TaskStore.Prepend | src/lib/stores/tasks.ts:58 | the new task first, the old list as the tail, one longer |
| TaskStore.ReplaceById | src/lib/stores/tasks.ts:74 | same length; every element with the id replaced, every other one kept at its place |
| TaskStore.RemoveById | src/lib/stores/tasks.ts:90 | exactly the elements with another id remain, never more than before |
| TaskStore.RemoveAppend | src/lib/stores/tasks.ts:90 | removal keeps the relative order of the rest: it distributes over concatenation |
| TaskStore.ReplaceTwice | src/lib/stores/tasks.ts:74 | replacing again with the same id-keeping task changes nothing more |
| TaskStore.RemoveAfterReplace | src/lib/stores/tasks.ts:74 | a replaced task that keeps its id is removed like the original |
| TaskStore.RemoveAfterPrepend | src/lib/stores/tasks.ts:58 | removing the id of a prepended task undoes the prepend together with the other tasks of that id |
| TaskStore.Message | src/lib/stores/tasks.ts:46 | an `Error` rejection shows its message, any other the fallback text |
| TaskStore.TaskStore.constructor | src/lib/stores/tasks.ts:5-12 | empty list, not loading, no error |
| TaskStore.TaskStore.LoadTasks | src/lib/stores/tasks.ts:39-51 | the fetched list replaces the store; a rejection leaves it, sets the message and is swallowed; loading ends false |
| TaskStore.TaskStore.AddTask | src/lib/stores/tasks.ts:53-67 | the created task is prepended; a rejection leaves the list, sets the message and is returned; loading ends false |
| TaskStore.TaskStore.ModifyTask | src/lib/stores/tasks.ts:69-83 | every task with the id is replaced by the updated one; a rejection leaves the list and sets the message; loading ends false |
| TaskStore.TaskStore.RemoveTask | src/lib/stores/tasks.ts:85-98 | every task with the id is dropped; a rejection leaves the list and sets the message; loading ends false |
| TaskStore.TaskStore.MarkTaskComplete | src/lib/stores/tasks.ts:100-114 | every task with the id is replaced by the completed one; a rejection leaves the list and sets the message; loading ends false |

## Left out

- The SQLite engine, rusqlite and the r2d2 connection pool are replaced by their effect
  on an abstract table. A failure to get a pooled connection is not modelled in the
  repository. In the migrations it is one of the engine faults that `faults` stands for.
- The PRAGMAs `foreign_keys = ON` and `journal_mode = WAL` are engine settings. The model
  assumes that every connection enforces foreign keys: the INSERT checks of `create` and
  the ON DELETE CASCADE of `delete` rest on it. The source does not arrange this.
  `foreign_keys = ON` is a per-connection setting, and it is issued
  (src-tauri/src/db/schema.rs:6) only on the one pooled connection that runs the
  migrations (src-tauri/src/db/mod.rs:25-26). The pool (src-tauri/src/db/mod.rs:21-22)
  has no hook that sets it on the others.
- The full-text search table and its triggers keep a search index in step with `tasks`.
  The model records that they are created, not what the triggers do.
- The repository's `map_task_row` copies the twenty columns of a row into a `Task` in
  order. The model gives rows as `Task` values directly, so the mapping is the identity
  and has no member of its own.
- The Rust `Task` struct (src-tauri/src/db/models.rs:4-24) has nineteen fields and no
  `column_position`. The repository's row mappings still set `column_position`
  (src-tauri/src/db/repositories/task_repository.rs:71 and :246), so the back end as
  written does not compile against that struct. The front end's `Task` type has the field
  (src/lib/types/task.ts:18), and without it in the struct the field would never reach
  the front end. The model's `Task` follows the repository and the front end, with all
  twenty columns; it does not model the struct's missing field.
- The foreign keys from `tasks` to `users` and `workspaces` are not checked on insert. The
  model assumes the migrations' seeds, user 1 and workspace 1, are present. The
  `ON DELETE SET NULL` of `project_id` is not modelled, because no core operation
  deletes a project.
- The Tauri command wrappers are not modelled: they only turn errors into strings. This
  includes the `map_err(to_string)` of the Kanban commands, whose errors stay as
  `DbError`s in the model. The wiring defects of the Kanban command are not modelled
  either: the pool field its state lacks, and the missing command registration. The
  model calls the table directly.
- Logging (`tracing::info!`, `console.error`), `async`/`await`, and overlapping store
  calls are not modelled. `new Date()` becomes the `today` parameter. The
  `invoke` bridge becomes the `Outcome` given to each store action.
- The directory and path handling of the database file is I/O and not modelled.
- `serde_json` encoding of tags follows section 5 of RFC 8259. It is kept abstract as an
  injective encoding and not reimplemented. The panic of `unwrap` on a failed encoding
  cannot occur for a list of strings.
- Text.IntegerAffinity: describes the INTEGER-affinity reading only for text made of an
  optional minus sign and digits, the only form `to_string` binds here. SQLite also reads
  other text as an integer, such as `'+5'`, `' 5 '`, `'5.0'` and `'1e3'`, and stores a
  digit string outside the 64-bit range as REAL. For such an out-of-range string the
  model returns the unbounded integer instead. The round trip
  `IntegerAffinityRoundTrip` needs only the `to_string` form.
- TaskRepository.Percentage: the source computes the percentage in `f32`. The model
  takes the exact quotient and does not model float rounding.
- TaskRepository.Progress: `total` and `completed` are cast `as i32` in the source. The
  model keeps them as unbounded naturals, and does not model the wrap of a count above
  2^31 - 1.
- Schema.BothComplete, Schema.V001Completes, Schema.V002Completes and
  Schema.FreshRunAppliesBoth assume that the engine rejects no statement (`faults`
  empty). The failure lemmas hold for any set of faults.
- Schema.Database.RunMigrations starts at the ledger table. The two PRAGMAs before it are
  not modelled (see above).
- The tables of users, workspaces, projects and preferences are modelled only as far as
  the migrations touch them: existence, and rows 1 of `users` and `workspaces`.
- Indexes have no effect on results. The model records only that they exist.
