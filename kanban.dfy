/** The Kanban commands: moving a task to a column, and one column's tasks. */
module Kanban {
  import opened Results
  import opened Models
  import opened Text
  import opened Ordering
  import opened TaskRepository
  import opened TaskService

  /** The row after a move: new status and position, updated_at stamped, every other
      column, completed_at included, as it was. */
  function Moved(t: Task, status: string, position: i32, now: string): (u: Task)
    ensures u.status == status && u.columnPosition == position && u.updatedAt == now
    ensures u.(status := t.status, columnPosition := t.columnPosition, updatedAt := t.updatedAt) == t
  {
    t.(status := status, columnPosition := position, updatedAt := now)
  }

  /** Moving into the "completed" column is not completing: completed_at is kept, where
      `complete` stamps it, and `complete` leaves updated_at alone, where a move stamps it. */
  lemma MoveIsNotComplete(t: Task, position: i32, now: string)
    requires t.completedAt != Some(now)
    ensures Moved(t, "completed", position, now).completedAt == t.completedAt
    ensures Moved(t, "completed", position, now) != Completed(t, now)
  {
    assert Moved(t, "completed", position, now).completedAt != Completed(t, now).completedAt;
  }

  /** The row under `id` moved and returned, or no row and nothing changed. */
  twostate predicate MovedInTable(t: TaskTable, id: i64, status: string, position: i32, now: string,
                                  new r: Result<Task>)
    reads t
  {
    && t.nextId == old(t.nextId)
    && (id in old(t.rows) ==>
          t.rows == old(t.rows)[id := Moved(old(t.rows)[id], status, position, now)]
          && r == Ok(Moved(old(t.rows)[id], status, position, now)))
    && (id !in old(t.rows) ==> t.rows == old(t.rows) && r == Err(NoRows))
  }

  /** `move_task_to_column`: the UPDATE binds position and id as decimal text, which the
      INTEGER columns read back as the integers they spell; then the service re-reads. */
  method MoveTaskToColumn(service: TaskService, taskId: i64, newStatus: string, position: i32, now: string)
    returns (r: Result<Task>)
    requires service.repository.Valid()
    modifies service.repository
    ensures service.repository.Valid()
    ensures MovedInTable(service.repository, taskId, newStatus, position, now, r)
  {
    var table := service.repository;
    var params := [newStatus, IntToDecimal(position), IntToDecimal(taskId)];
    IntegerAffinityRoundTrip(position);
    IntegerAffinityRoundTrip(taskId);
    var storedPosition: i32 := IntegerAffinity(params[1]).value;
    var key: i64 := IntegerAffinity(params[2]).value;
    if key in table.rows {
      table.rows := table.rows[key := Moved(table.rows[key], params[0], storedPosition, now)];
    }
    r := service.GetTask(taskId);
  }

  /** `get_tasks_by_status`: the service's listing for that one status. */
  function GetTasksByStatus(service: TaskService, status: string): (r: seq<Task>)
    requires service.repository.Valid()
    reads service.repository
    ensures r == service.GetAllTasks(Some(status))
    ensures forall t :: t in r <==>
      t.id in service.repository.rows && service.repository.rows[t.id] == t && t.status == status
    ensures Sorted(ListingOrder, r)
  {
    service.GetAllTasks(Some(status))
  }
}
