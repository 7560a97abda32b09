/** The `tasks` table and the repository operations on it. The table is a map from id
    to row plus the AUTOINCREMENT counter; the engine, the connection pool and the SQL
    round trips are replaced by their effect on that map. */
module TaskRepository {
  import opened Results
  import opened Models
  import opened Text
  import opened Ordering
  import opened UpdateBuilder

  // ---------------------------------------------------------------------------
  // The table as a value.

  /** Every row is stored under its own id. */
  predicate Keyed(rows: map<i64, Task>) {
    forall k :: k in rows ==> rows[k].id == k
  }

  /** What the schema and AUTOINCREMENT guarantee of the stored rows: ids are positive
      and below the counter, a parent reference names a stored row that is not younger
      than the child (it existed when the child was inserted, or is the row itself), and
      a project reference names an existing project. */
  predicate TableInvariant(rows: map<i64, Task>, nextId: int, projects: set<i64>) {
    && 1 <= nextId <= MAX_ROWID + 1
    && Keyed(rows)
    && (forall k :: k in rows ==> 1 <= k < nextId)
    && (forall k :: k in rows && rows[k].parentTaskId.Some? ==>
          rows[k].parentTaskId.value in rows && rows[k].parentTaskId.value <= k)
    && (forall k :: k in rows && rows[k].projectId.Some? ==> rows[k].projectId.value in projects)
  }

  // ---------------------------------------------------------------------------
  // INSERT.

  /** The row `create` inserts: the ten caller columns copied (tags JSON-encoded), every
      other column at its schema default, both timestamps CURRENT_TIMESTAMP. */
  function NewRow(id: i64, input: CreateTaskInput, now: string): (t: Task)
    ensures t.id == id && CopiesInput(t, input) && HasColumnDefaults(t)
    ensures t.createdAt == now && t.updatedAt == now
  {
    Task(
      id := id,
      userId := 1,
      workspaceId := 1,
      title := input.title,
      description := input.description,
      projectId := input.projectId,
      status := "todo",
      priority := 0,
      estimatedMinutes := input.estimatedMinutes,
      difficultyLevel := input.difficultyLevel,
      energyLevel := input.energyLevel,
      scheduledDate := input.scheduledDate,
      dueDate := input.dueDate,
      completedAt := None,
      parentTaskId := input.parentTaskId,
      orderIndex := 0,
      columnPosition := 0,
      tags := if input.tags.Some? then Some(EncodeTags(input.tags.value)) else None,
      createdAt := now,
      updatedAt := now)
  }

  /** The columns whose values come from the caller. */
  predicate CopiesInput(t: Task, input: CreateTaskInput) {
    && t.title == input.title && t.description == input.description
    && t.projectId == input.projectId && t.estimatedMinutes == input.estimatedMinutes
    && t.difficultyLevel == input.difficultyLevel && t.energyLevel == input.energyLevel
    && t.scheduledDate == input.scheduledDate && t.dueDate == input.dueDate
    && t.parentTaskId == input.parentTaskId
    && (t.tags.Some? <==> input.tags.Some?)
    && (input.tags.Some? ==> t.tags.value == EncodeTags(input.tags.value))
  }

  /** The columns the input cannot reach take the schema defaults. */
  predicate HasColumnDefaults(t: Task) {
    && t.userId == 1 && t.workspaceId == 1 && t.status == "todo" && t.priority == 0
    && t.orderIndex == 0 && t.columnPosition == 0 && t.completedAt == None
  }

  /** Why the INSERT fails, if it does: no rowid left, or a foreign key that names no row.
      SQLite lets a row name itself as parent, so a parent equal to the new id passes. */
  function InsertError(rows: map<i64, Task>, nextId: int, projects: set<i64>, input: CreateTaskInput)
    : (e: Option<DbError>)
    ensures e.None? <==>
      && nextId <= MAX_ROWID
      && (input.parentTaskId.Some? ==> input.parentTaskId.value in rows || input.parentTaskId.value == nextId)
      && (input.projectId.Some? ==> input.projectId.value in projects)
    ensures e.Some? ==> e.value in {DatabaseFull, ForeignKeyViolation}
  {
    if nextId > MAX_ROWID then Some(DatabaseFull)
    else if input.parentTaskId.Some? && input.parentTaskId.value !in rows
         && input.parentTaskId.value != nextId then Some(ForeignKeyViolation)
    else if input.projectId.Some? && input.projectId.value !in projects then Some(ForeignKeyViolation)
    else None
  }

  /** A successful insert adds a row under a fresh id, leaves every old row as it was,
      and keeps the table invariant. */
  lemma InsertKeepsInvariant(rows: map<i64, Task>, nextId: int, projects: set<i64>,
                             input: CreateTaskInput, now: string)
    requires TableInvariant(rows, nextId, projects)
    requires InsertError(rows, nextId, projects, input).None?
    ensures nextId !in rows
    ensures var t := NewRow(nextId, input, now);
      && t.id == nextId && CopiesInput(t, input) && HasColumnDefaults(t)
      && t.createdAt == now && t.updatedAt == now
    ensures TableInvariant(rows[nextId := NewRow(nextId, input, now)], nextId + 1, projects)
  {
    var rows' := rows[nextId := NewRow(nextId, input, now)];
    forall k | k in rows' && rows'[k].parentTaskId.Some?
      ensures rows'[k].parentTaskId.value in rows' && rows'[k].parentTaskId.value <= k
    {
      if k != nextId {
        assert rows'[k] == rows[k];
      }
    }
  }

  /** A task may be created as its own parent. */
  lemma SelfParentAccepted(rows: map<i64, Task>, nextId: int, projects: set<i64>, input: CreateTaskInput)
    requires nextId <= MAX_ROWID
    requires input.parentTaskId == Some(nextId) && input.projectId == None
    ensures InsertError(rows, nextId, projects, input) == None
  {
  }

  // ---------------------------------------------------------------------------
  // DELETE with ON DELETE CASCADE on parent_task_id.

  /** Row `x` is `a` or has `a` as an ancestor along parent_task_id. */
  predicate Descends(rows: map<i64, Task>, x: i64, a: i64)
    decreases if x < 0 then 0 else x
  {
    x == a
    || (x in rows && rows[x].parentTaskId.Some?
        && 0 <= rows[x].parentTaskId.value < x
        && Descends(rows, rows[x].parentTaskId.value, a))
  }

  /** The table after deleting `id`: the row and everything below it are gone; every
      row the cascade does not reach is kept as it was, and nothing is added. */
  function Cascade(rows: map<i64, Task>, id: i64): (r: map<i64, Task>)
    ensures id !in r && r.Items <= rows.Items
    ensures forall k {:trigger Descends(rows, k, id)} :: k in rows && !Descends(rows, k, id) ==> k in r
  {
    assert Descends(rows, id, id);
    map k | k in rows && !Descends(rows, k, id) :: rows[k]
  }

  /** Every subtask of the deleted row goes with it. */
  lemma CascadeRemovesSubtasks(rows: map<i64, Task>, nextId: int, projects: set<i64>, id: i64)
    requires TableInvariant(rows, nextId, projects)
    ensures forall k :: k in rows && rows[k].parentTaskId == Some(id) ==> k !in Cascade(rows, id)
  {
    forall k | k in rows && rows[k].parentTaskId == Some(id) ensures k !in Cascade(rows, id) {
      SubtaskDescends(rows, nextId, projects, k, id);
    }
  }

  /** Under the table invariant every stored row is reached by the cascade from its parent. */
  lemma SubtaskDescends(rows: map<i64, Task>, nextId: int, projects: set<i64>, k: i64, id: i64)
    requires TableInvariant(rows, nextId, projects)
    requires k in rows && rows[k].parentTaskId == Some(id)
    ensures Descends(rows, k, id)
  {
    if id != k {
      assert 0 <= id < k;
      assert Descends(rows, id, id);
    }
  }

  /** A row reached from a stored row has its ancestor stored too. */
  lemma {:induction false} DescendsFromStored(rows: map<i64, Task>, nextId: int, projects: set<i64>, x: i64, a: i64)
    requires TableInvariant(rows, nextId, projects)
    requires x in rows && Descends(rows, x, a)
    ensures a in rows
    decreases if x < 0 then 0 else x
  {
    if x != a {
      DescendsFromStored(rows, nextId, projects, rows[x].parentTaskId.value, a);
    }
  }

  /** Deleting an id that is not stored changes nothing. */
  lemma CascadeMissingIsNoop(rows: map<i64, Task>, nextId: int, projects: set<i64>, id: i64)
    requires TableInvariant(rows, nextId, projects)
    requires id !in rows
    ensures Cascade(rows, id) == rows
  {
    forall k | k in rows ensures !Descends(rows, k, id) {
      if Descends(rows, k, id) {
        DescendsFromStored(rows, nextId, projects, k, id);
      }
    }
  }

  /** The cascade never leaves an orphan: the invariant survives a delete. */
  lemma CascadeKeepsInvariant(rows: map<i64, Task>, nextId: int, projects: set<i64>, id: i64)
    requires TableInvariant(rows, nextId, projects)
    ensures TableInvariant(Cascade(rows, id), nextId, projects)
  {
    var rows' := Cascade(rows, id);
    forall k | k in rows' && rows'[k].parentTaskId.Some?
      ensures rows'[k].parentTaskId.value in rows'
    {
      var p := rows[k].parentTaskId.value;
      assert p in rows && 1 <= p <= k && !Descends(rows, k, id);
      if p < k {
        assert Descends(rows, p, id) ==> Descends(rows, k, id);
      }
    }
  }

  // ---------------------------------------------------------------------------
  // UPDATE ... SET status = 'completed', completed_at = CURRENT_TIMESTAMP.

  /** The row after `complete`: two columns change, updated_at among the others kept. */
  function Completed(t: Task, now: string): (u: Task)
    ensures u.status == "completed" && u.completedAt == Some(now)
    ensures u.(status := t.status, completedAt := t.completedAt) == t
  {
    t.(status := "completed", completedAt := Some(now))
  }

  /** Completing twice is completing once at the later time. */
  lemma CompleteTwice(t: Task, first: string, second: string)
    ensures Completed(Completed(t, first), second) == Completed(t, second)
    ensures Completed(Completed(t, first), second).status == Completed(t, first).status
  {
  }

  // ---------------------------------------------------------------------------
  // The listing queries.

  /** The three WHERE clauses: none, `status = ?1`, `parent_task_id = ?1`. Comparing
      with a NULL parent is never true. */
  datatype Filter = All | StatusIs(status: string) | ParentIs(parent: i64)

  predicate Matches(f: Filter, t: Task)
    ensures f.All? ==> Matches(f, t)
    ensures f.StatusIs? && Matches(f, t) ==> t.status == f.status
    ensures f.ParentIs? && t.parentTaskId.None? ==> !Matches(f, t)
  {
    match f
    case All => true
    case StatusIs(s) => t.status == s
    case ParentIs(p) => t.parentTaskId == Some(p)
  }

  /** The matching rows with ids in [lo, hi), in id order, as a table scan meets them. */
  function Scan(rows: map<i64, Task>, f: Filter, lo: int, hi: int): (r: seq<Task>)
    requires Keyed(rows)
    ensures forall i :: 0 <= i < |r| ==>
      r[i].id in rows && rows[r[i].id] == r[i] && lo <= r[i].id < hi && Matches(f, r[i])
    ensures forall i, j :: 0 <= i < j < |r| ==> r[i].id < r[j].id
    decreases hi - lo
  {
    if lo >= hi then []
    else
      var tail := Scan(rows, f, lo + 1, hi);
      if lo in rows && Matches(f, rows[lo]) then [rows[lo]] + tail else tail
  }

  /** A scan meets every matching row in its range. */
  lemma {:induction false} ScanComplete(rows: map<i64, Task>, f: Filter, lo: int, hi: int, k: i64)
    requires Keyed(rows)
    requires k in rows && lo <= k < hi && Matches(f, rows[k])
    ensures rows[k] in Scan(rows, f, lo, hi)
    decreases hi - lo
  {
    if k != lo {
      ScanComplete(rows, f, lo + 1, hi, k);
    }
  }

  /** A scan lists no row twice. */
  lemma ScanDistinct(rows: map<i64, Task>, f: Filter, lo: int, hi: int)
    requires Keyed(rows)
    ensures Distinct(Scan(rows, f, lo, hi))
  {
    var s := Scan(rows, f, lo, hi);
    forall i, j | 0 <= i < j < |s| ensures s[i] != s[j] {
      assert s[i].id < s[j].id;
    }
  }

  /** A query result: exactly the stored rows that match, each once, sorted by `o`. */
  function Query(rows: map<i64, Task>, nextId: int, projects: set<i64>, f: Filter, o: Order): (r: seq<Task>)
    requires TableInvariant(rows, nextId, projects)
    ensures forall t :: t in r <==> t.id in rows && rows[t.id] == t && Matches(f, t)
    ensures Sorted(o, r)
    ensures Distinct(r)
  {
    var s := Scan(rows, f, 1, nextId);
    ScanDistinct(rows, f, 1, nextId);
    forall k | k in rows && Matches(f, rows[k]) ensures rows[k] in s {
      ScanComplete(rows, f, 1, nextId, k);
    }
    var r := Sort(o, s);
    PermutationKeepsDistinct(s, r);
    assert forall t :: t in r <==> t in multiset(s);
    r
  }

  // ---------------------------------------------------------------------------
  // Subtask progress.

  function CountCompleted(s: seq<Task>): (n: nat)
    ensures n <= |s|
    ensures n == |s| <==> forall i :: 0 <= i < |s| ==> s[i].status == "completed"
    ensures n == 0 <==> forall i :: 0 <= i < |s| ==> s[i].status != "completed"
  {
    if s == [] then 0
    else
      var rest := CountCompleted(s[1..]);
      assert forall i :: 1 <= i < |s| ==> s[i] == s[1..][i - 1];
      (if s[0].status == "completed" then 1 else 0) + rest
  }

  /** Counting distributes over concatenation. */
  lemma {:induction false} CountCompletedAppend(a: seq<Task>, b: seq<Task>)
    ensures CountCompleted(a + b) == CountCompleted(a) + CountCompleted(b)
    decreases |a|
  {
    if a == [] {
      assert a + b == b;
    } else {
      assert (a + b)[1..] == a[1..] + b;
      CountCompletedAppend(a[1..], b);
    }
  }

  /** Total, completed and the exact percentage over a list of subtasks. */
  function Progress(subtasks: seq<Task>): (p: SubtaskProgress)
    ensures p.total == |subtasks|
    ensures p.completed == CountCompleted(subtasks) && p.completed <= p.total
    ensures p.total == 0 ==> p.percentage == 0.0
    ensures p.percentage == Percentage(p.completed, p.total)
  {
    var total := |subtasks|;
    var completed := CountCompleted(subtasks);
    SubtaskProgress(total, completed, Percentage(completed, total))
  }

  /** `completed / total * 100` when there are subtasks, else 0, taken exactly. */
  function Percentage(completed: nat, total: nat): (p: real)
    requires completed <= total
    ensures p * (total as real) == (completed as real) * 100.0
    ensures 0.0 <= p <= 100.0
    ensures total == 0 ==> p == 0.0
    ensures p == 100.0 <==> total > 0 && completed == total
  {
    if total > 0 then
      var p := (completed as real / total as real) * 100.0;
      PercentageBounds(completed, total, p);
      p
    else
      0.0
  }

  lemma PercentageBounds(completed: nat, total: nat, p: real)
    requires 0 < total && completed <= total
    requires p == (completed as real / total as real) * 100.0
    ensures p * (total as real) == (completed as real) * 100.0
    ensures 0.0 <= p <= 100.0
    ensures p == 100.0 <==> completed == total
  {
    var c, t := completed as real, total as real;
    var q := c / t;
    assert q * t == c;
    assert 0.0 <= q;
    assert (1.0 - q) * t == t - c;
    assert q <= 1.0;
    assert q == 1.0 <==> c == t;
  }

  // ---------------------------------------------------------------------------
  // The repository over one table.

  class TaskTable {
    var rows: map<i64, Task>
    /** The AUTOINCREMENT counter: the id the next insert takes. */
    var nextId: int
    /** The ids of the `projects` table, which no core operation changes. */
    const projects: set<i64>

    predicate Valid()
      reads this
    {
      TableInvariant(rows, nextId, projects)
    }

    /** A freshly migrated, empty table. */
    constructor (projects: set<i64>)
      ensures Valid()
      ensures rows == map[] && nextId == 1 && this.projects == projects
    {
      rows := map[];
      nextId := 1;
      this.projects := projects;
    }

    /** `get_by_id`: the row under `id`, or no row. */
    function GetById(id: i64): (r: Result<Task>)
      requires Valid()
      reads this
      ensures r.Ok? <==> id in rows
      ensures r.Ok? ==> r.value == rows[id] && r.value.id == id
      ensures r.Err? ==> r.error == NoRows
    {
      if id in rows then Ok(rows[id]) else Err(NoRows)
    }

    /** `get_all`: every row, or the rows of one status, in listing order. */
    function GetAll(status: Option<string>): (r: seq<Task>)
      requires Valid()
      reads this
      ensures forall t :: t in r <==>
        t.id in rows && rows[t.id] == t && (status.Some? ==> t.status == status.value)
      ensures Sorted(ListingOrder, r) && Distinct(r)
    {
      Query(rows, nextId, projects, if status.Some? then StatusIs(status.value) else All, ListingOrder)
    }

    /** `get_subtasks`: the rows whose parent is `parentId`, in subtask order. */
    function GetSubtasks(parentId: i64): (r: seq<Task>)
      requires Valid()
      reads this
      ensures forall t :: t in r <==> t.id in rows && rows[t.id] == t && t.parentTaskId == Some(parentId)
      ensures Sorted(SubtaskOrder, r) && Distinct(r)
    {
      Query(rows, nextId, projects, ParentIs(parentId), SubtaskOrder)
    }

    /** `get_with_subtasks`: the row, its subtasks and their progress. */
    function GetWithSubtasks(id: i64): (r: Result<TaskWithSubtasks>)
      requires Valid()
      reads this
      ensures r.Ok? <==> id in rows
      ensures r.Err? ==> r.error == NoRows
      ensures r.Ok? ==> && r.value.task == rows[id]
                        && r.value.subtasks == GetSubtasks(id)
                        && r.value.progress.total == |r.value.subtasks|
                        && r.value.progress.completed == CountCompleted(r.value.subtasks)
      ensures r.Ok? ==> r.value.progress == Progress(r.value.subtasks)
                        && r.value.progress.percentage
                           == Percentage(r.value.progress.completed, r.value.progress.total)
    {
      match GetById(id)
      case Err(e) => Err(e)
      case Ok(task) =>
        var subtasks := GetSubtasks(id);
        Ok(TaskWithSubtasks(task, subtasks, Progress(subtasks)))
    }

    /** `create`: the INSERT, then the re-read of the new id. */
    method Create(input: CreateTaskInput, now: string) returns (r: Result<Task>)
      requires Valid()
      modifies this
      ensures Valid() && Created(this, input, now, r)
      ensures r.Ok? ==> r == GetById(r.value.id)
    {
      var e := InsertError(rows, nextId, projects, input);
      if e.Some? {
        return Err(e.value);
      }
      InsertKeepsInvariant(rows, nextId, projects, input, now);
      var id: i64 := nextId;
      rows := rows[id := NewRow(id, input, now)];
      nextId := nextId + 1;
      r := GetById(id);
    }

    /** `update`: the built statement executed on the row, then the re-read. */
    method Update(id: i64, input: UpdateTaskInput, now: string) returns (r: Result<Task>)
      requires Valid()
      modifies this
      ensures Valid() && Updated(this, id, input, now, r)
    {
      var stmt := BuildUpdate(id, input);
      // An empty SET list would skip straight to the re-read; the timestamp rules it out.
      // The statement's SET list is `Assignments(input)`; it touches the row with that id.
      if stmt.Some? && id in rows {
        AssignmentsArePatch(rows[id], input, now);
        rows := rows[id := ApplyAll(rows[id], Assignments(input), now)];
      }
      r := GetById(id);
    }

    /** `delete`: the row and, by the cascade, all rows below it. */
    method Delete(id: i64) returns (r: Result<()>)
      requires Valid()
      modifies this
      ensures Valid() && Deleted(this, id, r)
      ensures GetById(id) == Err(NoRows)
    {
      CascadeKeepsInvariant(rows, nextId, projects, id);
      rows := Cascade(rows, id);
      r := Ok(());
    }

    /** `complete`: the two-column UPDATE, then the re-read. */
    method Complete(id: i64, now: string) returns (r: Result<Task>)
      requires Valid()
      modifies this
      ensures Valid() && MarkedComplete(this, id, now, r)
    {
      if id in rows {
        rows := rows[id := Completed(rows[id], now)];
      }
      r := GetById(id);
    }
  }

  // ---------------------------------------------------------------------------
  // The effect of each mutating operation on a table, shared by its callers.

  /** Either the INSERT's error with the table untouched, or the new row under the next
      id, the counter moved on, and the new row returned. */
  twostate predicate Created(t: TaskTable, input: CreateTaskInput, now: string, new r: Result<Task>)
    reads t
  {
    var e := InsertError(old(t.rows), old(t.nextId), t.projects, input);
    && old(t.Valid())
    && (e.Some? ==> r == Err(e.value) && t.rows == old(t.rows) && t.nextId == old(t.nextId))
    && (e.None? ==>
          && old(t.nextId) !in old(t.rows)
          && t.rows == old(t.rows)[old(t.nextId) := NewRow(old(t.nextId), input, now)]
          && t.nextId == old(t.nextId) + 1
          && r == Ok(NewRow(old(t.nextId), input, now)))
  }

  /** The row under `id` patched and returned, or no row and nothing changed. */
  twostate predicate Updated(t: TaskTable, id: i64, input: UpdateTaskInput, now: string, new r: Result<Task>)
    reads t
  {
    && t.nextId == old(t.nextId)
    && (id in old(t.rows) ==>
          t.rows == old(t.rows)[id := Patched(old(t.rows)[id], input, now)]
          && r == Ok(Patched(old(t.rows)[id], input, now)))
    && (id !in old(t.rows) ==> t.rows == old(t.rows) && r == Err(NoRows))
  }

  /** The cascade applied; deleting always succeeds. */
  twostate predicate Deleted(t: TaskTable, id: i64, new r: Result<()>)
    reads t
  {
    t.nextId == old(t.nextId) && t.rows == Cascade(old(t.rows), id) && r == Ok(())
  }

  /** The row under `id` completed and returned, or no row and nothing changed. */
  twostate predicate MarkedComplete(t: TaskTable, id: i64, now: string, new r: Result<Task>)
    reads t
  {
    && t.nextId == old(t.nextId)
    && (id in old(t.rows) ==>
          t.rows == old(t.rows)[id := Completed(old(t.rows)[id], now)]
          && r == Ok(Completed(old(t.rows)[id], now)))
    && (id !in old(t.rows) ==> t.rows == old(t.rows) && r == Err(NoRows))
  }
}
