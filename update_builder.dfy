/** The dynamic partial-update statement of the task repository: the SET list pushed
    field by field, its parameters, the SQL text, and what executing it does to a row. */
module UpdateBuilder {
  import opened Results
  import opened Models
  import opened Text

  /** One entry of the SET list. Only these seven columns can ever be written. */
  datatype Assignment =
    | SetTitle(title: string)
    | SetDescription(description: string)
    | SetStatus(status: string)
    | SetPriority(priority: i32)
    | SetScheduledDate(scheduledDate: string)
    | SetDueDate(dueDate: string)
    | StampUpdatedAt  // updated_at = CURRENT_TIMESTAMP, no parameter

  /** A bound parameter. */
  datatype SqlValue = SqlText(text: string) | SqlInteger(integer: int)

  function ColumnName(a: Assignment): string {
    match a
    case SetTitle(_) => "title"
    case SetDescription(_) => "description"
    case SetStatus(_) => "status"
    case SetPriority(_) => "priority"
    case SetScheduledDate(_) => "scheduled_date"
    case SetDueDate(_) => "due_date"
    case StampUpdatedAt => "updated_at"
  }

  /** The value bound to the entry's placeholder, if it has one. */
  function Param(a: Assignment): Option<SqlValue> {
    match a
    case SetTitle(v) => Some(SqlText(v))
    case SetDescription(v) => Some(SqlText(v))
    case SetStatus(v) => Some(SqlText(v))
    case SetPriority(v) => Some(SqlInteger(v))
    case SetScheduledDate(v) => Some(SqlText(v))
    case SetDueDate(v) => Some(SqlText(v))
    case StampUpdatedAt => None
  }

  /** The SQL text pushed for the entry. */
  function Clause(a: Assignment): string {
    ColumnName(a) + (if Param(a).Some? then " = ?" else " = CURRENT_TIMESTAMP")
  }

  function OrElse<T>(o: Option<T>, fallback: T): T {
    if o.Some? then o.value else fallback
  }

  function Maybe(present: bool, a: Assignment): seq<Assignment> {
    if present then [a] else []
  }

  /** `prefix` extended by the entries for title, description and status, in that
      order, each when present. */
  function WithFirstFields(prefix: seq<Assignment>, input: UpdateTaskInput): seq<Assignment> {
    prefix
    + Maybe(input.title.Some?, SetTitle(OrElse(input.title, "")))
    + Maybe(input.description.Some?, SetDescription(OrElse(input.description, "")))
    + Maybe(input.status.Some?, SetStatus(OrElse(input.status, "")))
  }

  /** `prefix` extended by the entries for priority, scheduled_date and due_date, in that
      order, each when present. */
  function WithLastFields(prefix: seq<Assignment>, input: UpdateTaskInput): seq<Assignment> {
    prefix
    + Maybe(input.priority.Some?, SetPriority(OrElse(input.priority, 0)))
    + Maybe(input.scheduledDate.Some?, SetScheduledDate(OrElse(input.scheduledDate, "")))
    + Maybe(input.dueDate.Some?, SetDueDate(OrElse(input.dueDate, "")))
  }

  /** The SET list the repository builds for `input`: one entry per wired field that is
      present, in the order the fields are tested, then the timestamp. */
  function Assignments(input: UpdateTaskInput): (r: seq<Assignment>)
    ensures |r| >= 1 && r[|r| - 1] == StampUpdatedAt
  {
    WithLastFields(WithFirstFields([], input), input) + [StampUpdatedAt]
  }

  /** The clause texts, in push order. */
  function Clauses(sets: seq<Assignment>): (r: seq<string>)
    ensures |r| == |sets|
    decreases |sets|
  {
    if sets == [] then [] else Clauses(sets[..|sets| - 1]) + [Clause(sets[|sets| - 1])]
  }

  /** The parameter values, in push order. */
  function Params(sets: seq<Assignment>): seq<SqlValue>
    decreases |sets|
  {
    if sets == [] then []
    else
      var last := sets[|sets| - 1];
      Params(sets[..|sets| - 1]) + (if Param(last).Some? then [Param(last).value] else [])
  }

  /** The statement text: an UPDATE of `tasks` whose row is chosen by the id placeholder
      at the very end. */
  function UpdateSql(sets: seq<Assignment>): (r: string)
    ensures |r| >= 30 && r[..17] == "UPDATE tasks SET " && r[|r| - 13..] == " WHERE id = ?"
  {
    "UPDATE tasks SET " + Join(Clauses(sets), ", ") + " WHERE id = ?"
  }

  datatype UpdateStatement = UpdateStatement(sql: string, params: seq<SqlValue>)

  lemma OccurrencesAbsent(s: string, c: char)
    requires c !in s
    ensures Occurrences(s, c) == 0
  {
    if s != [] {
      assert c !in s[1..];
      OccurrencesAbsent(s[1..], c);
    }
  }

  lemma OnePlaceholderAtEnd(s: string)
    requires '?' !in s
    ensures Occurrences(s + "?", '?') == 1
  {
    OccurrencesAbsent(s, '?');
    OccurrencesAppend(s, "?", '?');
  }

  lemma ClausePlaceholders(a: Assignment)
    ensures Occurrences(Clause(a), '?') == if Param(a).Some? then 1 else 0
  {
    var name := ColumnName(a);
    assert '?' !in name;
    if Param(a).Some? {
      var lhs := name + " = ";
      assert '?' !in lhs;
      assert Clause(a) == lhs + "?";
      OnePlaceholderAtEnd(lhs);
    } else {
      OccurrencesAbsent(Clause(a), '?');
    }
  }

  lemma {:induction false} ClausesPlaceholders(sets: seq<Assignment>)
    ensures TotalOccurrences(Clauses(sets), '?') == |Params(sets)|
    decreases |sets|
  {
    if sets != [] {
      var init, last := sets[..|sets| - 1], sets[|sets| - 1];
      ClausesPlaceholders(init);
      ClausePlaceholders(last);
      TotalOccurrencesAppend(Clauses(init), [Clause(last)], '?');
      assert TotalOccurrences([Clause(last)], '?') == Occurrences(Clause(last), '?');
    }
  }

  /** The WHERE clause carries one placeholder, the id's. */
  lemma WhereClausePlaceholder()
    ensures Occurrences(" WHERE id = ?", '?') == 1
  {
    OnePlaceholderAtEnd(" WHERE id = ");
    assert " WHERE id = ?" == " WHERE id = " + "?";
  }

  lemma SetListPlaceholders(sets: seq<Assignment>)
    ensures Occurrences(Join(Clauses(sets), ", "), '?') == |Params(sets)|
  {
    OccurrencesAbsent(", ", '?');
    OccurrencesJoin(Clauses(sets), ", ", '?');
    ClausesPlaceholders(sets);
  }

  lemma OccurrencesAppend3(a: string, b: string, c: string, ch: char)
    ensures Occurrences(a + b + c, ch) == Occurrences(a, ch) + Occurrences(b, ch) + Occurrences(c, ch)
  {
    OccurrencesAppend(a, b, ch);
    OccurrencesAppend(a + b, c, ch);
  }

  /** The statement text carries exactly one placeholder per parameter of the SET list,
      plus the one of the WHERE clause. */
  lemma PlaceholdersMatchParams(sets: seq<Assignment>)
    ensures Occurrences(UpdateSql(sets), '?') == |Params(sets)| + 1
  {
    var prefix, body, suffix := "UPDATE tasks SET ", Join(Clauses(sets), ", "), " WHERE id = ?";
    assert UpdateSql(sets) == prefix + body + suffix;
    OccurrencesAbsent(prefix, '?');
    SetListPlaceholders(sets);
    WhereClausePlaceholder();
    OccurrencesAppend3(prefix, body, suffix, '?');
  }

  lemma PushMaybe(sets: seq<Assignment>, present: bool, a: Assignment)
    ensures Clauses(sets + Maybe(present, a)) == Clauses(sets) + (if present then [Clause(a)] else [])
    ensures Params(sets + Maybe(present, a))
         == Params(sets) + (if present && Param(a).Some? then [Param(a).value] else [])
  {
    if present {
      assert (sets + [a])[..|sets|] == sets;
    } else {
      assert sets + [] == sets;
    }
  }

  /** One `push` onto the SET list and, when the entry has a placeholder, onto the
      parameter list. */
  method Push(updates: seq<string>, params: seq<SqlValue>, ghost pushed: seq<Assignment>, a: Assignment)
    returns (updates': seq<string>, params': seq<SqlValue>)
    requires updates == Clauses(pushed) && params == Params(pushed)
    ensures updates' == Clauses(pushed + [a]) && params' == Params(pushed + [a])
  {
    PushMaybe(pushed, true, a);
    updates' := updates + [Clause(a)];
    params' := if Param(a).Some? then params + [Param(a).value] else params;
  }

  /** `if let Some(v) = field { push }`: one optional entry. */
  method PushIf(updates: seq<string>, params: seq<SqlValue>, ghost pushed: seq<Assignment>,
                present: bool, a: Assignment)
    returns (updates': seq<string>, params': seq<SqlValue>, ghost pushed': seq<Assignment>)
    requires updates == Clauses(pushed) && params == Params(pushed)
    ensures pushed' == pushed + Maybe(present, a)
    ensures updates' == Clauses(pushed') && params' == Params(pushed')
  {
    pushed' := pushed + Maybe(present, a);
    if present {
      updates', params' := Push(updates, params, pushed, a);
    } else {
      assert pushed' == pushed;
      updates', params' := updates, params;
    }
  }

  /** The pushes for title, description and status. */
  method PushFirstFields(updates: seq<string>, params: seq<SqlValue>, ghost pushed: seq<Assignment>,
                         input: UpdateTaskInput)
    returns (updates': seq<string>, params': seq<SqlValue>, ghost pushed': seq<Assignment>)
    requires updates == Clauses(pushed) && params == Params(pushed)
    ensures pushed' == WithFirstFields(pushed, input)
    ensures updates' == Clauses(pushed') && params' == Params(pushed')
  {
    updates', params', pushed' := PushIf(updates, params, pushed, input.title.Some?, SetTitle(OrElse(input.title, "")));
    updates', params', pushed' := PushIf(updates', params', pushed', input.description.Some?, SetDescription(OrElse(input.description, "")));
    updates', params', pushed' := PushIf(updates', params', pushed', input.status.Some?, SetStatus(OrElse(input.status, "")));
  }

  /** The pushes for priority, scheduled_date and due_date. */
  method PushLastFields(updates: seq<string>, params: seq<SqlValue>, ghost pushed: seq<Assignment>,
                        input: UpdateTaskInput)
    returns (updates': seq<string>, params': seq<SqlValue>, ghost pushed': seq<Assignment>)
    requires updates == Clauses(pushed) && params == Params(pushed)
    ensures pushed' == WithLastFields(pushed, input)
    ensures updates' == Clauses(pushed') && params' == Params(pushed')
  {
    updates', params', pushed' := PushIf(updates, params, pushed, input.priority.Some?, SetPriority(OrElse(input.priority, 0)));
    updates', params', pushed' := PushIf(updates', params', pushed', input.scheduledDate.Some?, SetScheduledDate(OrElse(input.scheduledDate, "")));
    updates', params', pushed' := PushIf(updates', params', pushed', input.dueDate.Some?, SetDueDate(OrElse(input.dueDate, "")));
  }

  /** The pushes of the repository's update: one clause and parameter per present
      field, in the order the fields are tested, then the timestamp. */
  method PushAssignments(input: UpdateTaskInput) returns (updates: seq<string>, params: seq<SqlValue>)
    ensures updates == Clauses(Assignments(input))
    ensures params == Params(Assignments(input))
  {
    updates, params := [], [];
    // `pushed` is the SET list built so far; the texts and values follow it.
    ghost var pushed: seq<Assignment> := [];
    updates, params, pushed := PushFirstFields(updates, params, pushed, input);
    updates, params, pushed := PushLastFields(updates, params, pushed, input);
    updates, params := Push(updates, params, pushed, StampUpdatedAt);
    pushed := pushed + [StampUpdatedAt];
    assert pushed == Assignments(input);
  }

  /** The statement construction as the repository performs it: the pushes, the early
      return when nothing was pushed, then the clauses joined and the id appended as the
      last parameter. The early return is never taken. */
  method BuildUpdate(id: i64, input: UpdateTaskInput) returns (stmt: Option<UpdateStatement>)
    ensures stmt.Some?
    ensures stmt.value.sql == UpdateSql(Assignments(input))
    ensures stmt.value.params == Params(Assignments(input)) + [SqlInteger(id)]
    ensures Occurrences(stmt.value.sql, '?') == |stmt.value.params|
  {
    var updates, params := PushAssignments(input);
    if |updates| == 0 {
      return None;
    }
    var query := "UPDATE tasks SET " + Join(updates, ", ") + " WHERE id = ?";
    params := params + [SqlInteger(id)];
    PlaceholdersMatchParams(Assignments(input));
    stmt := Some(UpdateStatement(query, params));
  }

  // ---------------------------------------------------------------------------
  // Executing the statement on the row it selects.

  /** The columns no entry of a SET list can write. */
  predicate SameUnwired(t: Task, u: Task) {
    && u.id == t.id && u.userId == t.userId && u.workspaceId == t.workspaceId
    && u.projectId == t.projectId && u.estimatedMinutes == t.estimatedMinutes
    && u.difficultyLevel == t.difficultyLevel && u.energyLevel == t.energyLevel
    && u.parentTaskId == t.parentTaskId && u.orderIndex == t.orderIndex
    && u.tags == t.tags && u.completedAt == t.completedAt
    && u.columnPosition == t.columnPosition && u.createdAt == t.createdAt
  }

  /** One entry writes its own column and no other. */
  function Apply(t: Task, a: Assignment, now: string): (u: Task)
    ensures SameUnwired(t, u)
    ensures a.SetTitle? || u.title == t.title
    ensures a.SetDescription? || u.description == t.description
    ensures a.SetStatus? || u.status == t.status
    ensures a.SetPriority? || u.priority == t.priority
    ensures a.SetScheduledDate? || u.scheduledDate == t.scheduledDate
    ensures a.SetDueDate? || u.dueDate == t.dueDate
    ensures a.StampUpdatedAt? || u.updatedAt == t.updatedAt
  {
    match a
    case SetTitle(v) => t.(title := v)
    case SetDescription(v) => t.(description := Some(v))
    case SetStatus(v) => t.(status := v)
    case SetPriority(v) => t.(priority := v)
    case SetScheduledDate(v) => t.(scheduledDate := Some(v))
    case SetDueDate(v) => t.(dueDate := Some(v))
    case StampUpdatedAt => t.(updatedAt := now)
  }

  /** The row after the SET list, entries taken left to right; `now` is CURRENT_TIMESTAMP. */
  function ApplyAll(t: Task, sets: seq<Assignment>, now: string): (u: Task)
    ensures SameUnwired(t, u)
    ensures (forall i :: 0 <= i < |sets| ==> !sets[i].SetTitle?) ==> u.title == t.title
    ensures (forall i :: 0 <= i < |sets| ==> !sets[i].SetStatus?) ==> u.status == t.status
    ensures (forall i :: 0 <= i < |sets| ==> !sets[i].StampUpdatedAt?) ==> u.updatedAt == t.updatedAt
    decreases |sets|
  {
    if sets == [] then t else ApplyAll(Apply(t, sets[0], now), sets[1..], now)
  }

  /** Reference definition of a partial update: each of the six wired fields takes the
      input's value when present, and updated_at becomes `now`. */
  function Patched(t: Task, input: UpdateTaskInput, now: string): (u: Task)
    // The seven accepted-but-unwired fields of the input, and every column other than
    // the six wired ones and updated_at, keep their old values whatever the input holds.
    ensures SameUnwired(t, u)
    ensures u.updatedAt == now
  {
    t.(title := OrElse(input.title, t.title),
       description := if input.description.Some? then input.description else t.description,
       status := OrElse(input.status, t.status),
       priority := OrElse(input.priority, t.priority),
       scheduledDate := if input.scheduledDate.Some? then input.scheduledDate else t.scheduledDate,
       dueDate := if input.dueDate.Some? then input.dueDate else t.dueDate,
       updatedAt := now)
  }

  lemma {:induction false} ApplyAllAppend(t: Task, a: seq<Assignment>, b: seq<Assignment>, now: string)
    ensures ApplyAll(t, a + b, now) == ApplyAll(ApplyAll(t, a, now), b, now)
    decreases |a|
  {
    if a == [] {
      assert a + b == b;
    } else {
      assert (a + b)[1..] == a[1..] + b;
      ApplyAllAppend(Apply(t, a[0], now), a[1..], b, now);
    }
  }

  lemma ApplyMaybe(t: Task, present: bool, a: Assignment, now: string)
    ensures ApplyAll(t, Maybe(present, a), now) == if present then Apply(t, a, now) else t
  {
    if present {
      assert Maybe(present, a)[1..] == [];
    }
  }

  /** The first group of entries writes title, description and status over whatever
      the prefix left. */
  lemma ApplyFirstFields(t: Task, prefix: seq<Assignment>, input: UpdateTaskInput, now: string)
    ensures var u := ApplyAll(t, prefix, now);
      ApplyAll(t, WithFirstFields(prefix, input), now)
      == u.(title := OrElse(input.title, u.title),
            description := if input.description.Some? then input.description else u.description,
            status := OrElse(input.status, u.status))
  {
    var p1 := Maybe(input.title.Some?, SetTitle(OrElse(input.title, "")));
    var p2 := Maybe(input.description.Some?, SetDescription(OrElse(input.description, "")));
    var p3 := Maybe(input.status.Some?, SetStatus(OrElse(input.status, "")));
    ApplyAllAppend(t, prefix + p1 + p2, p3, now);
    ApplyAllAppend(t, prefix + p1, p2, now);
    ApplyAllAppend(t, prefix, p1, now);
    var t0 := ApplyAll(t, prefix, now);
    ApplyMaybe(t0, input.title.Some?, SetTitle(OrElse(input.title, "")), now);
    var t1 := ApplyAll(t0, p1, now);
    ApplyMaybe(t1, input.description.Some?, SetDescription(OrElse(input.description, "")), now);
    var t2 := ApplyAll(t1, p2, now);
    ApplyMaybe(t2, input.status.Some?, SetStatus(OrElse(input.status, "")), now);
  }

  /** The second group of entries writes priority, scheduled_date and due_date over
      whatever the prefix left. */
  lemma ApplyLastFields(t: Task, prefix: seq<Assignment>, input: UpdateTaskInput, now: string)
    ensures var u := ApplyAll(t, prefix, now);
      ApplyAll(t, WithLastFields(prefix, input), now)
      == u.(priority := OrElse(input.priority, u.priority),
            scheduledDate := if input.scheduledDate.Some? then input.scheduledDate else u.scheduledDate,
            dueDate := if input.dueDate.Some? then input.dueDate else u.dueDate)
  {
    var p4 := Maybe(input.priority.Some?, SetPriority(OrElse(input.priority, 0)));
    var p5 := Maybe(input.scheduledDate.Some?, SetScheduledDate(OrElse(input.scheduledDate, "")));
    var p6 := Maybe(input.dueDate.Some?, SetDueDate(OrElse(input.dueDate, "")));
    ApplyAllAppend(t, prefix + p4 + p5, p6, now);
    ApplyAllAppend(t, prefix + p4, p5, now);
    ApplyAllAppend(t, prefix, p4, now);
    var t3 := ApplyAll(t, prefix, now);
    ApplyMaybe(t3, input.priority.Some?, SetPriority(OrElse(input.priority, 0)), now);
    var t4 := ApplyAll(t3, p4, now);
    ApplyMaybe(t4, input.scheduledDate.Some?, SetScheduledDate(OrElse(input.scheduledDate, "")), now);
    var t5 := ApplyAll(t4, p5, now);
    ApplyMaybe(t5, input.dueDate.Some?, SetDueDate(OrElse(input.dueDate, "")), now);
  }

  /** Executing the built SET list on a row is exactly the partial update. */
  lemma AssignmentsArePatch(t: Task, input: UpdateTaskInput, now: string)
    ensures ApplyAll(t, Assignments(input), now) == Patched(t, input, now)
  {
    var first := WithFirstFields([], input);
    var both := WithLastFields(first, input);
    ApplyAllAppend(t, both, [StampUpdatedAt], now);
    ApplyFirstFields(t, [], input, now);
    ApplyLastFields(t, first, input, now);
    var t6 := ApplyAll(t, both, now);
    assert ApplyAll(t6, [StampUpdatedAt], now) == t6.(updatedAt := now);
  }

  /** An input with no field present still writes: the SET list is the timestamp alone,
      the statement binds only the id, and the row changes in updated_at alone. */
  lemma EmptyUpdateStillWrites(t: Task, now: string)
    ensures Assignments(EMPTY_UPDATE) == [StampUpdatedAt]
    ensures Params(Assignments(EMPTY_UPDATE)) == []
    ensures UpdateSql(Assignments(EMPTY_UPDATE))
         == "UPDATE tasks SET " + "updated_at = CURRENT_TIMESTAMP" + " WHERE id = ?"
    ensures Patched(t, EMPTY_UPDATE, now) == t.(updatedAt := now)
  {
    assert Assignments(EMPTY_UPDATE) == [StampUpdatedAt];
    TimestampOnlySql();
  }

  lemma TimestampOnlySql()
    ensures Params([StampUpdatedAt]) == []
    ensures UpdateSql([StampUpdatedAt])
         == "UPDATE tasks SET " + "updated_at = CURRENT_TIMESTAMP" + " WHERE id = ?"
  {
    assert [StampUpdatedAt][..0] == [];
    assert Clauses([StampUpdatedAt]) == [Clause(StampUpdatedAt)];
    assert Clause(StampUpdatedAt) == "updated_at = CURRENT_TIMESTAMP";
  }
}
