/** The entities of the task database, as the Rust back end declares them. */
module Models {
  import opened Results

  type i32 = x: int | -0x8000_0000 <= x < 0x8000_0000
  type i64 = x: int | -0x8000_0000_0000_0000 <= x < 0x8000_0000_0000_0000

  /** The largest rowid SQLite hands out. */
  const MAX_ROWID: int := 0x7FFF_FFFF_FFFF_FFFF

  /** The `tags` column holds the JSON text of a list of strings. The encoding is kept
      abstract: a stored value is the list it encodes, which makes it injective. */
  datatype TagsText = JsonArray(items: seq<string>)

  function EncodeTags(tags: seq<string>): TagsText {
    JsonArray(tags)
  }

  /** Holds by construction of the abstract encoding, without proof work: it records
      the assumption that `serde_json::to_string` maps different lists to different
      texts, on which reading the column back relies. */
  lemma EncodeTagsInjective(a: seq<string>, b: seq<string>)
    ensures EncodeTags(a) == EncodeTags(b) ==> a == b
  {
  }

  /** One row of the `tasks` table, all twenty columns, `column_position` included as the
      repository's row mapping and the front end's type have it. `status` is free-form
      text. */
  datatype Task = Task(
    id: i64,
    userId: i64,
    workspaceId: i64,
    title: string,
    description: Option<string>,
    projectId: Option<i64>,
    status: string,
    priority: i32,
    estimatedMinutes: Option<i32>,
    difficultyLevel: Option<i32>,
    energyLevel: Option<string>,
    scheduledDate: Option<string>,
    dueDate: Option<string>,
    completedAt: Option<string>,
    parentTaskId: Option<i64>,
    orderIndex: i32,
    columnPosition: i32,
    tags: Option<TagsText>,
    createdAt: string,
    updatedAt: string)

  /** What a caller supplies to create a task: no status, priority, ordering or completion. */
  datatype CreateTaskInput = CreateTaskInput(
    title: string,
    description: Option<string>,
    projectId: Option<i64>,
    estimatedMinutes: Option<i32>,
    difficultyLevel: Option<i32>,
    energyLevel: Option<string>,
    scheduledDate: Option<string>,
    dueDate: Option<string>,
    parentTaskId: Option<i64>,
    tags: Option<seq<string>>)

  /** A partial update: every field optional, `None` meaning "leave as is". */
  datatype UpdateTaskInput = UpdateTaskInput(
    title: Option<string>,
    description: Option<string>,
    projectId: Option<i64>,
    status: Option<string>,
    priority: Option<i32>,
    estimatedMinutes: Option<i32>,
    difficultyLevel: Option<i32>,
    energyLevel: Option<string>,
    scheduledDate: Option<string>,
    dueDate: Option<string>,
    parentTaskId: Option<i64>,
    orderIndex: Option<i32>,
    tags: Option<seq<string>>)

  const EMPTY_UPDATE: UpdateTaskInput :=
    UpdateTaskInput(None, None, None, None, None, None, None, None, None, None, None, None, None)

  /** Derived, not stored. The percentage is the exact quotient, not a 32-bit float. */
  datatype SubtaskProgress = SubtaskProgress(total: nat, completed: nat, percentage: real)

  datatype TaskWithSubtasks = TaskWithSubtasks(task: Task, subtasks: seq<Task>, progress: SubtaskProgress)
}
