/** The migration ladder: the `schema_version` ledger, the statements of migrations v1
    and v2 by their effect on the schema, and the run that applies the pending ones. */
module Schema {
  import opened Results
  import opened Models

  datatype User = User(displayName: string)
  datatype Workspace = Workspace(name: string, workspaceType: string, ownerUserId: int)

  /** The tables the migrations create, `TasksFts` being the full-text search table. */
  datatype Table = Users | Workspaces | Projects | Tasks | TasksFts | UserPreferences | SchemaVersion

  /** The indexes and triggers the migrations create. */
  datatype Object =
    | IdxTasksStatus | IdxTasksScheduledDate | IdxTasksDueDate | IdxTasksUserId
    | TasksFtsInsert | TasksFtsUpdate | TasksFtsDelete
    | IdxTasksParentId

  const DEFAULT_USER: User := User("Default User")
  const DEFAULT_WORKSPACE: Workspace := Workspace("Personal", "personal", 1)

  /** A row of `schema_version`, in insertion order. */
  datatype LedgerRow = LedgerRow(version: int, appliedAt: string)

  /** The versions the ledger records. */
  function Versions(ledger: seq<LedgerRow>): set<int> {
    if ledger == [] then {} else Versions(ledger[..|ledger| - 1]) + {ledger[|ledger| - 1].version}
  }

  /** What the migrations can see of a database: the ledger, the tables, the indexes and
      triggers, whether `tasks` has `column_position`, and the rows of `users` and
      `workspaces`. */
  datatype SchemaState = SchemaState(
    ledger: seq<LedgerRow>,
    tables: set<Table>,
    objects: set<Object>,
    hasColumnPosition: bool,
    users: map<int, User>,
    workspaces: map<int, Workspace>)

  /** A database file nothing has been run on. */
  const EMPTY_DATABASE: SchemaState := SchemaState([], {}, {}, false, map[], map[])

  /** One `conn.execute` of a migration, by its effect. */
  datatype Stmt =
    | CreateTable(table: Table)           // CREATE [VIRTUAL] TABLE IF NOT EXISTS
    | CreateOn(object: Object, on: Table) // CREATE INDEX / TRIGGER IF NOT EXISTS ... ON `on`
    | SeedDefaultUser                     // INSERT OR IGNORE INTO users, id 1
    | SeedDefaultWorkspace                // INSERT OR IGNORE INTO workspaces, id 1, owner 1
    | InsertVersion(version: int)         // set_version: INSERT INTO schema_version
    | AddColumnPosition                   // ALTER TABLE tasks ADD COLUMN column_position

  /** The effect of one statement. `faults` are the statements the engine rejects for
      reasons of its own (a locked or full file, say); `now` is CURRENT_TIMESTAMP. */
  function Exec(st: SchemaState, s: Stmt, faults: set<Stmt>, now: string): (r: Result<SchemaState>)
    ensures s in faults ==> r == Err(EngineFault)
    ensures r.Ok? ==> Grows(st, r.value)
    ensures r.Ok? && !s.InsertVersion? ==> r.value.ledger == st.ledger
    ensures r.Ok? && s != AddColumnPosition ==> r.value.hasColumnPosition == st.hasColumnPosition
  {
    if s in faults then Err(EngineFault)
    else match s
      case CreateTable(n) => Ok(st.(tables := st.tables + {n}))
      case CreateOn(n, t) =>
        if t !in st.tables then Err(NoSuchTable) else Ok(st.(objects := st.objects + {n}))
      case SeedDefaultUser =>
        if Users !in st.tables then Err(NoSuchTable)
        else if 1 in st.users then Ok(st)
        else Ok(st.(users := st.users[1 := DEFAULT_USER]))
      case SeedDefaultWorkspace =>
        // OR IGNORE covers the primary key, not the foreign key to users.
        if Workspaces !in st.tables then Err(NoSuchTable)
        else if 1 in st.workspaces then Ok(st)
        else if 1 !in st.users then Err(ForeignKeyViolation)
        else Ok(st.(workspaces := st.workspaces[1 := DEFAULT_WORKSPACE]))
      case InsertVersion(v) =>
        if SchemaVersion !in st.tables then Err(NoSuchTable)
        else if v in Versions(st.ledger) then Err(PrimaryKeyViolation)
        else Ok(st.(ledger := st.ledger + [LedgerRow(v, now)]))
      case AddColumnPosition =>
        if Tasks !in st.tables then Err(NoSuchTable)
        else if st.hasColumnPosition then Err(DuplicateColumn)
        else Ok(st.(hasColumnPosition := true))
  }

  /** Nothing is dropped, deleted or taken back between `st` and `st'`: the ledger only
      gains rows at its end, tables, indexes, triggers and seeded rows only accumulate,
      and `column_position` once added stays. */
  predicate Grows(st: SchemaState, st': SchemaState) {
    && st.ledger <= st'.ledger
    && st.tables <= st'.tables && st.objects <= st'.objects
    && (st.hasColumnPosition ==> st'.hasColumnPosition)
    && st.users.Items <= st'.users.Items && st.workspaces.Items <= st'.workspaces.Items
  }

  /** A migration's statements in order. */
  datatype Script = End | Then(stmt: Stmt, rest: Script)

  /** Where a run of statements stopped, and how. Nothing is rolled back. */
  datatype RunResult = RunResult(state: SchemaState, result: Result<()>)

  /** The statements of `script` in order, each `?` ending the run at the first error. */
  function Run(st: SchemaState, script: Script, faults: set<Stmt>, now: string): (r: RunResult)
    ensures Grows(st, r.state)
    ensures script == End ==> r == RunResult(st, Ok(()))
    decreases script
  {
    match script
    case End => RunResult(st, Ok(()))
    case Then(s, rest) =>
      match Exec(st, s, faults, now)
      case Err(e) => RunResult(st, Err(e))
      case Ok(st') => Run(st', rest, faults, now)
  }

  /** The versions the script's statements record. */
  function RecordedVersions(script: Script): set<int> {
    match script
    case End => {}
    case Then(s, rest) => (if s.InsertVersion? then {s.version} else {}) + RecordedVersions(rest)
  }

  /** No statement of the script adds `column_position`. */
  predicate KeepsColumns(script: Script) {
    match script
    case End => true
    case Then(s, rest) => s != AddColumnPosition && KeepsColumns(rest)
  }

  /** No statement but the last records a version. */
  predicate RecordsLast(script: Script) {
    match script
    case End => true
    case Then(s, rest) => rest == End || (!s.InsertVersion? && RecordsLast(rest))
  }

  /** `migration_v001`, in the groups of its source: the core tables, the task indexes,
      the full-text search table with its three triggers, the preferences table with the
      two seeds, and the ledger row last. */
  const V001: Script :=
    Then(CreateTable(Users), Then(CreateTable(Workspaces), Then(CreateTable(Projects),
    Then(CreateTable(Tasks), V001_INDEXES))))
  const V001_INDEXES: Script :=
    Then(CreateOn(IdxTasksStatus, Tasks), Then(CreateOn(IdxTasksScheduledDate, Tasks),
    Then(CreateOn(IdxTasksDueDate, Tasks), Then(CreateOn(IdxTasksUserId, Tasks), V001_SEARCH))))
  const V001_SEARCH: Script :=
    Then(CreateTable(TasksFts), Then(CreateOn(TasksFtsInsert, Tasks),
    Then(CreateOn(TasksFtsUpdate, Tasks), Then(CreateOn(TasksFtsDelete, Tasks), V001_SEEDS))))
  const V001_SEEDS: Script :=
    Then(CreateTable(UserPreferences), Then(SeedDefaultUser, Then(SeedDefaultWorkspace, V001_RECORD)))
  const V001_RECORD: Script := Then(InsertVersion(1), End)

  /** `migration_v002`: the Kanban column, the parent index, and the ledger row last. */
  const V002: Script :=
    Then(AddColumnPosition, Then(CreateOn(IdxTasksParentId, Tasks), Then(InsertVersion(2), End)))

  // ---------------------------------------------------------------------------
  // The current version.

  /** `MAX(version)`. */
  function MaxVersion(ledger: seq<LedgerRow>): (m: int)
    requires |ledger| > 0
    ensures m in Versions(ledger)
    ensures forall v :: v in Versions(ledger) ==> v <= m
  {
    var last := ledger[|ledger| - 1].version;
    if |ledger| == 1 then last
    else
      var m := MaxVersion(ledger[..|ledger| - 1]);
      if last > m then last else m
  }

  /** `get_current_version`: `SELECT MAX(version)` read as an `i32`. An empty ledger
      gives NULL, and a failed read or a maximum beyond `i32` gives an error; each of
      these falls back to 0. */
  function CurrentVersion(ledger: seq<LedgerRow>, readFails: bool): (v: int)
    ensures -0x8000_0000 <= v < 0x8000_0000
    ensures readFails || |ledger| == 0 ==> v == 0
    ensures v != 0 ==> v in Versions(ledger) && forall w :: w in Versions(ledger) ==> w <= v
    ensures !readFails && |ledger| > 0 && (forall w :: w in Versions(ledger) ==> -0x8000_0000 <= w < 0x8000_0000)
            ==> v in Versions(ledger) && forall w :: w in Versions(ledger) ==> w <= v
  {
    if readFails || |ledger| == 0 then 0
    else
      var m := MaxVersion(ledger);
      if -0x8000_0000 <= m < 0x8000_0000 then m else 0
  }

  /** The migrations due at version `v`, in order: v1 if `v` is below 1, then, unless it
      failed, v2 if `v` is below 2. */
  function Pending(st: SchemaState, v: int, faults: set<Stmt>, now: string): (r: RunResult)
    ensures v >= 2 ==> r == RunResult(st, Ok(()))
    ensures v == 1 ==> r == Run(st, V002, faults, now)
    ensures Grows(st, r.state)
  {
    var r1 := if v < 1 then Run(st, V001, faults, now) else RunResult(st, Ok(()));
    if r1.result.Err? then r1
    else if v < 2 then Run(r1.state, V002, faults, now)
    else r1
  }

  /** `run_migrations` after the engine settings: make sure the ledger table exists, read
      the version once, and run the migrations due at it. */
  function Migrate(st: SchemaState, faults: set<Stmt>, readFails: bool, now: string): (r: RunResult)
    ensures CreateTable(SchemaVersion) in faults ==> r == RunResult(st, Err(EngineFault))
    ensures CreateTable(SchemaVersion) !in faults ==> SchemaVersion in r.state.tables
    ensures Grows(st, r.state)
  {
    match Exec(st, CreateTable(SchemaVersion), faults, now)
    case Err(e) => RunResult(st, Err(e))
    case Ok(st0) => Pending(st0, CurrentVersion(st0.ledger, readFails), faults, now)
  }

  // ---------------------------------------------------------------------------
  // Properties of the statements and the ladder.

  lemma VersionsAppend(ledger: seq<LedgerRow>, row: LedgerRow)
    ensures Versions(ledger + [row]) == Versions(ledger) + {row.version}
  {
    assert (ledger + [row])[..|ledger|] == ledger;
  }

  /** Recording a version already in the ledger fails on the primary key; a new one is
      appended with the current time. */
  lemma RecordVersion(st: SchemaState, v: int, faults: set<Stmt>, now: string)
    requires InsertVersion(v) !in faults && SchemaVersion in st.tables
    ensures v in Versions(st.ledger) ==> Exec(st, InsertVersion(v), faults, now) == Err(PrimaryKeyViolation)
    ensures v !in Versions(st.ledger) ==>
      var r := Exec(st, InsertVersion(v), faults, now);
      && r.Ok? && r.value.ledger == st.ledger + [LedgerRow(v, now)]
      && Versions(r.value.ledger) == Versions(st.ledger) + {v}
  {
    VersionsAppend(st.ledger, LedgerRow(v, now));
  }

  /** The seeds never overwrite: rows with id 1 stay as they are, and user 1 and, once
      user 1 exists, workspace 1 exist afterwards. */
  lemma SeedsKeepExistingRows(st: SchemaState, faults: set<Stmt>, now: string)
    requires SeedDefaultUser !in faults && SeedDefaultWorkspace !in faults
    requires Users in st.tables && Workspaces in st.tables
    ensures var r := Exec(st, SeedDefaultUser, faults, now);
      && r.Ok? && 1 in r.value.users
      && (1 in st.users ==> r.value == st)
      && (1 !in st.users ==> r.value.users == st.users[1 := DEFAULT_USER])
    ensures 1 in st.users ==> var r := Exec(st, SeedDefaultWorkspace, faults, now);
      && r.Ok? && 1 in r.value.workspaces
      && (1 in st.workspaces ==> r.value == st)
    ensures 1 !in st.users && 1 !in st.workspaces ==>
      Exec(st, SeedDefaultWorkspace, faults, now) == Err(ForeignKeyViolation)
  {
  }

  /** When a script records its version last, a run of it that fails leaves the ledger as
      it found it: no version is recorded for a migration that did not finish. */
  lemma {:induction false} FailedRunKeepsLedger(st: SchemaState, script: Script, faults: set<Stmt>, now: string)
    requires RecordsLast(script)
    ensures Run(st, script, faults, now).result.Err? ==> Run(st, script, faults, now).state.ledger == st.ledger
    decreases script
  {
    match script
    case End =>
    case Then(s, rest) =>
      match Exec(st, s, faults, now)
      case Err(_) =>
      case Ok(st') =>
        if rest != End {
          FailedRunKeepsLedger(st', rest, faults, now);
        }
  }

  /** A run leaves `column_position` alone unless it adds it. */
  lemma {:induction false} RunKeepsColumns(st: SchemaState, script: Script, faults: set<Stmt>, now: string)
    requires KeepsColumns(script)
    ensures Run(st, script, faults, now).state.hasColumnPosition == st.hasColumnPosition
    decreases script
  {
    match script
    case End =>
    case Then(s, rest) =>
      match Exec(st, s, faults, now)
      case Err(_) =>
      case Ok(st') =>
        RunKeepsColumns(st', rest, faults, now);
  }

  /** A run adds to the ledger only the versions its script records. */
  lemma {:induction false} LedgerGrowsBy(st: SchemaState, script: Script, faults: set<Stmt>, now: string)
    ensures forall v :: v in Versions(Run(st, script, faults, now).state.ledger) ==>
      v in Versions(st.ledger) || v in RecordedVersions(script)
    decreases script
  {
    match script
    case End =>
    case Then(s, rest) =>
      match Exec(st, s, faults, now)
      case Err(_) =>
      case Ok(st') =>
        if s.InsertVersion? && s.version !in Versions(st.ledger) && SchemaVersion in st.tables && s !in faults {
          VersionsAppend(st.ledger, LedgerRow(s.version, now));
        }
        LedgerGrowsBy(st', rest, faults, now);
  }

  /** The states v1 builds, group by group, before its ledger row. */
  function WithCoreTables(st: SchemaState): SchemaState {
    st.(tables := st.tables + {Users, Workspaces, Projects, Tasks})
  }

  function WithTaskIndexes(st: SchemaState): SchemaState {
    st.(objects := st.objects + {IdxTasksStatus, IdxTasksScheduledDate, IdxTasksDueDate, IdxTasksUserId})
  }

  function WithSearch(st: SchemaState): SchemaState {
    st.(tables := st.tables + {TasksFts}, objects := st.objects + {TasksFtsInsert, TasksFtsUpdate, TasksFtsDelete})
  }

  function WithSeeds(st: SchemaState): SchemaState {
    st.(tables := st.tables + {UserPreferences},
        users := if 1 in st.users then st.users else st.users[1 := DEFAULT_USER],
        workspaces := if 1 in st.workspaces then st.workspaces else st.workspaces[1 := DEFAULT_WORKSPACE])
  }

  function AfterV001Setup(st: SchemaState): SchemaState {
    WithSeeds(WithSearch(WithTaskIndexes(WithCoreTables(st))))
  }

  /** v1 records version 1 and nothing else, last, and leaves the columns alone. */
  lemma V001Shape()
    ensures RecordsLast(V001) && KeepsColumns(V001)
    ensures RecordedVersions(V001) == {1}
  {
    assert KeepsColumns(V001_SEEDS);
    assert KeepsColumns(V001_INDEXES);
    assert RecordsLast(V001_INDEXES);
    assert RecordedVersions(V001_SEEDS) == {1};
    assert RecordedVersions(V001_INDEXES) == {1};
  }

  /** v2 records version 2 and nothing else, last. */
  lemma V002Shape()
    ensures RecordsLast(V002)
    ensures RecordedVersions(V002) == {2}
  {
  }

  /** Each group of v1 before its ledger row succeeds when the engine rejects nothing. */
  lemma CoreTablesSetup(st: SchemaState, now: string)
    ensures Run(st, V001, {}, now) == Run(WithCoreTables(st), V001_INDEXES, {}, now)
  {
    var s1 := st.(tables := st.tables + {Users});
    var s2 := s1.(tables := s1.tables + {Workspaces});
    var s3 := s2.(tables := s2.tables + {Projects});
    assert s3.(tables := s3.tables + {Tasks}) == WithCoreTables(st);
  }

  lemma TaskIndexesSetup(st: SchemaState, now: string)
    requires Tasks in st.tables
    ensures Run(st, V001_INDEXES, {}, now) == Run(WithTaskIndexes(st), V001_SEARCH, {}, now)
  {
    var s1 := st.(objects := st.objects + {IdxTasksStatus});
    var s2 := s1.(objects := s1.objects + {IdxTasksScheduledDate});
    var s3 := s2.(objects := s2.objects + {IdxTasksDueDate});
    assert s3.(objects := s3.objects + {IdxTasksUserId}) == WithTaskIndexes(st);
  }

  lemma SearchSetup(st: SchemaState, now: string)
    requires Tasks in st.tables
    ensures Run(st, V001_SEARCH, {}, now) == Run(WithSearch(st), V001_SEEDS, {}, now)
  {
    var s1 := st.(tables := st.tables + {TasksFts});
    var s2 := s1.(objects := s1.objects + {TasksFtsInsert});
    var s3 := s2.(objects := s2.objects + {TasksFtsUpdate});
    assert s3.(objects := s3.objects + {TasksFtsDelete}) == WithSearch(st);
  }

  lemma SeedsSetup(st: SchemaState, now: string)
    requires Users in st.tables && Workspaces in st.tables
    ensures Run(st, V001_SEEDS, {}, now) == Run(WithSeeds(st), V001_RECORD, {}, now)
  {
  }

  /** When the engine rejects nothing every statement of v1 before its ledger row
      succeeds on any database: the IF NOT EXISTS creations and the ignoring seeds
      cannot fail. */
  lemma V001Setup(st: SchemaState, now: string)
    ensures Run(st, V001, {}, now) == Run(AfterV001Setup(st), V001_RECORD, {}, now)
  {
    CoreTablesSetup(st, now);
    var s4 := WithCoreTables(st);
    TaskIndexesSetup(s4, now);
    var s8 := WithTaskIndexes(s4);
    SearchSetup(s8, now);
    SeedsSetup(WithSearch(s8), now);
  }

  /** On a database without version 1, with the engine rejecting nothing, v1 completes
      and records version 1. */
  lemma V001Completes(st: SchemaState, now: string)
    requires SchemaVersion in st.tables && 1 !in Versions(st.ledger)
    ensures Run(st, V001, {}, now) == RunResult(AfterV001Setup(st).(ledger := st.ledger + [LedgerRow(1, now)]), Ok(()))
  {
    V001Setup(st, now);
    RecordVersion(AfterV001Setup(st), 1, {}, now);
  }

  /** On a database with tasks but no Kanban column and no version 2, with the engine
      rejecting nothing, v2 completes and records version 2. */
  lemma V002Completes(st: SchemaState, now: string)
    requires SchemaVersion in st.tables && Tasks in st.tables && !st.hasColumnPosition
    requires 2 !in Versions(st.ledger)
    ensures Run(st, V002, {}, now) ==
      RunResult(st.(hasColumnPosition := true, objects := st.objects + {IdxTasksParentId},
                    ledger := st.ledger + [LedgerRow(2, now)]), Ok(()))
  {
    var s2 := st.(hasColumnPosition := true, objects := st.objects + {IdxTasksParentId});
    RecordVersion(s2, 2, {}, now);
  }

  /** On a database that records no version and has no Kanban column, with the engine
      rejecting nothing, the migrations due at version 0 both complete and record
      versions 1 and 2 in order. */
  lemma BothComplete(st: SchemaState, now: string)
    requires SchemaVersion in st.tables && Versions(st.ledger) == {} && !st.hasColumnPosition
    ensures var r := Pending(st, 0, {}, now);
      && r.result == Ok(())
      && r.state.ledger == st.ledger + [LedgerRow(1, now), LedgerRow(2, now)]
      && Versions(r.state.ledger) == {1, 2}
      && 1 in r.state.users && 1 in r.state.workspaces
      && r.state.hasColumnPosition
  {
    V001Completes(st, now);
    var s16 := AfterV001Setup(st).(ledger := st.ledger + [LedgerRow(1, now)]);
    VersionsAppend(st.ledger, LedgerRow(1, now));
    V002Completes(s16, now);
    assert st.ledger + [LedgerRow(1, now)] + [LedgerRow(2, now)] == st.ledger + [LedgerRow(1, now), LedgerRow(2, now)];
    VersionsAppend(s16.ledger, LedgerRow(2, now));
  }

  /** On a fresh database, with the engine rejecting nothing, a run records versions 1
      and 2 in order and leaves the default user and workspace and the Kanban column in
      place. */
  lemma FreshRunAppliesBoth(readFails: bool, now: string)
    ensures var r := Migrate(EMPTY_DATABASE, {}, readFails, now);
      && r.result == Ok(())
      && r.state.ledger == [LedgerRow(1, now), LedgerRow(2, now)]
      && 1 in r.state.users && 1 in r.state.workspaces
      && r.state.hasColumnPosition
  {
    var st0 := EMPTY_DATABASE.(tables := {SchemaVersion});
    assert Exec(EMPTY_DATABASE, CreateTable(SchemaVersion), {}, now) == Ok(st0) by {
      assert EMPTY_DATABASE.tables + {SchemaVersion} == {SchemaVersion};
    }
    BothComplete(st0, now);
  }

  /** At version 2 a run applies nothing and records nothing: startup is idempotent. */
  lemma RerunIsNoop(st: SchemaState, faults: set<Stmt>, now: string)
    requires CreateTable(SchemaVersion) !in faults && SchemaVersion in st.tables
    requires CurrentVersion(st.ledger, false) >= 2
    ensures Migrate(st, faults, false, now) == RunResult(st, Ok(()))
  {
    assert st.(tables := st.tables + {SchemaVersion}) == st;
  }

  /** Whatever the engine rejects, a failing step ends the run: when v1 fails, v2 never
      runs, no version is recorded and `column_position` is as it was. */
  lemma FailureAborts(st: SchemaState, v: int, faults: set<Stmt>, now: string)
    ensures v < 1 && Run(st, V001, faults, now).result.Err? ==>
      var r := Pending(st, v, faults, now);
      && r == Run(st, V001, faults, now)
      && r.state.ledger == st.ledger && r.state.hasColumnPosition == st.hasColumnPosition
  {
    V001Shape();
    FailedRunKeepsLedger(st, V001, faults, now);
    RunKeepsColumns(st, V001, faults, now);
  }

  /** v1 records version 1 and no other. */
  lemma V001RecordsOnlyOne(st: SchemaState, faults: set<Stmt>, now: string)
    ensures 2 !in Versions(st.ledger) ==> 2 !in Versions(Run(st, V001, faults, now).state.ledger)
  {
    V001Shape();
    LedgerGrowsBy(st, V001, faults, now);
  }

  /** A failed ladder never leaves version 2 recorded where it was not. */
  lemma FailureLeavesV002Unrecorded(st: SchemaState, v: int, faults: set<Stmt>, now: string)
    ensures 2 !in Versions(st.ledger) && Pending(st, v, faults, now).result.Err? ==>
      2 !in Versions(Pending(st, v, faults, now).state.ledger)
  {
    V002Shape();
    var r1 := if v < 1 then Run(st, V001, faults, now) else RunResult(st, Ok(()));
    if v < 1 {
      V001RecordsOnlyOne(st, faults, now);
    }
    FailedRunKeepsLedger(r1.state, V002, faults, now);
  }

  /** The Kanban column is added without a guard: if it is already there while the ledger
      stops at 1, the run fails with a duplicate column and changes nothing. */
  lemma ExistingColumnFailsV002(st: SchemaState, faults: set<Stmt>, now: string)
    requires CreateTable(SchemaVersion) !in faults && AddColumnPosition !in faults
    requires SchemaVersion in st.tables && Tasks in st.tables && st.hasColumnPosition
    requires CurrentVersion(st.ledger, false) == 1
    ensures Migrate(st, faults, false, now) == RunResult(st, Err(DuplicateColumn))
  {
    assert st.(tables := st.tables + {SchemaVersion}) == st;
  }

  /** A failed version read on a migrated database, with the engine rejecting nothing
      else, replays v1: every creation and seed succeeds again, its ledger row fails on
      the primary key, and v2 never runs. */
  lemma FailedReadReplaysV001(st: SchemaState, now: string)
    requires SchemaVersion in st.tables && 1 in Versions(st.ledger)
    ensures var r := Migrate(st, {}, true, now);
      && r.result == Err(PrimaryKeyViolation)
      && r.state == AfterV001Setup(st)
      && r.state.ledger == st.ledger && r.state.hasColumnPosition == st.hasColumnPosition
  {
    assert st.(tables := st.tables + {SchemaVersion}) == st;
    V001Setup(st, now);
    RecordVersion(AfterV001Setup(st), 1, {}, now);
  }

  // ---------------------------------------------------------------------------
  // The database the migrations run on.

  class Database {
    var ledger: seq<LedgerRow>
    var tables: set<Table>
    var objects: set<Object>
    var hasColumnPosition: bool
    var users: map<int, User>
    var workspaces: map<int, Workspace>

    function State(): SchemaState
      reads this
    {
      SchemaState(ledger, tables, objects, hasColumnPosition, users, workspaces)
    }

    /** A database file nothing has been run on. */
    constructor ()
      ensures State() == EMPTY_DATABASE
    {
      ledger := [];
      tables := {};
      objects := {};
      hasColumnPosition := false;
      users := map[];
      workspaces := map[];
    }

    /** `conn.execute` of one statement. */
    method Execute(s: Stmt, faults: set<Stmt>, now: string) returns (r: Result<()>)
      modifies this
      ensures Exec(old(State()), s, faults, now).Ok? ==>
        r == Ok(()) && State() == Exec(old(State()), s, faults, now).value
      ensures Exec(old(State()), s, faults, now).Err? ==>
        r == Err(Exec(old(State()), s, faults, now).error) && State() == old(State())
    {
      if s in faults {
        return Err(EngineFault);
      }
      match s {
        case CreateTable(n) =>
          tables := tables + {n};
        case CreateOn(n, t) =>
          if t !in tables {
            return Err(NoSuchTable);
          }
          objects := objects + {n};
        case SeedDefaultUser =>
          if Users !in tables {
            return Err(NoSuchTable);
          }
          if 1 !in users {
            users := users[1 := DEFAULT_USER];
          }
        case SeedDefaultWorkspace =>
          if Workspaces !in tables {
            return Err(NoSuchTable);
          }
          if 1 !in workspaces {
            if 1 !in users {
              return Err(ForeignKeyViolation);
            }
            workspaces := workspaces[1 := DEFAULT_WORKSPACE];
          }
        case InsertVersion(v) =>
          if SchemaVersion !in tables {
            return Err(NoSuchTable);
          }
          if v in Versions(ledger) {
            return Err(PrimaryKeyViolation);
          }
          ledger := ledger + [LedgerRow(v, now)];
        case AddColumnPosition =>
          if Tasks !in tables {
            return Err(NoSuchTable);
          }
          if hasColumnPosition {
            return Err(DuplicateColumn);
          }
          hasColumnPosition := true;
      }
      r := Ok(());
    }

    /** `set_version`: one ledger row. */
    method SetVersion(version: i32, faults: set<Stmt>, now: string) returns (r: Result<()>)
      modifies this
      ensures Exec(old(State()), InsertVersion(version), faults, now).Ok? ==>
        r == Ok(()) && State() == Exec(old(State()), InsertVersion(version), faults, now).value
      ensures Exec(old(State()), InsertVersion(version), faults, now).Err? ==>
        r == Err(Exec(old(State()), InsertVersion(version), faults, now).error) && State() == old(State())
    {
      r := Execute(InsertVersion(version), faults, now);
    }

    /** The first statement of `script`, which is `s`: a run of `script` is a run of the
        rest on the new state, or ends here with the statement's error. */
    method Step(s: Stmt, ghost script: Script, faults: set<Stmt>, now: string) returns (r: Result<()>)
      requires script.Then? && script.stmt == s
      modifies this
      ensures r.Ok? ==> Run(old(State()), script, faults, now) == Run(State(), script.rest, faults, now)
      ensures r.Err? ==> Run(old(State()), script, faults, now) == RunResult(State(), r)
    {
      r := Execute(s, faults, now);
    }

    method CreateCoreTables(faults: set<Stmt>, now: string) returns (r: Result<()>)
      modifies this
      ensures r.Ok? ==> Run(old(State()), V001, faults, now) == Run(State(), V001_INDEXES, faults, now)
      ensures r.Err? ==> Run(old(State()), V001, faults, now) == RunResult(State(), r)
    {
      r := Step(CreateTable(Users), V001, faults, now);
      if r.Err? { return; }
      r := Step(CreateTable(Workspaces), V001.rest, faults, now);
      if r.Err? { return; }
      r := Step(CreateTable(Projects), V001.rest.rest, faults, now);
      if r.Err? { return; }
      r := Step(CreateTable(Tasks), V001.rest.rest.rest, faults, now);
    }

    method CreateTaskIndexes(faults: set<Stmt>, now: string) returns (r: Result<()>)
      modifies this
      ensures r.Ok? ==> Run(old(State()), V001_INDEXES, faults, now) == Run(State(), V001_SEARCH, faults, now)
      ensures r.Err? ==> Run(old(State()), V001_INDEXES, faults, now) == RunResult(State(), r)
    {
      r := Step(CreateOn(IdxTasksStatus, Tasks), V001_INDEXES, faults, now);
      if r.Err? { return; }
      r := Step(CreateOn(IdxTasksScheduledDate, Tasks), V001_INDEXES.rest, faults, now);
      if r.Err? { return; }
      r := Step(CreateOn(IdxTasksDueDate, Tasks), V001_INDEXES.rest.rest, faults, now);
      if r.Err? { return; }
      r := Step(CreateOn(IdxTasksUserId, Tasks), V001_INDEXES.rest.rest.rest, faults, now);
    }

    method CreateSearch(faults: set<Stmt>, now: string) returns (r: Result<()>)
      modifies this
      ensures r.Ok? ==> Run(old(State()), V001_SEARCH, faults, now) == Run(State(), V001_SEEDS, faults, now)
      ensures r.Err? ==> Run(old(State()), V001_SEARCH, faults, now) == RunResult(State(), r)
    {
      r := Step(CreateTable(TasksFts), V001_SEARCH, faults, now);
      if r.Err? { return; }
      r := Step(CreateOn(TasksFtsInsert, Tasks), V001_SEARCH.rest, faults, now);
      if r.Err? { return; }
      r := Step(CreateOn(TasksFtsUpdate, Tasks), V001_SEARCH.rest.rest, faults, now);
      if r.Err? { return; }
      r := Step(CreateOn(TasksFtsDelete, Tasks), V001_SEARCH.rest.rest.rest, faults, now);
    }

    method CreatePreferencesAndSeeds(faults: set<Stmt>, now: string) returns (r: Result<()>)
      modifies this
      ensures r.Ok? ==> Run(old(State()), V001_SEEDS, faults, now) == Run(State(), V001_RECORD, faults, now)
      ensures r.Err? ==> Run(old(State()), V001_SEEDS, faults, now) == RunResult(State(), r)
    {
      r := Step(CreateTable(UserPreferences), V001_SEEDS, faults, now);
      if r.Err? { return; }
      r := Step(SeedDefaultUser, V001_SEEDS.rest, faults, now);
      if r.Err? { return; }
      r := Step(SeedDefaultWorkspace, V001_SEEDS.rest.rest, faults, now);
    }

    /** `migration_v001`. */
    method MigrationV001(faults: set<Stmt>, now: string) returns (r: Result<()>)
      modifies this
      ensures RunResult(State(), r) == Run(old(State()), V001, faults, now)
    {
      r := CreateCoreTables(faults, now);
      if r.Err? { return; }
      r := CreateTaskIndexes(faults, now);
      if r.Err? { return; }
      r := CreateSearch(faults, now);
      if r.Err? { return; }
      r := CreatePreferencesAndSeeds(faults, now);
      if r.Err? { return; }
      r := SetVersion(1, faults, now);
      if r.Err? { return; }
      r := Ok(());
    }

    /** `migration_v002`. */
    method MigrationV002(faults: set<Stmt>, now: string) returns (r: Result<()>)
      modifies this
      ensures RunResult(State(), r) == Run(old(State()), V002, faults, now)
    {
      r := Step(AddColumnPosition, V002, faults, now);
      if r.Err? { return; }
      r := Step(CreateOn(IdxTasksParentId, Tasks), V002.rest, faults, now);
      if r.Err? { return; }
      r := SetVersion(2, faults, now);
      if r.Err? { return; }
      r := Ok(());
    }

    /** `run_migrations`, from the ledger table on. */
    method RunMigrations(faults: set<Stmt>, readFails: bool, now: string) returns (r: Result<()>)
      modifies this
      ensures RunResult(State(), r) == Migrate(old(State()), faults, readFails, now)
    {
      r := Execute(CreateTable(SchemaVersion), faults, now);
      if r.Err? { return; }
      var currentVersion := CurrentVersion(ledger, readFails);
      if currentVersion < 1 {
        r := MigrationV001(faults, now);
        if r.Err? { return; }
      }
      if currentVersion < 2 {
        r := MigrationV002(faults, now);
        if r.Err? { return; }
      }
      r := Ok(());
    }
  }
}
