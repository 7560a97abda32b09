/** The front-end task store: the list of tasks with its loading and error flags, the
    views derived from it, and the actions that call the back end and then update it. */
module TaskStore {
  import opened Results
  import opened Models
  import opened Ordering

  // ---------------------------------------------------------------------------
  // Derived views.

  /** `!t.parent_task_id`: a missing parent, and also parent 0, which JavaScript reads
      as false. */
  predicate NoParent(t: Task)
    ensures t.parentTaskId.None? ==> NoParent(t)
    ensures t.parentTaskId.Some? && t.parentTaskId.value != 0 ==> !NoParent(t)
  {
    t.parentTaskId.None? || t.parentTaskId == Some(0)
  }

  datatype View =
    | Active               // status todo or in_progress, top level
    | Todo                 // status todo, top level
    | InProgress           // status in_progress, top level
    | Done                 // status completed, top level
    | Today(today: string) // scheduled or due on `today`, any level

  /** The status views show top-level tasks of their statuses; the day view shows tasks
      of any level scheduled or due that day. */
  predicate Shows(v: View, t: Task)
    ensures Shows(v, t) && !v.Today? ==> NoParent(t)
    ensures Shows(v, t) && v.Todo? ==> t.status == "todo"
    ensures Shows(v, t) && v.InProgress? ==> t.status == "in_progress"
    ensures Shows(v, t) && v.Done? ==> t.status == "completed"
    ensures Shows(v, t) && v.Active? ==> t.status != "completed"
    ensures Shows(v, t) && v.Today? ==> Some(v.today) in [t.scheduledDate, t.dueDate]
  {
    match v
    case Active => (t.status == "todo" || t.status == "in_progress") && NoParent(t)
    case Todo => t.status == "todo" && NoParent(t)
    case InProgress => t.status == "in_progress" && NoParent(t)
    case Done => t.status == "completed" && NoParent(t)
    case Today(d) => t.scheduledDate == Some(d) || t.dueDate == Some(d)
  }

  /** `Array.prototype.filter` with the view's test: the shown elements, each as often
      as in `s`. */
  function Filter(s: seq<Task>, v: View): (r: seq<Task>)
    ensures |r| <= |s|
    ensures forall t :: t in r <==> t in s && Shows(v, t)
    ensures forall t :: multiset(r)[t] == if Shows(v, t) then multiset(s)[t] else 0
  {
    if s == [] then []
    else
      assert s == [s[0]] + s[1..];
      (if Shows(v, s[0]) then [s[0]] else []) + Filter(s[1..], v)
  }

  /** Filtering keeps the store's order: it distributes over concatenation. */
  lemma {:induction false} FilterAppend(a: seq<Task>, b: seq<Task>, v: View)
    ensures Filter(a + b, v) == Filter(a, v) + Filter(b, v)
    decreases |a|
  {
    if a == [] {
      assert a + b == b;
    } else {
      assert (a + b)[1..] == a[1..] + b;
      FilterAppend(a[1..], b, v);
    }
  }

  /** A filter followed by the store's `order_index` comparator. */
  function SortedView(s: seq<Task>, v: View): (r: seq<Task>)
    ensures Sorted(OrderIndexOrder, r)
    ensures multiset(r) == multiset(Filter(s, v))
    ensures forall t :: t in r <==> t in s && Shows(v, t)
  {
    var f := Filter(s, v);
    var r := Sort(OrderIndexOrder, f);
    assert forall t :: t in r <==> t in multiset(f);
    r
  }

  function ActiveTasks(s: seq<Task>): (r: seq<Task>)
    ensures Sorted(OrderIndexOrder, r)
    ensures forall t :: multiset(r)[t] == if Shows(Active, t) then multiset(s)[t] else 0
  {
    SortedView(s, Active)
  }

  function TodoTasks(s: seq<Task>): (r: seq<Task>)
    ensures Sorted(OrderIndexOrder, r)
    ensures forall t :: multiset(r)[t] == if Shows(Todo, t) then multiset(s)[t] else 0
  {
    SortedView(s, Todo)
  }

  function InProgressTasks(s: seq<Task>): (r: seq<Task>)
    ensures Sorted(OrderIndexOrder, r)
    ensures forall t :: multiset(r)[t] == if Shows(InProgress, t) then multiset(s)[t] else 0
  {
    SortedView(s, InProgress)
  }

  /** Unsorted: the completed top-level tasks in store order. */
  function CompletedTasks(s: seq<Task>): (r: seq<Task>)
    ensures forall t :: multiset(r)[t] == if Shows(Done, t) then multiset(s)[t] else 0
  {
    Filter(s, Done)
  }

  /** Unsorted and with no parent test; `today` is the caller's current date. */
  function TodayTasks(s: seq<Task>, today: string): (r: seq<Task>)
    ensures forall t :: multiset(r)[t] == if Shows(Today(today), t) then multiset(s)[t] else 0
  {
    Filter(s, Today(today))
  }

  /** The active view is the todo view and the in-progress view together. */
  lemma ActiveIsTodoAndInProgress(s: seq<Task>)
    ensures multiset(ActiveTasks(s)) == multiset(TodoTasks(s)) + multiset(InProgressTasks(s))
    ensures |ActiveTasks(s)| == |TodoTasks(s)| + |InProgressTasks(s)|
  {
    var a, t, p := ActiveTasks(s), TodoTasks(s), InProgressTasks(s);
    forall x ensures multiset(a)[x] == (multiset(t) + multiset(p))[x] {
      assert Shows(Active, x) <==> Shows(Todo, x) || Shows(InProgress, x);
      assert !(Shows(Todo, x) && Shows(InProgress, x));
    }
    assert multiset(a) == multiset(t) + multiset(p);
    assert |multiset(a)| == |multiset(t)| + |multiset(p)|;
  }

  // ---------------------------------------------------------------------------
  // The list updates of the actions.

  /** `[newTask, ...current]`. */
  function Prepend(s: seq<Task>, t: Task): (r: seq<Task>)
    ensures |r| == |s| + 1 && r[0] == t && r[1..] == s
  {
    [t] + s
  }

  /** `current.map(t => t.id === id ? u : t)`. */
  function ReplaceById(s: seq<Task>, id: int, u: Task): (r: seq<Task>)
    ensures |r| == |s|
    ensures forall i :: 0 <= i < |s| ==> r[i] == if s[i].id == id then u else s[i]
  {
    if s == [] then []
    else [if s[0].id == id then u else s[0]] + ReplaceById(s[1..], id, u)
  }

  /** `current.filter(t => t.id !== id)`. */
  function RemoveById(s: seq<Task>, id: int): (r: seq<Task>)
    ensures |r| <= |s|
    ensures forall t :: t in r <==> t in s && t.id != id
  {
    if s == [] then []
    else
      assert s == [s[0]] + s[1..];
      (if s[0].id != id then [s[0]] else []) + RemoveById(s[1..], id)
  }

  /** Removing keeps the relative order of the rest: it distributes over concatenation. */
  lemma {:induction false} RemoveAppend(a: seq<Task>, b: seq<Task>, id: int)
    ensures RemoveById(a + b, id) == RemoveById(a, id) + RemoveById(b, id)
    decreases |a|
  {
    if a == [] {
      assert a + b == b;
    } else {
      assert (a + b)[1..] == a[1..] + b;
      RemoveAppend(a[1..], b, id);
    }
  }

  /** Replacing with a task that keeps the id a second time changes nothing more. */
  lemma ReplaceTwice(s: seq<Task>, id: int, u: Task)
    requires u.id == id
    ensures ReplaceById(ReplaceById(s, id, u), id, u) == ReplaceById(s, id, u)
  {
  }

  /** A replaced task that keeps its id is removed like the original. */
  lemma {:induction false} RemoveAfterReplace(s: seq<Task>, id: int, u: Task)
    requires u.id == id
    ensures RemoveById(ReplaceById(s, id, u), id) == RemoveById(s, id)
    decreases |s|
  {
    if s != [] {
      var r := ReplaceById(s, id, u);
      assert r[1..] == ReplaceById(s[1..], id, u);
      RemoveAfterReplace(s[1..], id, u);
    }
  }

  /** A prepended task is removed along with every other task of its id. */
  lemma RemoveAfterPrepend(s: seq<Task>, t: Task)
    ensures RemoveById(Prepend(s, t), t.id) == RemoveById(s, t.id)
  {
    assert Prepend(s, t)[1..] == s;
  }

  // ---------------------------------------------------------------------------
  // The actions.

  /** What a back-end call produced: a value, or a rejection. A Tauri command rejects
      with its error as a plain string, which is not an `Error` object. */
  datatype Rejection = ErrorObject(message: string) | NotAnError
  datatype Outcome<T> = Resolved(value: T) | Rejected(reason: Rejection)

  /** `e instanceof Error ? e.message : fallback`. */
  function Message(e: Rejection, fallback: string): (m: string)
    ensures e.NotAnError? ==> m == fallback
    ensures e.ErrorObject? ==> m == e.message
  {
    match e
    case ErrorObject(message) => message
    case NotAnError => fallback
  }

  class TaskStore {
    var tasks: seq<Task>
    var loading: bool
    var error: Option<string>

    constructor ()
      ensures tasks == [] && !loading && error == None
    {
      tasks := [];
      loading := false;
      error := None;
    }

    /** `loadTasks`: the fetched list replaces the store; a rejection is swallowed. */
    method LoadTasks(fetched: Outcome<seq<Task>>)
      modifies this
      ensures !loading
      ensures fetched.Resolved? ==> tasks == fetched.value && error == None
      ensures fetched.Rejected? ==>
        tasks == old(tasks) && error == Some(Message(fetched.reason, "Failed to load tasks"))
    {
      loading := true;
      error := None;
      match fetched {
        case Resolved(value) =>
          tasks := value;
        case Rejected(reason) =>
          error := Some(Message(reason, "Failed to load tasks"));
      }
      loading := false;
    }

    /** `addTask`: the created task goes to the front; a rejection is rethrown. */
    method AddTask(created: Outcome<Task>) returns (r: Outcome<Task>)
      modifies this
      ensures !loading && r == created
      ensures created.Resolved? ==> tasks == Prepend(old(tasks), created.value) && error == None
      ensures created.Rejected? ==>
        tasks == old(tasks) && error == Some(Message(created.reason, "Failed to create task"))
    {
      loading := true;
      error := None;
      match created {
        case Resolved(newTask) =>
          tasks := Prepend(tasks, newTask);
        case Rejected(reason) =>
          error := Some(Message(reason, "Failed to create task"));
      }
      loading := false;
      r := created;
    }

    /** `modifyTask`: every task with the id is replaced by the updated one. */
    method ModifyTask(id: int, updated: Outcome<Task>) returns (r: Outcome<Task>)
      modifies this
      ensures !loading && r == updated
      ensures updated.Resolved? ==> tasks == ReplaceById(old(tasks), id, updated.value) && error == None
      ensures updated.Rejected? ==>
        tasks == old(tasks) && error == Some(Message(updated.reason, "Failed to update task"))
    {
      loading := true;
      error := None;
      match updated {
        case Resolved(updatedTask) =>
          tasks := ReplaceById(tasks, id, updatedTask);
        case Rejected(reason) =>
          error := Some(Message(reason, "Failed to update task"));
      }
      loading := false;
      r := updated;
    }

    /** `removeTask`: every task with the id is dropped. */
    method RemoveTask(id: int, deleted: Outcome<()>) returns (r: Outcome<()>)
      modifies this
      ensures !loading && r == deleted
      ensures deleted.Resolved? ==> tasks == RemoveById(old(tasks), id) && error == None
      ensures deleted.Rejected? ==>
        tasks == old(tasks) && error == Some(Message(deleted.reason, "Failed to delete task"))
    {
      loading := true;
      error := None;
      match deleted {
        case Resolved(_) =>
          tasks := RemoveById(tasks, id);
        case Rejected(reason) =>
          error := Some(Message(reason, "Failed to delete task"));
      }
      loading := false;
      r := deleted;
    }

    /** `markTaskComplete`: every task with the id is replaced by the completed one. */
    method MarkTaskComplete(id: int, completed: Outcome<Task>) returns (r: Outcome<Task>)
      modifies this
      ensures !loading && r == completed
      ensures completed.Resolved? ==> tasks == ReplaceById(old(tasks), id, completed.value) && error == None
      ensures completed.Rejected? ==>
        tasks == old(tasks) && error == Some(Message(completed.reason, "Failed to complete task"))
    {
      loading := true;
      error := None;
      match completed {
        case Resolved(completedTask) =>
          tasks := ReplaceById(tasks, id, completedTask);
        case Rejected(reason) =>
          error := Some(Message(reason, "Failed to complete task"));
      }
      loading := false;
      r := completed;
    }
  }
}
