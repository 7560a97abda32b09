/** The service layer: every operation handed to the repository unchanged, with no
    validation of its own. */
module TaskService {
  import opened Results
  import opened Models
  import opened TaskRepository

  class TaskService {
    const repository: TaskTable

    constructor (repository: TaskTable)
      ensures this.repository == repository
    {
      this.repository := repository;
    }

    method CreateTask(input: CreateTaskInput, now: string) returns (r: Result<Task>)
      requires repository.Valid()
      modifies repository
      ensures repository.Valid() && Created(repository, input, now, r)
    {
      r := repository.Create(input, now);
    }

    function GetTask(id: i64): (r: Result<Task>)
      requires repository.Valid()
      reads repository
      ensures r == repository.GetById(id)
      ensures r.Ok? <==> id in repository.rows
    {
      repository.GetById(id)
    }

    function GetAllTasks(status: Option<string>): (r: seq<Task>)
      requires repository.Valid()
      reads repository
      ensures r == repository.GetAll(status)
    {
      repository.GetAll(status)
    }

    method UpdateTask(id: i64, input: UpdateTaskInput, now: string) returns (r: Result<Task>)
      requires repository.Valid()
      modifies repository
      ensures repository.Valid() && Updated(repository, id, input, now, r)
    {
      r := repository.Update(id, input, now);
    }

    method DeleteTask(id: i64) returns (r: Result<()>)
      requires repository.Valid()
      modifies repository
      ensures repository.Valid() && Deleted(repository, id, r)
    {
      r := repository.Delete(id);
    }

    method CompleteTask(id: i64, now: string) returns (r: Result<Task>)
      requires repository.Valid()
      modifies repository
      ensures repository.Valid() && MarkedComplete(repository, id, now, r)
    {
      r := repository.Complete(id, now);
    }

    function GetTaskWithSubtasks(id: i64): (r: Result<TaskWithSubtasks>)
      requires repository.Valid()
      reads repository
      ensures r == repository.GetWithSubtasks(id)
    {
      repository.GetWithSubtasks(id)
    }

    function GetSubtasks(parentId: i64): (r: seq<Task>)
      requires repository.Valid()
      reads repository
      ensures r == repository.GetSubtasks(parentId)
    {
      repository.GetSubtasks(parentId)
    }
  }
}
