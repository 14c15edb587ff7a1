/** The in-memory task store of backend/handlers/TaskHandler.go and the Fiber handlers in front of it.

    The Go file declares the fields `Storage`, `Tasks` and `TaskIDCounter` but uses `storage`, `tasks`
    and `taskIDCounter`, and reads the counter through the storage interface; this model follows the
    evident intent: the storage owns both the task map and the id counter, and the handler holds the
    storage.  Request-body decoding and `strconv.ParseInt` are inputs: `None` stands for a body or an
    id that did not parse. */
module Handlers {
  import opened GoInts
  import opened Wrappers

  datatype Task = Task(id: Int64, desc: string, deadline: Int64)

  /** The body shared by `CreateTaskRequest` and `UpdateTaskRequest`. */
  datatype TaskRequest = TaskRequest(desc: string, deadline: Int64)

  /** `ErrNotFound`, returned by GetTask, and the unwrapped `fmt.Errorf("Item not found")`
      returned by UpdateTask and DeleteTask: two distinct Go errors. */
  datatype TaskError = ErrNotFound | ItemNotFound

  /** A response body: Fiber's status text (what `SendStatus` writes), a literal string,
      `CreateTaskResponse` or `GetTaskResponse`. */
  datatype Body =
    | StatusText
    | Text(text: string)
    | CreatedJson(id: Int64)
    | TaskJson(id: Int64, desc: string, deadline: Int64)

  /** What a handler hands back to Fiber: a response it wrote, or a Go error it returned instead. */
  datatype Reply =
    | Reply(status: int, body: Body)
    | Failed(cause: Failure)

  datatype Failure = BadBody | BadId

  class TaskStorage {
    var taskIDCounter: Int64
    var tasks: map<Int64, Task>

    /** Every task is stored under its own id. */
    ghost predicate Valid()
      reads this
    {
      forall id :: id in tasks ==> tasks[id].id == id
    }

    constructor ()
      ensures Valid()
      ensures tasks == map[] && taskIDCounter == 0
    {
      tasks := map[];
      taskIDCounter := 0;
    }

    /** Stores the task under its own id, replacing any task already there, and returns that id. */
    method CreateTask(task: Task) returns (id: Int64)
      requires Valid()
      modifies this`tasks
      ensures Valid()
      ensures id == task.id
      ensures tasks == old(tasks)[task.id := task]
    {
      tasks := tasks[task.id := task];
      id := task.id;
    }

    /** The stored task for a present id, which carries that id; ErrNotFound otherwise.  Nothing
        changes. */
    method GetTask(id: Int64) returns (r: Result<Task, TaskError>)
      requires Valid()
      ensures r.Ok? <==> id in tasks
      ensures r.Ok? ==> r.value == tasks[id] && r.value.id == id
      ensures r.Err? ==> r.error == ErrNotFound
    {
      if id !in tasks {
        return Err(ErrNotFound);
      }
      r := Ok(tasks[id]);
    }

    /** An upsert: the task is written under its id whether or not one was there, and the
        lookup that follows the write always succeeds, so the "Item not found" branch is dead. */
    method UpdateTask(task: Task) returns (r: Result<Task, TaskError>)
      requires Valid()
      modifies this`tasks
      ensures Valid()
      ensures tasks == old(tasks)[task.id := task]
      ensures r == Ok(task)
    {
      tasks := tasks[task.id := task];
      if task.id !in tasks {
        assert false;
        return Err(ItemNotFound);
      }
      r := Ok(tasks[task.id]);
    }

    /** Removes exactly the given id when present; fails and changes nothing when absent. */
    method DeleteTask(id: Int64) returns (r: Option<TaskError>)
      requires Valid()
      modifies this`tasks
      ensures Valid()
      ensures r.None? <==> id in old(tasks)
      ensures r.Some? ==> r.value == ItemNotFound && tasks == old(tasks)
      ensures r.None? ==> tasks == old(tasks) - {id}
    {
      if id !in tasks {
        return Some(ItemNotFound);
      }
      tasks := tasks - {id};
      r := None;
    }
  }

  class TaskHandler {
    const storage: TaskStorage

    constructor (storage: TaskStorage)
      ensures this.storage == storage
    {
      this.storage := storage;
    }

    /** The new task takes the current counter value as its id; the counter then goes up by one
        (wrapping as a Go `int64` does) and the reply is 201 with that id.  A body that does not
        parse is returned to Fiber as an error and nothing changes. */
    method CreateTask(request: Option<TaskRequest>) returns (reply: Reply)
      requires storage.Valid()
      modifies storage
      ensures storage.Valid()
      ensures request.None? ==> reply == Failed(BadBody) && unchanged(storage)
      ensures request.Some? ==>
        var id := old(storage.taskIDCounter);
        && reply == Reply(201, CreatedJson(id))
        && storage.tasks == old(storage.tasks)[id := Task(id, request.value.desc, request.value.deadline)]
        && storage.taskIDCounter == Inc64(id)
    {
      if request.None? {
        return Failed(BadBody);
      }
      var task := Task(storage.taskIDCounter, request.value.desc, request.value.deadline);
      var id := storage.CreateTask(task);
      storage.taskIDCounter := Inc64(storage.taskIDCounter);
      reply := Reply(201, CreatedJson(id));
    }

    /** An empty id is 400; an id that does not parse is returned to Fiber as an error; a stored
        task is 200 with the requested id and its fields; an absent one is 404.  Nothing changes.
        `parsed` is what `strconv.ParseInt` made of `idParam`, so an empty one never parses. */
    method GetTask(idParam: string, parsed: Option<Int64>) returns (reply: Reply)
      requires idParam == "" ==> parsed.None?
      requires storage.Valid()
      ensures idParam == "" ==> reply == Reply(400, StatusText)
      ensures idParam != "" && parsed.None? ==> reply == Failed(BadId)
      ensures idParam != "" && parsed.Some? && parsed.value in storage.tasks ==>
        var task := storage.tasks[parsed.value];
        reply == Reply(200, TaskJson(parsed.value, task.desc, task.deadline))
      ensures idParam != "" && parsed.Some? && parsed.value !in storage.tasks ==>
        reply == Reply(404, StatusText)
    {
      if idParam == "" {
        return Reply(400, StatusText);
      }
      if parsed.None? {
        return Failed(BadId);
      }
      var result := storage.GetTask(parsed.value);
      if result.Err? {
        if result.error == ErrNotFound {
          return Reply(404, StatusText);
        }
        return Reply(400, StatusText);
      }
      var task := result.value;
      reply := Reply(200, TaskJson(task.id, task.desc, task.deadline));
    }

    /** An empty id, an id that does not parse or a body that does not parse is 400 (checked in
        that order); otherwise the task is upserted under the id from the path and the reply is 200. */
    method UpdateTask(idParam: string, parsed: Option<Int64>, request: Option<TaskRequest>) returns (reply: Reply)
      requires idParam == "" ==> parsed.None?
      requires storage.Valid()
      modifies storage
      ensures storage.Valid()
      ensures idParam == "" ==> reply == Reply(400, Text("Id should exists"))
      ensures idParam != "" && (parsed.None? || request.None?) ==> reply == Reply(400, Text("Error Json"))
      ensures idParam == "" || parsed.None? || request.None? ==> unchanged(storage)
      ensures idParam != "" && parsed.Some? && request.Some? ==>
        && reply == Reply(200, StatusText)
        && storage.tasks == old(storage.tasks)[parsed.value := Task(parsed.value, request.value.desc, request.value.deadline)]
        && storage.taskIDCounter == old(storage.taskIDCounter)
    {
      if idParam == "" {
        return Reply(400, Text("Id should exists"));
      }
      if parsed.None? {
        return Reply(400, Text("Error Json"));
      }
      if request.None? {
        return Reply(400, Text("Error Json"));
      }
      var task := Task(parsed.value, request.value.desc, request.value.deadline);
      var result := storage.UpdateTask(task);
      if result.Err? {
        return Reply(404, StatusText);
      }
      reply := Reply(200, StatusText);
    }

    /** An empty or unparseable id is 400; an absent id is 404; a present one is removed and the
        reply is 200.  The counter is never touched. */
    method DeleteTask(idParam: string, parsed: Option<Int64>) returns (reply: Reply)
      requires idParam == "" ==> parsed.None?
      requires storage.Valid()
      modifies storage
      ensures storage.Valid()
      ensures storage.taskIDCounter == old(storage.taskIDCounter)
      ensures idParam == "" ==> reply == Reply(400, Text("Id should exists"))
      ensures idParam != "" && parsed.None? ==> reply == Reply(400, Text("Error ID"))
      ensures idParam == "" || parsed.None? ==> unchanged(storage)
      ensures idParam != "" && parsed.Some? && parsed.value !in old(storage.tasks) ==>
        reply == Reply(404, StatusText) && storage.tasks == old(storage.tasks)
      ensures idParam != "" && parsed.Some? && parsed.value in old(storage.tasks) ==>
        reply == Reply(200, StatusText) && storage.tasks == old(storage.tasks) - {parsed.value}
    {
      if idParam == "" {
        return Reply(400, Text("Id should exists"));
      }
      if parsed.None? {
        return Reply(400, Text("Error ID"));
      }
      var result := storage.DeleteTask(parsed.value);
      if result.Some? {
        return Reply(404, StatusText);
      }
      reply := Reply(200, StatusText);
    }
  }

  /** Successive creates through one handler return strictly increasing ids while the counter is
      below the int64 maximum, and a delete in between does not lower the counter. */
  method CreateDeleteCreate(handler: TaskHandler, first: TaskRequest, second: TaskRequest, victim: Int64)
    returns (a: Reply, b: Reply)
    requires handler.storage.Valid()
    requires handler.storage.taskIDCounter < MAX_INT64 - 1
    modifies handler.storage
    ensures a.Reply? && a.body.CreatedJson? && b.Reply? && b.body.CreatedJson?
    ensures a.body.id == old(handler.storage.taskIDCounter)
    ensures b.body.id == a.body.id + 1
    ensures handler.storage.taskIDCounter == b.body.id + 1
  {
    a := handler.CreateTask(Some(first));
    var _ := handler.DeleteTask("id", Some(victim));
    b := handler.CreateTask(Some(second));
  }

  /** After a successful delete of an id, a lookup of it is ErrNotFound and a second delete fails. */
  method DeleteThenLookup(storage: TaskStorage, id: Int64)
    returns (deleted: Option<TaskError>, lookup: Result<Task, TaskError>, again: Option<TaskError>)
    requires storage.Valid()
    modifies storage
    ensures deleted.None? <==> id in old(storage.tasks)
    ensures lookup == Err(ErrNotFound)
    ensures again == Some(ItemNotFound)
  {
    deleted := storage.DeleteTask(id);
    lookup := storage.GetTask(id);
    again := storage.DeleteTask(id);
  }

  /** Because UpdateTask is an upsert, a task written through Update under an id the counter has
      not reached yet is silently replaced by the create that later reaches that id. */
  method UpdateAheadOfCounter(handler: TaskHandler, early: TaskRequest, later: TaskRequest)
    returns (created: Reply)
    requires handler.storage.Valid()
    modifies handler.storage
    ensures var id := old(handler.storage.taskIDCounter);
      && created == Reply(201, CreatedJson(id))
      && id in handler.storage.tasks
      && handler.storage.tasks[id] == Task(id, later.desc, later.deadline)
  {
    var id := handler.storage.taskIDCounter;
    var _ := handler.UpdateTask("id", Some(id), Some(early));
    assert handler.storage.tasks[id] == Task(id, early.desc, early.deadline);
    created := handler.CreateTask(Some(later));
  }

  /** The lifecycle scenario of a single task, from an empty store. */
  method Lifecycle() returns (replies: seq<Reply>)
    ensures replies == [
      Reply(201, CreatedJson(0)),
      Reply(200, TaskJson(0, "buy milk", 100)),
      Reply(200, StatusText),
      Reply(200, TaskJson(0, "buy bread", 200)),
      Reply(200, StatusText),
      Reply(404, StatusText)]
  {
    var storage := new TaskStorage();
    var handler := new TaskHandler(storage);
    var r0 := handler.CreateTask(Some(TaskRequest("buy milk", 100)));
    var r1 := handler.GetTask("0", Some(0));
    var r2 := handler.UpdateTask("0", Some(0), Some(TaskRequest("buy bread", 200)));
    var r3 := handler.GetTask("0", Some(0));
    var r4 := handler.DeleteTask("0", Some(0));
    var r5 := handler.GetTask("0", Some(0));
    replies := [r0, r1, r2, r3, r4, r5];
  }
}
