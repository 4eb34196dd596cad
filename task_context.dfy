/** The client's task cache of client/src/contexts/TaskContext.jsx: the
    task list, the loading flag, the derived stats and the pagination of
    the last list request, changed by the provider's actions. Each action
    awaits one API request; what that request settled to is the action's
    parameter, and an action whose state changes before the await is split
    into the part before it and the part after it. */
module TaskContext {
  import opened Js
  import opened TaskSchema
  import opened TaskQuery
  import opened TaskController

  /** What an awaited API request settled to: the response body's `data`,
      or a rejection carrying `error.response?.data?.message`. */
  datatype Settled<+T> = Resolved(data: T) | Rejected(message: Option<string>)

  /** What an action returns: `{ success: true, data }` (no data for a
      delete) or `{ success: false, message }`. */
  datatype ActionResult = Succeeded(data: Option<Task>) | Failed(message: string)

  /** The `stats` state. */
  datatype ClientStats = ClientStats(total: int, completed: int, pending: int)

  /** The `pagination` state; `pages` is whatever the server sent, and the
      server sends `null` for a zero limit. */
  datatype Pagination = Pagination(page: int, pages: Option<int>, total: int)

  const CreateFallback: string := "Failed to create task"
  const UpdateFallback: string := "Failed to update task"
  const DeleteFallback: string := "Failed to delete task"
  const GetFallback: string := "Failed to get task"

  /** `message || fallback`. */
  function MessageOr(m: Option<string>, fallback: string): string {
    if Truthy(m) then m.value else fallback
  }

  /** The result of an action that failed with the rejection's message. */
  function FailedWith(m: Option<string>, fallback: string): (r: ActionResult)
    requires fallback != ""
    ensures r.Failed? && r.message != ""
    ensures Truthy(m) ==> r.message == m.value
    ensures !Truthy(m) ==> r.message == fallback
  {
    Failed(MessageOr(m, fallback))
  }

  // ---------------------------------------------------------------------
  // List transformations

  /** `prev.map(task => task._id === id ? updated : task)`. */
  function ReplaceById(ts: seq<Task>, id: TaskId, updated: Task): (r: seq<Task>)
    ensures |r| == |ts|
  {
    seq(|ts|, k requires 0 <= k < |ts| => if ts[k].id == id then updated else ts[k])
  }

  /** `prev.filter(task => task._id !== id)`. */
  function RemoveById(ts: seq<Task>, id: TaskId): (r: seq<Task>)
    ensures |r| <= |ts|
    ensures forall t :: t in r <==> t in ts && t.id != id
  {
    if ts == [] then []
    else if ts[0].id == id then RemoveById(ts[1..], id)
    else [ts[0]] + RemoveById(ts[1..], id)
  }

  /** The tasks whose status is not "completed". */
  function NotCompleted(ts: seq<Task>): (r: seq<Task>)
    ensures |r| <= |ts|
    ensures forall t :: t in r <==> t in ts && t.status != "completed"
  {
    if ts == [] then []
    else if ts[0].status != "completed" then [ts[0]] + NotCompleted(ts[1..])
    else NotCompleted(ts[1..])
  }

  /** The number of tasks with status `s`. */
  function CountStatus(ts: seq<Task>, s: string): nat {
    if ts == [] then 0 else (if ts[0].status == s then 1 else 0) + CountStatus(ts[1..], s)
  }

  /** The stats `fetchTaskStats` derives from a fetched list. */
  function StatsOf(ts: seq<Task>): ClientStats {
    ClientStats(|ts|, |ts| - |NotCompleted(ts)|, |NotCompleted(ts)|)
  }

  // ---------------------------------------------------------------------
  // The provider

  class TaskProvider {
    var tasks: seq<Task>
    var loading: bool
    var stats: ClientStats
    var pagination: Pagination

    /** The initial state: no tasks, not loading, zero stats, page 1 of 1. */
    constructor ()
      ensures tasks == [] && !loading
      ensures stats == ClientStats(0, 0, 0)
      ensures pagination == Pagination(1, Some(1), 0)
    {
      tasks := [];
      loading := false;
      stats := ClientStats(0, 0, 0);
      pagination := Pagination(1, Some(1), 0);
    }

    /** `fetchTasks` up to its await: loading starts. */
    method FetchTasksBegin()
      modifies this`loading
      ensures loading
    {
      loading := true;
    }

    /** `fetchTasks` after its await: a fetched page replaces the list and
        the pagination; a failure changes neither; loading ends either way. */
    method FetchTasksSettle(outcome: Settled<ListPage>)
      modifies this`tasks, this`pagination, this`loading
      ensures !loading
      ensures outcome.Resolved? ==>
                && tasks == outcome.data.data
                && pagination == Pagination(outcome.data.page, outcome.data.pages, outcome.data.total)
      ensures outcome.Rejected? ==> tasks == old(tasks) && pagination == old(pagination)
    {
      if outcome.Resolved? {
        tasks := outcome.data.data;
        pagination := Pagination(outcome.data.page, outcome.data.pages, outcome.data.total);
      }
      loading := false;
    }

    /** `fetchTaskStats` after its await: the stats of the fetched list;
        a failure leaves the stats as they were. */
    method FetchTaskStats(outcome: Settled<ListPage>)
      modifies this`stats
      ensures outcome.Resolved? ==> stats == StatsOf(outcome.data.data)
      ensures outcome.Rejected? ==> stats == old(stats)
    {
      if outcome.Resolved? {
        var all := outcome.data.data;
        var notCompleted := NotCompleted(all);
        stats := ClientStats(|all|, |all| - |notCompleted|, |notCompleted|);
      }
    }

    /** `createTask` after its await: the created task goes first. */
    method CreateTask(outcome: Settled<Task>) returns (r: ActionResult)
      modifies this`tasks
      ensures outcome.Resolved? ==> tasks == [outcome.data] + old(tasks) && r == Succeeded(Some(outcome.data))
      ensures outcome.Rejected? ==> tasks == old(tasks) && r == FailedWith(outcome.message, CreateFallback)
    {
      match outcome
      case Resolved(created) =>
        tasks := [created] + tasks;
        r := Succeeded(Some(created));
      case Rejected(message) =>
        r := FailedWith(message, CreateFallback);
    }

    /** `updateTask` after its await: every task with the id is replaced. */
    method UpdateTask(id: TaskId, outcome: Settled<Task>) returns (r: ActionResult)
      modifies this`tasks
      ensures outcome.Resolved? ==> tasks == ReplaceById(old(tasks), id, outcome.data) && r == Succeeded(Some(outcome.data))
      ensures outcome.Rejected? ==> tasks == old(tasks) && r == FailedWith(outcome.message, UpdateFallback)
    {
      match outcome
      case Resolved(updated) =>
        tasks := ReplaceById(tasks, id, updated);
        r := Succeeded(Some(updated));
      case Rejected(message) =>
        r := FailedWith(message, UpdateFallback);
    }

    /** `deleteTask` after its await: every task with the id is dropped. */
    method DeleteTask(id: TaskId, outcome: Settled<()>) returns (r: ActionResult)
      modifies this`tasks
      ensures outcome.Resolved? ==> tasks == RemoveById(old(tasks), id) && r == Succeeded(None)
      ensures outcome.Rejected? ==> tasks == old(tasks) && r == FailedWith(outcome.message, DeleteFallback)
    {
      match outcome
      case Resolved(_) =>
        tasks := RemoveById(tasks, id);
        r := Succeeded(None);
      case Rejected(message) =>
        r := FailedWith(message, DeleteFallback);
    }

    /** `getTask` after its await: the fetched task, and no state change. */
    method GetTask(outcome: Settled<Task>) returns (r: ActionResult)
      ensures outcome.Resolved? ==> r == Succeeded(Some(outcome.data))
      ensures outcome.Rejected? ==> r == FailedWith(outcome.message, GetFallback)
    {
      match outcome
      case Resolved(found) =>
        r := Succeeded(Some(found));
      case Rejected(message) =>
        r := FailedWith(message, GetFallback);
    }
  }

  // ---------------------------------------------------------------------
  // Properties of the list transformations

  /** An update replaces exactly the tasks with the id: every other task
      stays where it was, and the replaced ones now read as the update. */
  lemma ReplaceByIdChangesOnlyMatches(ts: seq<Task>, id: TaskId, updated: Task)
    ensures forall k :: 0 <= k < |ts| && ts[k].id != id ==> ReplaceById(ts, id, updated)[k] == ts[k]
    ensures forall k :: 0 <= k < |ts| && ts[k].id == id ==> ReplaceById(ts, id, updated)[k] == updated
    ensures (forall t :: t in ts ==> t.id != id) ==> ReplaceById(ts, id, updated) == ts
  {
  }

  /** Deleting keeps the order of what remains: it works piecewise. */
  lemma {:induction false} RemoveByIdOfConcat(a: seq<Task>, b: seq<Task>, id: TaskId)
    ensures RemoveById(a + b, id) == RemoveById(a, id) + RemoveById(b, id)
  {
    if a == [] {
      assert a + b == b;
    } else {
      assert (a + b)[0] == a[0];
      assert (a + b)[1..] == a[1..] + b;
      RemoveByIdOfConcat(a[1..], b, id);
    }
  }

  /** Deleting an id nothing has changes nothing. */
  lemma {:induction false} RemoveAbsentId(ts: seq<Task>, id: TaskId)
    requires forall t :: t in ts ==> t.id != id
    ensures RemoveById(ts, id) == ts
  {
    if ts != [] {
      assert ts[0] in ts;
      RemoveAbsentId(ts[1..], id);
    }
  }

  /** Deleting a task just created, whose id the list did not have, gives
      the list back. */
  lemma CreateThenDeleteRestores(ts: seq<Task>, created: Task)
    requires forall t :: t in ts ==> t.id != created.id
    ensures RemoveById([created] + ts, created.id) == ts
  {
    assert ([created] + ts)[1..] == ts;
    RemoveAbsentId(ts, created.id);
  }

  /** Updating a task and then deleting it is deleting it. */
  lemma {:induction false} DeleteAfterUpdate(ts: seq<Task>, id: TaskId, updated: Task)
    requires updated.id == id
    ensures RemoveById(ReplaceById(ts, id, updated), id) == RemoveById(ts, id)
  {
    if ts != [] {
      var r := ReplaceById(ts, id, updated);
      assert r[1..] == ReplaceById(ts[1..], id, updated);
      DeleteAfterUpdate(ts[1..], id, updated);
    }
  }

  /** The number of tasks with the id. */
  function CountId(ts: seq<Task>, id: TaskId): nat {
    if ts == [] then 0 else (if ts[0].id == id then 1 else 0) + CountId(ts[1..], id)
  }

  /** A delete drops exactly as many tasks as have the id. */
  lemma {:induction false} RemoveByIdCount(ts: seq<Task>, id: TaskId)
    ensures |RemoveById(ts, id)| + CountId(ts, id) == |ts|
  {
    if ts != [] {
      RemoveByIdCount(ts[1..], id);
    }
  }

  // ---------------------------------------------------------------------
  // Properties of the derived stats

  /** The tasks not completed and the completed ones make up the list. */
  lemma {:induction false} NotCompletedCount(ts: seq<Task>)
    ensures |NotCompleted(ts)| + CountStatus(ts, "completed") == |ts|
  {
    if ts != [] {
      NotCompletedCount(ts[1..]);
    }
  }

  /** Pending counts everything but "completed", "in-progress" included;
      completed counts exactly the completed tasks; the two add up to the
      total. */
  lemma {:induction false} StatsOfCounts(ts: seq<Task>)
    ensures StatsOf(ts).total == |ts|
    ensures StatsOf(ts).completed == CountStatus(ts, "completed")
    ensures StatsOf(ts).pending == |ts| - CountStatus(ts, "completed")
    ensures StatsOf(ts).pending >= CountStatus(ts, "pending") + CountStatus(ts, "in-progress")
  {
    NotCompletedCount(ts);
    StatusCountsBounded(ts);
  }

  lemma {:induction false} StatusCountsBounded(ts: seq<Task>)
    ensures CountStatus(ts, "pending") + CountStatus(ts, "in-progress") + CountStatus(ts, "completed") <= |ts|
  {
    if ts != [] {
      StatusCountsBounded(ts[1..]);
    }
  }

  /** `fetchTaskStats` asks for the list with no parameters, so the server
      answers with its first page of at most 10 tasks: the client's stats
      count at most 10 tasks, fewer than the caller owns once there are
      more than 10. */
  lemma FetchedStatsCoverFirstPage(docs: seq<Task>, caller: UserId)
    ensures var q := ListQuery(None, None, None, None, None, None, None);
            var r := ListSpec(docs, caller, q);
            var owned := |Select(docs, Criteria(caller, None, None, None, None))|;
            && r.Success?
            && StatsOf(r.data.data).total == Min(10, owned)
  {
    var q := ListQuery(None, None, None, None, None, None, None);
    assert ListSkip(q) == 0;
    assert ListCriteria(caller, q) == Criteria(caller, None, None, None, None);
  }
}
