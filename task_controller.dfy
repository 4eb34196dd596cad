/** The task handlers of server/controllers/taskController.js over an
    owner-scoped document store. The collection is a map from document id
    to document, owned by `TaskStore`; the caller is the id the
    authentication gate attached to the request. Every handler answers
    with a status code and either its data or an error message. */
module TaskController {
  import opened Js
  import opened TaskSchema
  import opened TaskQuery

  /** An HTTP answer: `{ success: true, data }` or `{ success: false, message }`. */
  datatype Response<+T> = Success(code: int, data: T) | Failure(code: int, message: string)

  const NotFound: string := "Task not found"
  const ServerError: string := "Server Error"
  const DeletedMessage: string := "Task deleted successfully"

  // ---------------------------------------------------------------------
  // The list query

  /** The query string of `GET /api/tasks`; `None` is an absent parameter.
      `page` and `limit` are the numbers the strings stand for. */
  datatype ListQuery = ListQuery(
    status: Option<string>,
    priority: Option<string>,
    category: Option<string>,
    search: Option<string>,
    page: Option<int>,
    limit: Option<int>,
    sort: Option<string>)

  /** The JSON body of a successful list. */
  datatype ListPage = ListPage(count: nat, total: nat, page: int, pages: Option<int>, data: seq<Task>)

  const DefaultPage: int := 1
  const DefaultLimit: int := 10

  /** A filter takes part in the criteria only when it is truthy. */
  function Filter(s: Option<string>): (r: Option<string>)
    ensures r.Some? <==> Truthy(s)
    ensures r.Some? ==> r == s
  {
    if Truthy(s) then s else None
  }

  /** The criteria object the handler builds for `caller` and `q`. */
  function ListCriteria(caller: UserId, q: ListQuery): (c: Criteria)
    ensures c.user == caller
    ensures c.status.Some? <==> Truthy(q.status)
    ensures c.priority.Some? <==> Truthy(q.priority)
    ensures c.category.Some? <==> Truthy(q.category)
    ensures c.search.Some? <==> Truthy(q.search)
    ensures Truthy(q.status) ==> c.status == q.status
    ensures Truthy(q.priority) ==> c.priority == q.priority
    ensures Truthy(q.category) ==> c.category == q.category
    ensures Truthy(q.search) ==> c.search == q.search
  {
    Criteria(caller, Filter(q.status), Filter(q.priority), Filter(q.category), Filter(q.search))
  }

  /** An empty filter parameter imposes nothing: it selects exactly what
      an absent one selects. */
  lemma EmptyFilterIsAbsent(caller: UserId, q: ListQuery, t: Task)
    requires q.status == Some("") || q.priority == Some("") || q.category == Some("") || q.search == Some("")
    ensures var q' := q.(status := if q.status == Some("") then None else q.status,
                         priority := if q.priority == Some("") then None else q.priority,
                         category := if q.category == Some("") then None else q.category,
                         search := if q.search == Some("") then None else q.search);
            Satisfies(t, ListCriteria(caller, q)) <==> Satisfies(t, ListCriteria(caller, q'))
  {
  }

  /** With no filter parameters the criteria select exactly the caller's
      documents. */
  lemma NoFilterSelectsOwner(caller: UserId, q: ListQuery, t: Task)
    requires !Truthy(q.status) && !Truthy(q.priority) && !Truthy(q.category) && !Truthy(q.search)
    ensures Satisfies(t, ListCriteria(caller, q)) <==> t.user == caller
  {
  }

  /** A search term found in the title or in the description selects the
      document, whatever the case of its ASCII letters. */
  lemma SearchMatchesTitleOrDescription(caller: UserId, q: ListQuery, t: Task, i: nat, j: nat)
    requires q.search.Some? && t.user == caller
    requires !Truthy(q.status) && !Truthy(q.priority) && !Truthy(q.category)
    requires || (i < j <= |t.title| && q.search.value == t.title[i..j])
             || (t.description.Some? && i < j <= |t.description.value| && q.search.value == t.description.value[i..j])
    ensures Satisfies(t, ListCriteria(caller, q))
  {
    if i < j <= |t.title| && q.search.value == t.title[i..j] {
      ContainsInfix(t.title, i, j);
    } else {
      ContainsInfix(t.description.value, i, j);
    }
  }

  /** The offset `(page - 1) * limit` of the requested page. */
  function ListSkip(q: ListQuery): int {
    (q.page.GetOr(DefaultPage) - 1) * q.limit.GetOr(DefaultLimit)
  }

  /** The answer to a list query over the collection `docs` (in natural
      order). A negative skip is refused by the database and answered with
      500. Otherwise the page holds at most `|limit|` documents, all the
      caller's and all satisfying every truthy filter, in sort order, and
      forms the contiguous run of the sorted matches that starts at the
      skip; `total` counts every match, whatever the page. */
  function ListSpec(docs: seq<Task>, caller: UserId, q: ListQuery): (r: Response<ListPage>)
    ensures r.Failure? <==> ListSkip(q) < 0
    ensures r.Failure? ==> r == Failure(500, ServerError)
    ensures r.Success? ==>
              && r.code == 200
              && r.data.page == q.page.GetOr(DefaultPage)
              && r.data.count == |r.data.data|
              && r.data.total == |Select(docs, ListCriteria(caller, q))|
              && r.data.pages == PageCount(r.data.total, q.limit.GetOr(DefaultLimit))
    ensures r.Success? ==>
              var sorted := Sort(Select(docs, ListCriteria(caller, q)), ParseSort(q.sort.GetOr(DefaultSort)));
              && (ListSkip(q) >= |sorted| ==> r.data.data == [])
              && (ListSkip(q) < |sorted| ==>
                    ListSkip(q) + r.data.count <= |sorted| && r.data.data == sorted[ListSkip(q)..ListSkip(q) + r.data.count])
    ensures r.Success? ==>
              && SortedBy(r.data.data, ParseSort(q.sort.GetOr(DefaultSort)))
              && r.data.count == (if ListSkip(q) >= r.data.total then 0
                                  else if q.limit.GetOr(DefaultLimit) == 0 then r.data.total - ListSkip(q)
                                  else Min(EffectiveLimit(q.limit.GetOr(DefaultLimit)), r.data.total - ListSkip(q)))
    ensures r.Success? ==> forall t :: t in r.data.data ==> t in docs && t.user == caller && Satisfies(t, ListCriteria(caller, q))
  {
    var skip := ListSkip(q);
    if skip < 0 then Failure(500, ServerError)
    else
      var limit := q.limit.GetOr(DefaultLimit);
      var spec := ParseSort(q.sort.GetOr(DefaultSort));
      var matches := Select(docs, ListCriteria(caller, q));
      var sorted := Sort(matches, spec);
      var data := PageOf(sorted, skip, limit);
      PageOfSortedIsSorted(sorted, skip, limit, spec);
      PageMembers(matches, spec, skip, limit);
      Success(200, ListPage(|data|, |matches|, q.page.GetOr(DefaultPage), PageCount(|matches|, limit), data))
  }

  // ---------------------------------------------------------------------
  // Counting per status and priority

  /** The `$group` stage's accumulators. */
  datatype TaskStats = TaskStats(total: nat, pending: nat, inProgress: nat, completed: nat,
                                 high: nat, medium: nat, low: nat)

  const ZeroStats: TaskStats := TaskStats(0, 0, 0, 0, 0, 0, 0)

  function Indicator(b: bool): nat {
    if b then 1 else 0
  }

  /** The one group the aggregation forms over its input documents. */
  function Tally(docs: seq<Task>): (r: TaskStats)
    ensures r.total == |docs|
    ensures r.pending <= r.total && r.inProgress <= r.total && r.completed <= r.total
    ensures r.high <= r.total && r.medium <= r.total && r.low <= r.total
    ensures r.pending + r.inProgress + r.completed <= r.total
    ensures r.high + r.medium + r.low <= r.total
  {
    if docs == [] then ZeroStats
    else
      var rest := Tally(docs[1..]);
      var t := docs[0];
      TaskStats(rest.total + 1,
                rest.pending + Indicator(t.status == "pending"),
                rest.inProgress + Indicator(t.status == "in-progress"),
                rest.completed + Indicator(t.status == "completed"),
                rest.high + Indicator(t.priority == "high"),
                rest.medium + Indicator(t.priority == "medium"),
                rest.low + Indicator(t.priority == "low"))
  }

  /** Over documents the schema admits, every document is pending or
      completed, none is in progress, and every one has one of the three
      priorities. */
  lemma {:induction false} TallyOfValid(docs: seq<Task>)
    requires forall k :: 0 <= k < |docs| ==> SchemaValid(docs[k])
    ensures Tally(docs).inProgress == 0
    ensures Tally(docs).pending + Tally(docs).completed == Tally(docs).total
    ensures Tally(docs).high + Tally(docs).medium + Tally(docs).low == Tally(docs).total
  {
    if docs != [] {
      TallyOfValid(docs[1..]);
      StatusEnumIsTwoValued(docs[0].status);
    }
  }

  /** The argument of the `$match` stage. The aggregation pipeline does not
      cast its arguments to the schema's types: an id passed as a string
      never equals the `ObjectId` stored in `user`. */
  datatype MatchArg = ObjectIdArg(id: UserId) | StringArg(text: UserId)

  predicate OwnerMatches(t: Task, m: MatchArg) {
    match m
    case ObjectIdArg(u) => t.user == u
    case StringArg(_) => false
  }

  function MatchOwner(docs: seq<Task>, m: MatchArg): (r: seq<Task>)
    ensures forall t :: t in r <==> t in docs && OwnerMatches(t, m)
    ensures |r| <= |docs|
  {
    if docs == [] then []
    else if OwnerMatches(docs[0], m) then [docs[0]] + MatchOwner(docs[1..], m)
    else MatchOwner(docs[1..], m)
  }

  /** `$match` then `$group` with `_id: null`, followed by
      `stats[0] || zeros`: a group over no documents is no group at all,
      and the fallback object takes its place. */
  function StatsOver(docs: seq<Task>, m: MatchArg): (r: TaskStats)
    ensures r.total == |MatchOwner(docs, m)|
  {
    var matched := MatchOwner(docs, m);
    var groups := if matched == [] then [] else [Tally(matched)];
    if |groups| > 0 then groups[0] else ZeroStats
  }

  /** The statistics the handler computes as written: the caller's id is
      the string `req.user.id`. */
  function StatsAsWritten(docs: seq<Task>, caller: UserId): TaskStats {
    StatsOver(docs, StringArg(caller))
  }

  /** The statistics the handler is evidently meant to compute: the
      caller's id as an `ObjectId`. */
  function StatsFor(docs: seq<Task>, caller: UserId): TaskStats {
    StatsOver(docs, ObjectIdArg(caller))
  }

  /** As written, the match stage selects nothing and every count is 0. */
  lemma {:induction false} StatsAsWrittenAlwaysZero(docs: seq<Task>, caller: UserId)
    ensures StatsAsWritten(docs, caller) == ZeroStats
  {
    NothingMatchesAString(docs, caller);
  }

  lemma {:induction false} NothingMatchesAString(docs: seq<Task>, caller: UserId)
    ensures MatchOwner(docs, StringArg(caller)) == []
  {
    if docs != [] {
      NothingMatchesAString(docs[1..], caller);
    }
  }

  /** One document owned by the caller: the intended total is 1, the
      total as written is 0. */
  lemma StatsAsWrittenMissesOwnedTask(t: Task)
    ensures StatsFor([t], t.user).total == 1
    ensures StatsAsWritten([t], t.user).total == 0
  {
    assert MatchOwner([t], ObjectIdArg(t.user)) == [t];
  }

  /** The intended statistics count the caller's documents, and they are
      all zero exactly when the caller owns none. */
  lemma {:induction false} StatsForCountsOwned(docs: seq<Task>, caller: UserId)
    ensures StatsFor(docs, caller).total == |MatchOwner(docs, ObjectIdArg(caller))|
    ensures (forall k :: 0 <= k < |docs| ==> docs[k].user != caller) ==> StatsFor(docs, caller) == ZeroStats
    ensures (exists k :: 0 <= k < |docs| && docs[k].user == caller) ==> StatsFor(docs, caller).total > 0
  {
    var matched := MatchOwner(docs, ObjectIdArg(caller));
    if exists k :: 0 <= k < |docs| && docs[k].user == caller {
      var k :| 0 <= k < |docs| && docs[k].user == caller;
      assert docs[k] in matched;
    } else {
      NoOwnedNoMatch(docs, caller);
    }
  }

  lemma {:induction false} NoOwnedNoMatch(docs: seq<Task>, caller: UserId)
    requires forall k :: 0 <= k < |docs| ==> docs[k].user != caller
    ensures MatchOwner(docs, ObjectIdArg(caller)) == []
  {
    if docs != [] {
      assert docs[0].user != caller;
      NoOwnedNoMatch(docs[1..], caller);
    }
  }

  /** The owner match of the statistics is the list criteria without
      filters: both select the same documents in the same order. */
  lemma {:induction false} StatsMatchIsUnfilteredList(docs: seq<Task>, caller: UserId)
    ensures MatchOwner(docs, ObjectIdArg(caller)) == Select(docs, Criteria(caller, None, None, None, None))
  {
    if docs != [] {
      StatsMatchIsUnfilteredList(docs[1..], caller);
    }
  }

  // ---------------------------------------------------------------------
  // The status rule of an update

  /** The status written when the body names none: completed becomes
      pending and every other status becomes completed. */
  function Toggle(status: string): (r: string)
    ensures r == "pending" || r == "completed"
    ensures r == "pending" <==> status == "completed"
  {
    if status == "completed" then "pending" else "completed"
  }

  /** The status an update writes: a string `status` in the body is taken
      as it is; any other body toggles. */
  function RequestedStatus(current: string, body: Value): (r: string)
    ensures body.Text? ==> r == body.s
    ensures !body.Text? ==> r == Toggle(current)
  {
    match body
    case Text(s) => s
    case _ => Toggle(current)
  }

  /** Toggling twice returns a stored status to itself, and a toggle always
      lands on a status the schema admits; an in-progress status (which no
      stored document has) comes back as pending. */
  lemma ToggleTwice(s: string)
    ensures StatusAllowed(Toggle(s))
    ensures Toggle(Toggle(s)) == (if s == "completed" then "completed" else "pending")
    ensures StatusAllowed(s) ==> Toggle(Toggle(s)) == s
  {
    StatusEnumIsTwoValued(s);
    StatusEnumIsTwoValued(Toggle(s));
  }

  // ---------------------------------------------------------------------
  // The store

  /** Every document sits under its own id, below the next id to hand out,
      and satisfies the schema. */
  predicate StoreValid(tasks: map<TaskId, Task>, nextId: TaskId) {
    && IdsConsistent(tasks)
    && (forall id :: id in tasks ==> id < nextId)
    && (forall id :: id in tasks ==> SchemaValid(tasks[id]))
  }

  lemma StoreValidAfterPut(tasks: map<TaskId, Task>, nextId: TaskId, t: Task, nextId': TaskId)
    requires StoreValid(tasks, nextId) && SchemaValid(t) && t.id < nextId' && nextId <= nextId'
    ensures StoreValid(tasks[t.id := t], nextId')
  {
  }

  /** Writing a status the enum admits keeps a document valid. */
  lemma StatusChangeKeepsSchema(t: Task, status: string, now: int)
    requires SchemaValid(t) && StatusAllowed(status)
    ensures SchemaValid(t.(status := status, updatedAt := now))
  {
  }

  lemma StoreValidAfterRemove(tasks: map<TaskId, Task>, nextId: TaskId, id: TaskId)
    requires StoreValid(tasks, nextId)
    ensures StoreValid(tasks - {id}, nextId)
  {
  }

  class TaskStore {
    var tasks: map<TaskId, Task>
    var nextId: TaskId

    /** Every document sits under its own id, below the next id to hand
        out, and satisfies the schema. */
    ghost predicate Valid()
      reads this
    {
      StoreValid(tasks, nextId)
    }

    /** The collection in natural (insertion) order. */
    function Documents(): (r: seq<Task>)
      reads this
      requires Valid()
      ensures forall t :: t in r <==> t.id in tasks && tasks[t.id] == t
      ensures StrictlyIncreasingIds(r)
    {
      InIdOrder(tasks, nextId)
    }

    constructor ()
      ensures Valid() && tasks == map[] && nextId == 0
    {
      tasks := map[];
      nextId := 0;
    }

    /** `getTasks`: the criteria object is built field by field from the
        truthy parameters, then the matches are read a page at a time. */
    method List(caller: UserId, q: ListQuery) returns (r: Response<ListPage>)
      requires Valid()
      ensures r == ListSpec(Documents(), caller, q)
      ensures r.Success? ==> forall t :: t in r.data.data ==> t.id in tasks && tasks[t.id] == t
    {
      var page := q.page.GetOr(DefaultPage);
      var limit := q.limit.GetOr(DefaultLimit);
      var sort := q.sort.GetOr(DefaultSort);

      var query := Criteria(caller, None, None, None, None);
      if Truthy(q.status) { query := query.(status := q.status); }
      if Truthy(q.priority) { query := query.(priority := q.priority); }
      if Truthy(q.category) { query := query.(category := q.category); }
      if Truthy(q.search) { query := query.(search := q.search); }
      assert query == ListCriteria(caller, q);

      var skip := (page - 1) * limit;
      assert skip == ListSkip(q);
      if skip < 0 {
        return Failure(500, ServerError);
      }
      var docs := Documents();
      var matches := Select(docs, query);
      var data := PageOf(Sort(matches, ParseSort(sort)), skip, limit);
      var total := |matches|;
      r := Success(200, ListPage(|data|, total, page, PageCount(total, limit), data));
    }

    /** `getTask`. */
    method Get(caller: UserId, id: TaskId) returns (r: Response<Task>)
      requires Valid()
      ensures id !in tasks ==> r == Failure(404, NotFound)
      ensures id in tasks && tasks[id].user != caller ==> r == Failure(403, "Not authorized to access this task")
      ensures id in tasks && tasks[id].user == caller ==> r == Success(200, tasks[id])
    {
      if id !in tasks {
        return Failure(404, NotFound);
      }
      var task := tasks[id];
      if task.user != caller {
        return Failure(403, "Not authorized to access this task");
      }
      r := Success(200, task);
    }

    /** `createTask`: the body's owner is overwritten with the caller before
        the schema casts and validates it; a validation failure is a 500
        and stores nothing. */
    method Create(caller: UserId, body: TaskFields, now: int) returns (r: Response<Task>)
      requires Valid()
      modifies this
      ensures Valid()
      ensures var made := ApplySchema(body.(user := Some(caller)), old(nextId), now);
              && (made.Err? ==> r == Failure(500, ServerError) && tasks == old(tasks) && nextId == old(nextId))
              && (made.Ok? ==> r == Success(201, made.value))
      ensures r.Success? ==>
                && r.data.user == caller && r.data.id == old(nextId)
                && r.data.id !in old(tasks)
                && tasks == old(tasks)[r.data.id := r.data]
                && nextId == old(nextId) + 1
    {
      var fields := body.(user := Some(caller));
      var made := ApplySchema(fields, nextId, now);
      if made.Err? {
        return Failure(500, ServerError);
      }
      var task := made.value;
      StoreValidAfterPut(tasks, nextId, task, nextId + 1);
      tasks := tasks[task.id := task];
      nextId := nextId + 1;
      r := Success(201, task);
    }

    /** `updateTask`: only the status (and the update timestamp) is
        written; the update validators refuse a status outside the enum,
        which is answered with 500. */
    method Update(caller: UserId, id: TaskId, body: Value, now: int) returns (r: Response<Task>)
      requires Valid()
      modifies this`tasks
      ensures Valid()
      ensures id !in old(tasks) ==> r == Failure(404, NotFound) && tasks == old(tasks)
      ensures id in old(tasks) && old(tasks)[id].user != caller ==>
                r == Failure(403, "Not authorized to update this task") && tasks == old(tasks)
      ensures id in old(tasks) && old(tasks)[id].user == caller ==>
                var status := RequestedStatus(old(tasks)[id].status, body);
                && (!StatusAllowed(status) ==> r == Failure(500, ServerError) && tasks == old(tasks))
                && (StatusAllowed(status) ==>
                      && r == Success(200, old(tasks)[id].(status := status, updatedAt := now))
                      && tasks == old(tasks)[id := r.data])
    {
      if id !in tasks {
        return Failure(404, NotFound);
      }
      var task := tasks[id];
      if task.user != caller {
        return Failure(403, "Not authorized to update this task");
      }
      var newStatus: string;
      if body.Text? {
        newStatus := body.s;
      } else {
        newStatus := if task.status == "completed" then "pending" else "completed";
      }
      if !StatusAllowed(newStatus) {
        return Failure(500, ServerError);
      }
      var updated := task.(status := newStatus, updatedAt := now);
      StatusChangeKeepsSchema(task, newStatus, now);
      StoreValidAfterPut(tasks, nextId, updated, nextId);
      tasks := tasks[id := updated];
      assert StoreValid(tasks, nextId);
      r := Success(200, updated);
    }

    /** `deleteTask`: removes exactly the target document. */
    method Delete(caller: UserId, id: TaskId) returns (r: Response<string>)
      requires Valid()
      modifies this`tasks
      ensures Valid()
      ensures id !in old(tasks) ==> r == Failure(404, NotFound) && tasks == old(tasks)
      ensures id in old(tasks) && old(tasks)[id].user != caller ==>
                r == Failure(403, "Not authorized to delete this task") && tasks == old(tasks)
      ensures id in old(tasks) && old(tasks)[id].user == caller ==>
                r == Success(200, DeletedMessage) && tasks == old(tasks) - {id}
    {
      if id !in tasks {
        return Failure(404, NotFound);
      }
      if tasks[id].user != caller {
        return Failure(403, "Not authorized to delete this task");
      }
      StoreValidAfterRemove(tasks, nextId, id);
      tasks := tasks - {id};
      r := Success(200, DeletedMessage);
    }

    /** `getTaskStats`, with the owner matched as an `ObjectId`. */
    method Stats(caller: UserId) returns (r: Response<TaskStats>)
      requires Valid()
      ensures r.Success? && r.code == 200
      ensures r.data == StatsFor(Documents(), caller)
      ensures r.data.inProgress == 0
      ensures r.data.pending + r.data.completed == r.data.total
      ensures r.data.high + r.data.medium + r.data.low == r.data.total
      ensures r.data.total == |Select(Documents(), Criteria(caller, None, None, None, None))|
    {
      var docs := Documents();
      var matched := MatchOwner(docs, ObjectIdArg(caller));
      var stats := if matched == [] then [] else [Tally(matched)];
      var result := if |stats| > 0 then stats[0] else ZeroStats;
      forall k | 0 <= k < |matched| ensures SchemaValid(matched[k]) {
        assert matched[k] in docs;
      }
      TallyOfValid(matched);
      StatsMatchIsUnfilteredList(docs, caller);
      r := Success(200, result);
    }
  }

  // ---------------------------------------------------------------------
  // Facts about pages of sorted matches

  lemma PageOfSortedIsSorted(s: seq<Task>, skip: nat, limit: int, spec: SortSpec)
    requires SortedBy(s, spec)
    ensures SortedBy(PageOf(s, skip, limit), spec)
  {
    var p := PageOf(s, skip, limit);
    if skip < |s| {
      forall i | 0 <= i < |p| - 1 ensures Before(spec, p[i], p[i + 1]) {
        assert p[i] == s[skip + i] && p[i + 1] == s[skip + i + 1];
      }
    }
  }

  /** Every document on a page of the sorted matches is one of the matches. */
  lemma PageMembers(matches: seq<Task>, spec: SortSpec, skip: nat, limit: int)
    ensures forall t :: t in PageOf(Sort(matches, spec), skip, limit) ==> t in matches
  {
    var sorted := Sort(matches, spec);
    var p := PageOf(sorted, skip, limit);
    forall t | t in p ensures t in matches {
      var i :| 0 <= i < |p| && p[i] == t;
      assert t == sorted[skip + i];
      assert t in multiset(sorted);
    }
  }

  /** Every match lands on exactly one page: with no skip and no limit the
      page holds all of them. */
  lemma UnlimitedPageHoldsAllMatches(matches: seq<Task>, spec: SortSpec)
    ensures multiset(PageOf(Sort(matches, spec), 0, 0)) == multiset(matches)
  {
    var sorted := Sort(matches, spec);
    if |sorted| > 0 {
      assert sorted[0..|sorted|] == sorted;
    }
  }
}
