/** The Task document schema of server/models/Task.js: field constraints,
    the trim setters, the defaults and the owner reference, as a function
    from the fields handed to `Task.create` to either a stored document or
    the list of paths whose validators failed. */
module TaskSchema {
  import opened Js

  type TaskId = nat
  type UserId = nat

  /** A stored task document. `user` is the owner's id; timestamps are
      milliseconds since the epoch, supplied by the caller's clock. */
  datatype Task = Task(
    id: TaskId,
    title: string,
    description: Option<string>,
    status: string,
    priority: string,
    dueDate: Option<int>,
    category: string,
    user: UserId,
    createdAt: int,
    updatedAt: int)

  /** The fields given to `Task.create`; `None` is an absent field. */
  datatype TaskFields = TaskFields(
    title: Option<string>,
    description: Option<string>,
    status: Option<string>,
    priority: Option<string>,
    dueDate: Option<int>,
    category: Option<string>,
    user: Option<UserId>)

  /** The schema paths, in declaration order. */
  datatype Path = TitlePath | DescriptionPath | StatusPath | PriorityPath | CategoryPath | UserPath

  const TitleMax: nat := 100
  const DescriptionMax: nat := 500
  const CategoryMax: nat := 50
  const DefaultStatus: string := "pending"
  const DefaultPriority: string := "medium"
  const DefaultCategory: string := "General"

  /** The status enum literal `["pending", , "completed"]`: its middle slot
      is a hole, which the enum validator skips. */
  const StatusEnumLiteral: seq<Option<string>> := [Some("pending"), None, Some("completed")]

  const PriorityEnum: seq<string> := ["low", "medium", "high"]

  predicate StatusAllowed(s: string) {
    Some(s) in StatusEnumLiteral
  }

  predicate PriorityAllowed(p: string) {
    p in PriorityEnum
  }

  /** The enum admits exactly "pending" and "completed". */
  lemma StatusEnumIsTwoValued(s: string)
    ensures StatusAllowed(s) <==> s == "pending" || s == "completed"
  {
    if StatusAllowed(s) {
      var k :| 0 <= k < 3 && StatusEnumLiteral[k] == Some(s);
    }
  }

  /** The constraints every stored document satisfies. */
  predicate SchemaValid(t: Task) {
    && Trimmed(t.title) && 1 <= |t.title| <= TitleMax
    && (t.description.Some? ==> Trimmed(t.description.value) && |t.description.value| <= DescriptionMax)
    && StatusAllowed(t.status)
    && PriorityAllowed(t.priority)
    && Trimmed(t.category) && |t.category| <= CategoryMax
  }

  /** The validators that fail, in path order, on values after the trim
      setters and defaults have been applied. */
  function FailingPaths(title: Option<string>, description: Option<string>, status: string,
                        priority: string, category: string, user: Option<UserId>): (r: seq<Path>)
    ensures TitlePath in r <==> title.None? || title.value == "" || |title.value| > TitleMax
    ensures DescriptionPath in r <==> description.Some? && |description.value| > DescriptionMax
    ensures StatusPath in r <==> !StatusAllowed(status)
    ensures PriorityPath in r <==> !PriorityAllowed(priority)
    ensures CategoryPath in r <==> |category| > CategoryMax
    ensures UserPath in r <==> user.None?
  {
    var first := Flag(title.None? || title.value == "" || |title.value| > TitleMax, TitlePath)
                 + Flag(description.Some? && |description.value| > DescriptionMax, DescriptionPath)
                 + Flag(!StatusAllowed(status), StatusPath);
    var second := Flag(!PriorityAllowed(priority), PriorityPath)
                  + Flag(|category| > CategoryMax, CategoryPath)
                  + Flag(user.None?, UserPath);
    first + second
  }

  /** The path when its validator fails, nothing otherwise. */
  function Flag(fails: bool, p: Path): (r: seq<Path>)
    ensures p in r <==> fails
    ensures forall q :: q in r ==> q == p
  {
    if fails then [p] else []
  }

  function TrimOpt(s: Option<string>): (r: Option<string>)
    ensures r.Some? <==> s.Some?
  {
    match s
    case None => None
    case Some(v) => Some(Trim(v))
  }

  /** Casting and validating a new document: trim setters on title,
      description and category; defaults for status, priority and category;
      then every validator. The document gets `id` and both timestamps
      `now`. */
  function ApplySchema(f: TaskFields, id: TaskId, now: int): (r: Result<Task, seq<Path>>)
    ensures r.Ok? ==> SchemaValid(r.value)
    ensures r.Ok? ==> && r.value.id == id && f.user == Some(r.value.user)
                      && r.value.createdAt == now && r.value.updatedAt == now
                      && r.value.dueDate == f.dueDate
                      && Some(r.value.title) == TrimOpt(f.title)
                      && r.value.description == TrimOpt(f.description)
    ensures r.Ok? ==> r.value.status == f.status.GetOr(DefaultStatus)
    ensures r.Ok? ==> r.value.priority == f.priority.GetOr(DefaultPriority)
    ensures r.Ok? ==> r.value.category == (if f.category.Some? then Trim(f.category.value) else DefaultCategory)
    ensures r.Err? ==> r.error != []
    ensures r.Err? ==> (UserPath in r.error <==> f.user.None?)
    ensures r.Err? ==> (TitlePath in r.error <==> f.title.None? || Trim(f.title.value) == "" || |Trim(f.title.value)| > TitleMax)
    ensures r.Err? ==> (StatusPath in r.error <==> f.status.Some? && !StatusAllowed(f.status.value))
    ensures r.Err? ==> (PriorityPath in r.error <==> f.priority.Some? && !PriorityAllowed(f.priority.value))
    ensures f.user.None? || f.title.None? ==> r.Err?
    ensures f.status.Some? && !StatusAllowed(f.status.value) ==> r.Err?
    ensures f.priority.Some? && !PriorityAllowed(f.priority.value) ==> r.Err?
  {
    var title := TrimOpt(f.title);
    var description := TrimOpt(f.description);
    var status := f.status.GetOr(DefaultStatus);
    var priority := f.priority.GetOr(DefaultPriority);
    var category := if f.category.Some? then Trim(f.category.value) else DefaultCategory;
    var failing := FailingPaths(title, description, status, priority, category, f.user);
    if failing != [] then
      Err(failing)
    else
      var t := Task(id, title.value, description, status, priority, f.dueDate, category, f.user.value, now, now);
      PassingIsValid(f, t);
      Ok(t)
  }

  /** A document built from trimmed fields on which no validator fails
      satisfies the schema. */
  lemma PassingIsValid(f: TaskFields, t: Task)
    requires Some(t.title) == TrimOpt(f.title) && t.description == TrimOpt(f.description)
    requires t.category == if f.category.Some? then Trim(f.category.value) else DefaultCategory
    requires FailingPaths(Some(t.title), t.description, t.status, t.priority, t.category, Some(t.user)) == []
    ensures SchemaValid(t)
  {
    var failing := FailingPaths(Some(t.title), t.description, t.status, t.priority, t.category, Some(t.user));
    assert TitlePath !in failing && DescriptionPath !in failing && StatusPath !in failing;
    assert PriorityPath !in failing && CategoryPath !in failing;
  }

  /** A request body that names only a title gets the documented defaults. */
  lemma DefaultsForTitleOnly(title: string, owner: UserId, id: TaskId, now: int)
    requires Trim(title) != [] && |Trim(title)| <= TitleMax
    ensures var r := ApplySchema(TaskFields(Some(title), None, None, None, None, None, Some(owner)), id, now);
            && r.Ok?
            && r.value.status == "pending" && r.value.priority == "medium"
            && r.value.category == "General" && r.value.user == owner
            && r.value.title == Trim(title) && r.value.description.None?
  {
    assert PriorityAllowed(DefaultPriority);
    assert StatusAllowed(DefaultStatus);
  }

  /** A whitespace-only title is refused: the trim setter leaves "" and
      `required` fails. */
  lemma BlankTitleRefused(f: TaskFields, id: TaskId, now: int)
    requires f.title.Some? && forall k :: 0 <= k < |f.title.value| ==> IsSpace(f.title.value[k])
    ensures ApplySchema(f, id, now).Err? && TitlePath in ApplySchema(f, id, now).error
  {
    TrimEmptyIffBlank(f.title.value);
  }

  /** "in-progress" passes the request validator's list but not the schema. */
  lemma InProgressRefused(f: TaskFields, id: TaskId, now: int)
    requires f.status == Some("in-progress")
    ensures ApplySchema(f, id, now).Err?
  {
    StatusEnumIsTwoValued("in-progress");
  }
}
