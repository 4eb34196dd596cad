/** How the document store answers the list query of
    server/controllers/taskController.js: the criteria object, the
    documents that satisfy it in natural (id) order, the `sort` string,
    `skip`/`limit` and the `Math.ceil(total / limit)` page count. */
module TaskQuery {
  import opened Js
  import opened TaskSchema

  // ---------------------------------------------------------------------
  // Natural order of a collection

  predicate IdsConsistent(m: map<TaskId, Task>) {
    forall id :: id in m ==> m[id].id == id
  }

  predicate StrictlyIncreasingIds(s: seq<Task>) {
    forall i, j :: 0 <= i < j < |s| ==> s[i].id < s[j].id
  }

  /** The documents with id below `n`, in ascending id order. */
  function InIdOrder(m: map<TaskId, Task>, n: nat): (r: seq<Task>)
    requires IdsConsistent(m)
    ensures forall t :: t in r <==> t.id < n && t.id in m && m[t.id] == t
    ensures StrictlyIncreasingIds(r)
  {
    if n == 0 then []
    else
      var prefix := InIdOrder(m, n - 1);
      prefix + (if n - 1 in m then [m[n - 1]] else [])
  }

  // ---------------------------------------------------------------------
  // The criteria object

  /** The query object `{ user, status?, priority?, category?, $or? }`;
      category and search are case-insensitive patterns. */
  datatype Criteria = Criteria(
    user: UserId,
    status: Option<string>,
    priority: Option<string>,
    category: Option<string>,
    search: Option<string>)

  predicate Satisfies(t: Task, c: Criteria) {
    && t.user == c.user
    && (c.status.Some? ==> t.status == c.status.value)
    && (c.priority.Some? ==> t.priority == c.priority.value)
    && (c.category.Some? ==> ContainsIgnoreCase(t.category, c.category.value))
    && (c.search.Some? ==>
          || ContainsIgnoreCase(t.title, c.search.value)
          || (t.description.Some? && ContainsIgnoreCase(t.description.value, c.search.value)))
  }

  /** `find(criteria)`: the satisfying documents, in the given order. */
  function Select(ts: seq<Task>, c: Criteria): (r: seq<Task>)
    ensures forall t :: t in r <==> t in ts && Satisfies(t, c)
    ensures |r| <= |ts|
    ensures StrictlyIncreasingIds(ts) ==> StrictlyIncreasingIds(r)
  {
    if ts == [] then []
    else
      var rest := Select(ts[1..], c);
      assert forall t :: t in ts[1..] ==> t in ts;
      if Satisfies(ts[0], c) then
        assert StrictlyIncreasingIds(ts) ==> forall k :: 0 <= k < |rest| ==> ts[0].id < rest[k].id by {
          if StrictlyIncreasingIds(ts) {
            forall k | 0 <= k < |rest| ensures ts[0].id < rest[k].id {
              assert rest[k] in ts[1..];
              var j :| 0 <= j < |ts[1..]| && ts[1..][j] == rest[k];
              assert ts[j + 1] == rest[k];
            }
          }
        }
        [ts[0]] + rest
      else
        rest
  }

  // ---------------------------------------------------------------------
  // Sorting

  /** The field a sort string names; any other name is `ByOther`, on which
      every document has no value. */
  datatype SortField =
    ByCreatedAt | ByUpdatedAt | ByTitle | ByDescription | ByStatus | ByPriority | ByCategory | ByDueDate | ById | ByOther

  datatype SortSpec = SortSpec(field: SortField, descending: bool)

  const DefaultSort: string := "-createdAt"

  function FieldNamed(name: string): SortField {
    if name == "createdAt" then ByCreatedAt
    else if name == "updatedAt" then ByUpdatedAt
    else if name == "title" then ByTitle
    else if name == "description" then ByDescription
    else if name == "status" then ByStatus
    else if name == "priority" then ByPriority
    else if name == "category" then ByCategory
    else if name == "dueDate" then ByDueDate
    else if name == "_id" then ById
    else ByOther
  }

  /** A leading "-" asks for descending order of the named field. */
  function ParseSort(s: string): (r: SortSpec)
    ensures r.descending <==> |s| > 0 && s[0] == '-'
    ensures r.field == FieldNamed(if r.descending then s[1..] else s)
  {
    if |s| > 0 && s[0] == '-' then SortSpec(FieldNamed(s[1..]), true) else SortSpec(FieldNamed(s), false)
  }

  /** A sort key: a missing value sorts before any present one. */
  datatype SortKey = Missing | Num(n: int) | Str(s: string)

  function KeyOf(t: Task, f: SortField): SortKey {
    match f
    case ByCreatedAt => Num(t.createdAt)
    case ByUpdatedAt => Num(t.updatedAt)
    case ByTitle => Str(t.title)
    case ByDescription => if t.description.Some? then Str(t.description.value) else Missing
    case ByStatus => Str(t.status)
    case ByPriority => Str(t.priority)
    case ByCategory => Str(t.category)
    case ByDueDate => if t.dueDate.Some? then Num(t.dueDate.value) else Missing
    case ById => Num(t.id)
    case ByOther => Missing
  }

  /** Lexicographic order on code points. */
  predicate StrLe(a: string, b: string) {
    a == [] || (b != [] && (a[0] < b[0] || (a[0] == b[0] && StrLe(a[1..], b[1..]))))
  }

  predicate KeyLe(a: SortKey, b: SortKey) {
    match (a, b)
    case (Missing, _) => true
    case (_, Missing) => false
    case (Num(x), Num(y)) => x <= y
    case (Num(_), Str(_)) => true
    case (Str(_), Num(_)) => false
    case (Str(x), Str(y)) => StrLe(x, y)
  }

  lemma {:induction false} StrLeTotal(a: string, b: string)
    ensures StrLe(a, b) || StrLe(b, a)
  {
    if a != [] && b != [] && a[0] == b[0] {
      StrLeTotal(a[1..], b[1..]);
    }
  }

  lemma {:induction false} StrLeTransitive(a: string, b: string, c: string)
    requires StrLe(a, b) && StrLe(b, c)
    ensures StrLe(a, c)
  {
    if a != [] && a[0] == b[0] && b[0] == c[0] {
      StrLeTransitive(a[1..], b[1..], c[1..]);
    }
  }

  lemma KeyLeTotal(a: SortKey, b: SortKey)
    ensures KeyLe(a, b) || KeyLe(b, a)
  {
    if a.Str? && b.Str? {
      StrLeTotal(a.s, b.s);
    }
  }

  lemma KeyLeTransitive(a: SortKey, b: SortKey, c: SortKey)
    requires KeyLe(a, b) && KeyLe(b, c)
    ensures KeyLe(a, c)
  {
    if a.Str? && b.Str? && c.Str? {
      StrLeTransitive(a.s, b.s, c.s);
    }
  }

  /** `a` may come before `b` under the sort specification. */
  predicate Before(spec: SortSpec, a: Task, b: Task) {
    if spec.descending then KeyLe(KeyOf(b, spec.field), KeyOf(a, spec.field))
    else KeyLe(KeyOf(a, spec.field), KeyOf(b, spec.field))
  }

  lemma BeforeTotal(spec: SortSpec, a: Task, b: Task)
    ensures Before(spec, a, b) || Before(spec, b, a)
  {
    KeyLeTotal(KeyOf(a, spec.field), KeyOf(b, spec.field));
  }

  lemma BeforeTransitive(spec: SortSpec, a: Task, b: Task, c: Task)
    requires Before(spec, a, b) && Before(spec, b, c)
    ensures Before(spec, a, c)
  {
    if spec.descending {
      KeyLeTransitive(KeyOf(c, spec.field), KeyOf(b, spec.field), KeyOf(a, spec.field));
    } else {
      KeyLeTransitive(KeyOf(a, spec.field), KeyOf(b, spec.field), KeyOf(c, spec.field));
    }
  }

  /** Each document may come before its successor. */
  predicate SortedBy(s: seq<Task>, spec: SortSpec) {
    forall i :: 0 <= i < |s| - 1 ==> Before(spec, s[i], s[i + 1])
  }

  /** Inserts `x` in front of the first document it may precede. */
  function Insert(x: Task, s: seq<Task>, spec: SortSpec): (r: seq<Task>)
    requires SortedBy(s, spec)
    ensures SortedBy(r, spec)
    ensures multiset(r) == multiset(s) + multiset{x}
    ensures |r| == |s| + 1
    ensures r[0] == x || (s != [] && r[0] == s[0])
  {
    if s == [] || Before(spec, x, s[0]) then
      [x] + s
    else
      BeforeTotal(spec, x, s[0]);
      var tail := Insert(x, s[1..], spec);
      assert s == [s[0]] + s[1..];
      [s[0]] + tail
  }

  /** The documents ordered by the sort specification; documents with equal
      keys keep their natural order. */
  function Sort(s: seq<Task>, spec: SortSpec): (r: seq<Task>)
    ensures SortedBy(r, spec)
    ensures multiset(r) == multiset(s)
    ensures |r| == |s|
  {
    if s == [] then []
    else
      assert s == [s[0]] + s[1..];
      Insert(s[0], Sort(s[1..], spec), spec)
  }

  /** In a sorted sequence every document may come before every later one. */
  lemma {:induction false} SortedPairwise(s: seq<Task>, spec: SortSpec, i: nat, j: nat)
    requires SortedBy(s, spec) && i < j < |s|
    ensures Before(spec, s[i], s[j])
    decreases j - i
  {
    if i + 1 < j {
      SortedPairwise(s, spec, i + 1, j);
      BeforeTransitive(spec, s[i], s[i + 1], s[j]);
    }
  }

  // ---------------------------------------------------------------------
  // Paging

  function Min(a: int, b: int): int {
    if a <= b then a else b
  }

  /** The number of documents a `limit(n)` cursor returns at most; 0 means
      no limit, and a negative limit returns one batch of `-n`. */
  function EffectiveLimit(limit: int): nat {
    if limit < 0 then -limit else limit
  }

  /** `skip(skip).limit(limit)` applied to a result sequence: the
      contiguous run of at most `|limit|` documents starting at `skip`. */
  function PageOf(s: seq<Task>, skip: nat, limit: int): (r: seq<Task>)
    ensures |r| == if skip >= |s| then 0
                   else if limit == 0 then |s| - skip
                   else Min(EffectiveLimit(limit), |s| - skip)
    ensures skip >= |s| ==> r == []
    ensures skip < |s| ==> skip + |r| <= |s| && r == s[skip..skip + |r|]
  {
    if skip >= |s| then []
    else if limit == 0 then s[skip..]
    else s[skip..skip + Min(EffectiveLimit(limit), |s| - skip)]
  }

  /** `Math.ceil(total / limit)` as JSON carries it: `None` is the `null`
      that Infinity and NaN become when `limit` is 0. */
  function PageCount(total: nat, limit: int): (r: Option<int>)
    ensures r.None? <==> limit == 0
    ensures limit > 0 ==> r.value >= 0 && r.value * limit >= total && (r.value - 1) * limit < total + (if total == 0 then limit else 0)
    ensures limit > 0 ==> (r.value == 0 <==> total == 0)
  {
    if limit == 0 then None
    else if limit > 0 then
      var c := (total + limit - 1) / limit;
      CeilDivBounds(total, limit);
      Some(c)
    else Some(-(total / -limit))
  }

  lemma CeilDivBounds(total: nat, limit: int)
    requires limit > 0
    ensures var c := (total + limit - 1) / limit;
            c >= 0 && c * limit >= total && (total > 0 ==> (c - 1) * limit < total) && (c == 0 <==> total == 0)
  {
    var c := (total + limit - 1) / limit;
    var rem := (total + limit - 1) % limit;
    assert total + limit - 1 == c * limit + rem && 0 <= rem < limit;
    if total > 0 {
      assert c * limit > total - 1 - limit + 1 - limit;
      assert c >= 1;
    } else {
      assert c == 0;
    }
  }
}
