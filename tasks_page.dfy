/** The task list page of client/src/pages/Tasks.jsx: the filter state and
    how it changes, the query parameters built from it for each list
    request, and the pagination bar's arithmetic over the pagination state
    the task cache keeps. */
module TasksPage {
  import opened Js
  import opened TaskSchema
  import opened TaskQuery
  import opened TaskController
  import opened TaskContext

  /** The `filters` state. */
  datatype Filters = Filters(search: string, status: string, priority: string, category: string, page: int)

  /** The filter keys the page's inputs change. */
  datatype FilterKey = SearchKey | StatusKey | PriorityKey | CategoryKey

  /** The initial and the cleared filters. */
  const Cleared: Filters := Filters("", "", "", "", 1)

  /** Every list request asks for 10 tasks a page. */
  const PageSize: int := 10

  // ---------------------------------------------------------------------
  // Query parameters

  /** The keys of `{ ...filters, limit: 10 }`, in insertion order. */
  datatype ParamKey = SearchParam | StatusParam | PriorityParam | CategoryParam | PageParam | LimitParam

  datatype ParamValue = TextParam(s: string) | NumberParam(n: int)

  const ParamKeys: seq<ParamKey> := [SearchParam, StatusParam, PriorityParam, CategoryParam, PageParam, LimitParam]

  /** `{ ...filters, limit: 10 }`. */
  function Spread(f: Filters): (m: map<ParamKey, ParamValue>)
    ensures forall k :: k in m <==> k in ParamKeys
  {
    map[SearchParam := TextParam(f.search), StatusParam := TextParam(f.status), PriorityParam := TextParam(f.priority),
        CategoryParam := TextParam(f.category), PageParam := NumberParam(f.page), LimitParam := NumberParam(PageSize)]
  }

  /** The entries of `m` whose value is not the empty string. */
  function NonEmpty(m: map<ParamKey, ParamValue>): (r: map<ParamKey, ParamValue>)
    ensures forall k :: k in r <==> k in m && m[k] != TextParam("")
    ensures forall k :: k in r ==> r[k] == m[k]
  {
    map k | k in m && m[k] != TextParam("") :: m[k]
  }

  /** The parameters of the list request: the spread filters and limit,
      with every key whose value is "" deleted one key at a time. */
  method BuildParams(f: Filters) returns (params: map<ParamKey, ParamValue>)
    ensures params == NonEmpty(Spread(f))
  {
    var spread := Spread(f);
    params := spread;
    var keys := ParamKeys;
    var i := 0;
    while i < |keys|
      invariant 0 <= i <= |keys|
      invariant forall k :: k in params <==> k in spread && (k in keys[..i] ==> spread[k] != TextParam(""))
      invariant forall k :: k in params ==> params[k] == spread[k]
    {
      var key := keys[i];
      if params[key] == TextParam("") {
        params := params - {key};
      }
      i := i + 1;
    }
    assert keys[..i] == keys;
  }

  /** The string parameter `k` as the server's `req.query` has it. */
  function QueryString(params: map<ParamKey, ParamValue>, k: ParamKey): Option<string> {
    if k in params && params[k].TextParam? then Some(params[k].s) else None
  }

  /** The number parameter `k` as the server reads it. */
  function QueryNumber(params: map<ParamKey, ParamValue>, k: ParamKey): Option<int> {
    if k in params && params[k].NumberParam? then Some(params[k].n) else None
  }

  /** The list query the server receives for the parameters. */
  function QueryOf(params: map<ParamKey, ParamValue>): ListQuery {
    ListQuery(QueryString(params, StatusParam), QueryString(params, PriorityParam),
              QueryString(params, CategoryParam), QueryString(params, SearchParam),
              QueryNumber(params, PageParam), QueryNumber(params, LimitParam), None)
  }

  /** The request keeps page and limit, and has a filter key exactly when
      that filter is not empty. */
  lemma ParamsKeepNonEmptyFilters(f: Filters)
    ensures var p := NonEmpty(Spread(f));
            && p[PageParam] == NumberParam(f.page) && p[LimitParam] == NumberParam(10)
            && (SearchParam in p <==> f.search != "")
            && (StatusParam in p <==> f.status != "")
            && (PriorityParam in p <==> f.priority != "")
            && (CategoryParam in p <==> f.category != "")
  {
    assert PageParam in Spread(f) && LimitParam in Spread(f);
  }

  /** Deleting the empty keys changes nothing the server selects by: it
      builds the same criteria as it would from all four filters sent as
      they are. */
  lemma SentQueryMatchesFilters(caller: UserId, f: Filters)
    ensures var q := QueryOf(NonEmpty(Spread(f)));
            && ListCriteria(caller, q) ==
                 ListCriteria(caller, ListQuery(Some(f.status), Some(f.priority), Some(f.category), Some(f.search), None, None, None))
            && q.page == Some(f.page) && q.limit == Some(PageSize) && q.sort == None
  {
    ParamsKeepNonEmptyFilters(f);
  }

  // ---------------------------------------------------------------------
  // The filter state

  /** Filters are active when any of the four is non-empty. */
  predicate HasActiveFilters(f: Filters) {
    f.search != "" || f.status != "" || f.priority != "" || f.category != ""
  }

  /** The badge: how many of status, priority and category are set. */
  function BadgeCount(f: Filters): (n: nat)
    ensures n <= 3
  {
    (if f.status != "" then 1 else 0) + (if f.priority != "" then 1 else 0) + (if f.category != "" then 1 else 0)
  }

  /** The badge counts a subset of what makes filters active: a set badge
      means active filters, and a search alone shows active filters with a
      badge of 0. */
  lemma BadgeAndActiveFilters(f: Filters)
    ensures BadgeCount(f) > 0 ==> HasActiveFilters(f)
    ensures HasActiveFilters(f) <==> f.search != "" || BadgeCount(f) > 0
    ensures !HasActiveFilters(Cleared) && BadgeCount(Cleared) == 0
  {
  }

  class TasksPage {
    var filters: Filters

    constructor ()
      ensures filters == Cleared
    {
      filters := Cleared;
    }

    /** `handleFilterChange(key, value)`: the key takes the value and the
        page goes back to 1; the other filters stay. */
    method HandleFilterChange(key: FilterKey, value: string)
      modifies this
      ensures filters == Changed(old(filters), key, value)
    {
      match key
      case SearchKey => filters := filters.(search := value, page := 1);
      case StatusKey => filters := filters.(status := value, page := 1);
      case PriorityKey => filters := filters.(priority := value, page := 1);
      case CategoryKey => filters := filters.(category := value, page := 1);
    }

    /** `handlePageChange(newPage)`: only the page changes. */
    method HandlePageChange(newPage: int)
      modifies this
      ensures filters == old(filters).(page := newPage)
    {
      filters := filters.(page := newPage);
    }

    /** `clearFilters`: all four filters empty and page 1. */
    method ClearFilters()
      modifies this
      ensures filters == Cleared
    {
      filters := Filters("", "", "", "", 1);
    }
  }

  /** The filters after `key` is set to `value`. */
  function Changed(f: Filters, key: FilterKey, value: string): (r: Filters)
    ensures r.page == 1
    ensures Get(r, key) == value
    ensures forall other :: other != key ==> Get(r, other) == Get(f, other)
  {
    match key
    case SearchKey => f.(search := value, page := 1)
    case StatusKey => f.(status := value, page := 1)
    case PriorityKey => f.(priority := value, page := 1)
    case CategoryKey => f.(category := value, page := 1)
  }

  function Get(f: Filters, key: FilterKey): string {
    match key
    case SearchKey => f.search
    case StatusKey => f.status
    case PriorityKey => f.priority
    case CategoryKey => f.category
  }

  /** Setting the same filter twice is setting it to the second value. */
  lemma ChangeOverrides(f: Filters, key: FilterKey, a: string, b: string)
    ensures Changed(Changed(f, key, a), key, b) == Changed(f, key, b)
  {
  }

  // ---------------------------------------------------------------------
  // The pagination bar

  /** The bar shows when there is more than one page (`null > 1` is false). */
  predicate ShowsPager(p: Pagination) {
    p.pages.Some? && p.pages.value > 1
  }

  /** "Showing <start> to <end> of <total> results". */
  function RangeStart(p: Pagination): int {
    (p.page - 1) * PageSize + 1
  }

  function RangeEnd(p: Pagination): int {
    Min(p.page * PageSize, p.total)
  }

  predicate PrevDisabled(p: Pagination) {
    p.page == 1
  }

  predicate NextDisabled(p: Pagination) {
    p.pages == Some(p.page)
  }

  /** For a non-empty page the server answered to the page's parameters,
      the displayed range counts exactly the tasks on the page. */
  lemma RangeCountsPage(docs: seq<Task>, caller: UserId, f: Filters)
    requires f.page >= 1
    ensures var r := ListSpec(docs, caller, QueryOf(NonEmpty(Spread(f))));
            var p := Pagination(r.data.page, r.data.pages, r.data.total);
            r.Success? && r.data.count > 0 ==> RangeEnd(p) - RangeStart(p) + 1 == r.data.count
  {
    SentQueryMatchesFilters(caller, f);
    var q := QueryOf(NonEmpty(Spread(f)));
    assert ListSkip(q) == (f.page - 1) * PageSize;
    assert f.page * PageSize == (f.page - 1) * PageSize + PageSize;
  }

  /** On the last page, which the server numbers `ceil(total / 10)`, Next
      is disabled and the range ends at the total. */
  lemma LastPageEndsAtTotal(docs: seq<Task>, caller: UserId, f: Filters)
    requires f.page >= 1
    ensures var r := ListSpec(docs, caller, QueryOf(NonEmpty(Spread(f))));
            var p := Pagination(r.data.page, r.data.pages, r.data.total);
            r.Success? && NextDisabled(p) ==> RangeEnd(p) == p.total
  {
    SentQueryMatchesFilters(caller, f);
    var q := QueryOf(NonEmpty(Spread(f)));
    var r := ListSpec(docs, caller, q);
    if r.Success? && r.data.pages == Some(r.data.page) {
      assert r.data.page * PageSize >= r.data.total;
    }
  }
}
