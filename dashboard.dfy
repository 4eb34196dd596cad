/** The dashboard of client/src/pages/Dashboard.jsx: the greeting by hour,
    the recent-tasks list kept in step with the task cache, the stat cards'
    fallbacks and the completion rate. The hour is a parameter. */
module Dashboard {
  import opened Js
  import opened TaskSchema
  import opened TaskQuery
  import opened TaskController
  import opened TaskContext

  // ---------------------------------------------------------------------
  // The greeting

  const Morning: string := "Good morning"
  const Afternoon: string := "Good afternoon"
  const Evening: string := "Good evening"

  /** The greeting for an hour of the day. */
  function Greeting(hour: int): (r: string)
    ensures r == Morning <==> hour < 12
    ensures r == Afternoon <==> 12 <= hour < 17
    ensures r == Evening <==> 17 <= hour
  {
    if hour < 12 then Morning
    else if hour < 17 then Afternoon
    else Evening
  }

  /** The position of a greeting in the day. */
  function GreetingRank(g: string): nat {
    if g == Morning then 0 else if g == Afternoon then 1 else 2
  }

  /** As the day goes on the greeting never goes back. */
  lemma GreetingMonotone(h1: int, h2: int)
    requires h1 <= h2
    ensures GreetingRank(Greeting(h1)) <= GreetingRank(Greeting(h2))
  {
  }

  // ---------------------------------------------------------------------
  // Recent tasks

  /** `tasks.slice(0, 5)`. */
  function RecentTasks(tasks: seq<Task>): (r: seq<Task>)
    ensures |r| == Min(5, |tasks|)
    ensures r <= tasks
  {
    tasks[..Min(5, |tasks|)]
  }

  class Dashboard {
    var recentTasks: seq<Task>

    constructor ()
      ensures recentTasks == []
    {
      recentTasks := [];
    }

    /** The effect run whenever the cached tasks change. */
    method SyncRecent(tasks: seq<Task>)
      modifies this
      ensures recentTasks == RecentTasks(tasks)
    {
      recentTasks := tasks[..Min(5, |tasks|)];
    }
  }

  /** The recent tasks of a list of at most five are the whole list, and
      taking them twice takes nothing more. */
  lemma RecentOfShort(tasks: seq<Task>)
    ensures |tasks| <= 5 ==> RecentTasks(tasks) == tasks
    ensures RecentTasks(RecentTasks(tasks)) == RecentTasks(tasks)
  {
  }

  /** The query the dashboard fetches with: `{ limit: 5, sort: "-createdAt" }`. */
  const RecentQuery: ListQuery := ListQuery(None, None, None, None, None, Some(5), Some("-createdAt"))

  /** The server answers the dashboard's query with at most five of the
      caller's tasks, so the recent list is exactly what it sent. */
  lemma RecentIsFetchedPage(docs: seq<Task>, caller: UserId)
    ensures var r := ListSpec(docs, caller, RecentQuery);
            && r.Success?
            && |r.data.data| <= 5
            && RecentTasks(r.data.data) == r.data.data
  {
    assert ListSkip(RecentQuery) == 0;
  }

  // ---------------------------------------------------------------------
  // Stat cards

  /** `stats.x || 0`: a falsy stat shows as 0, anything else as it is. */
  function CardValue(v: Value): (r: Value)
    ensures !Falsy(v) ==> r == v
    ensures Falsy(v) ==> r == Number(0)
  {
    if Falsy(v) then Number(0) else v
  }

  /** A stat the task cache computed is a number and shows unchanged. */
  lemma CardsShowStats(stats: ClientStats)
    ensures CardValue(Number(stats.total)) == Number(stats.total)
    ensures CardValue(Number(stats.completed)) == Number(stats.completed)
    ensures CardValue(Number(stats.pending)) == Number(stats.pending)
  {
  }

  // ---------------------------------------------------------------------
  // Completion rate

  /** `total > 0 ? Math.round(completed / total * 100) : 0`, on exact
      rationals: `Math.round` is the floor of the value plus one half. */
  function CompletionRate(completed: int, total: int): (r: int)
    ensures total > 0 ==> (2 * r - 1) * total <= 200 * completed < (2 * r + 1) * total
    ensures total <= 0 ==> r == 0
  {
    if total > 0 then (200 * completed + total) / (2 * total) else 0
  }

  /** Multiplying by a positive number keeps the order. */
  lemma MulMono(a: int, b: int, t: int)
    requires t > 0
    ensures a <= b ==> a * t <= b * t
  {
    if a <= b {
      assert b * t - a * t == (b - a) * t;
    }
  }

  /** For counts the rate is a percentage: between 0 and 100, 0 when
      nothing is completed, 100 when everything is. */
  lemma CompletionRateBounds(completed: int, total: int)
    requires 0 <= completed <= total
    ensures 0 <= CompletionRate(completed, total) <= 100
    ensures total > 0 && completed == total ==> CompletionRate(completed, total) == 100
    ensures completed == 0 ==> CompletionRate(completed, total) == 0
  {
    if total > 0 {
      var r := CompletionRate(completed, total);
      // Each bound is the rounding bracket against a constant multiple of total.
      MulMono(2 * r + 1, -1, total);
      MulMono(201, 2 * r - 1, total);
      MulMono(2 * r + 1, 199, total);
      MulMono(1, 2 * r - 1, total);
    }
  }

  /** The rate of the stats the cache derives from its tasks is always a
      percentage. */
  lemma StatsRateIsPercentage(ts: seq<Task>)
    ensures 0 <= CompletionRate(StatsOf(ts).completed, StatsOf(ts).total) <= 100
  {
    StatsOfCounts(ts);
    NotCompletedCount(ts);
    CompletionRateBounds(StatsOf(ts).completed, StatsOf(ts).total);
  }
}
