// lib/services.ts: the data services behind the dashboard. The mock switch
// is always on, so every service answers from the fixtures.
module Services {
  import opened Outcomes
  import opened Seqs
  import opened Paging
  import opened DashboardData
  import ActivitiesRoute

  /** `process.env.NEXT_PUBLIC_USE_MOCK === "true" || true`. */
  function UseMockData(env: Option<string>): bool {
    env == Some("true") || true
  }

  /** The `|| true` makes the switch constant: the fetch branches below it
      are never taken. */
  lemma MockModeAlwaysOn(env: Option<string>)
    ensures UseMockData(env)
  {
  }

  datatype Metric = Metric(
    title: string,   // the `label` field (a reserved word here)
    value: string,
    change: string,
    icon: string,
    iconBg: string,
    iconColor: string)

  /** The keys `MOCK_METRICS` is written with. */
  predicate HasMetricKeys(metrics: map<string, seq<Metric>>) {
    "last-quarter" in metrics && "this-year" in metrics && "default" in metrics
  }

  /** The mock branch of `getMetrics`: two named periods, then a lookup that
      falls back to the default entry. */
  function MockMetrics(metrics: map<string, seq<Metric>>, period: string): seq<Metric>
    requires HasMetricKeys(metrics)
  {
    if period == "last-quarter" then metrics["last-quarter"]
    else if period == "this-year" then metrics["this-year"]
    else if period in metrics then metrics[period]
    else metrics["default"]
  }

  /** The backend branch of `getMetrics`: the parsed body of an ok response,
      and the default metrics on any failure. */
  function BackendMetrics(metrics: map<string, seq<Metric>>, fetched: Result<seq<Metric>, FetchError>): seq<Metric>
    requires "default" in metrics
  {
    match fetched
    case Ok(body) => body
    case Err(_) => metrics["default"]
  }

  /** `getMetrics(period)`; `useMock` is the module's `USE_MOCK_DATA` and
      `fetched` is what the backend call would produce. */
  function GetMetrics(
    useMock: bool,
    metrics: map<string, seq<Metric>>,
    period: string,
    fetched: Result<seq<Metric>, FetchError>): seq<Metric>
    requires HasMetricKeys(metrics)
  {
    if useMock then MockMetrics(metrics, period) else BackendMetrics(metrics, fetched)
  }

  /** `getMetrics(p)` is `MOCK_METRICS[p]` when that key exists and the
      default entry otherwise, whatever the environment and the backend. */
  lemma GetMetricsLookup(
    env: Option<string>,
    metrics: map<string, seq<Metric>>,
    period: string,
    fetched: Result<seq<Metric>, FetchError>)
    requires HasMetricKeys(metrics)
    ensures GetMetrics(UseMockData(env), metrics, period, fetched) ==
              if period in metrics then metrics[period] else metrics["default"]
  {
    MockModeAlwaysOn(env);
  }

  /** The backend branch never fails: a failed fetch yields the default
      metrics. */
  lemma BackendFallsBack(metrics: map<string, seq<Metric>>, fetched: Result<seq<Metric>, FetchError>)
    requires "default" in metrics && fetched.Err?
    ensures BackendMetrics(metrics, fetched) == metrics["default"]
  {
  }

  /** `getRecentActivities(page = 1, limit = 8)` in mock mode. */
  function GetRecentActivities(activities: seq<Activity>, page: int := 1, limit: int := 8): ActivityFeed
    requires page >= 1 && limit >= 1
  {
    ActivityFeed(
      Page(activities, page, limit),
      FeedInfo(page, limit, |activities|, CeilDiv(|activities|, limit)))
  }

  /** The service answers exactly what `GET /api/activities` answers for the
      same page and limit, so it inherits that route's properties. */
  lemma RecentActivitiesMatchesRoute(activities: seq<Activity>, page: int, limit: int)
    requires page >= 1 && limit >= 1
    ensures GetRecentActivities(activities, page, limit) ==
              ActivitiesRoute.Get(activities, ActivitiesRoute.ActivitiesQuery(Some(page), Some(limit)))
  {
  }

  /** The slice `[(page - 1) * limit, page * limit)`, at most `limit` items;
      `total` is the fixture size and `totalPages` the least number of pages
      holding it; page and limit are echoed; the defaults are page 1 and
      limit 8. */
  lemma RecentActivitiesSpec(activities: seq<Activity>, page: int, limit: int)
    requires page >= 1 && limit >= 1
    ensures var r := GetRecentActivities(activities, page, limit);
      && r.activities == Page(activities, page, limit)
      && |r.activities| <= limit
      && (PageStart(page, limit) < |activities| ==>
            |r.activities| == Min(limit, |activities| - PageStart(page, limit)))
      && 0 <= PageStart(page, limit)
      && (r.activities != [] ==> PageStart(page, limit) + |r.activities| <= |activities|)
      && (forall k :: 0 <= k < |r.activities| ==> r.activities[k] == activities[PageStart(page, limit) + k])
      && r.pagination.total == |activities|
      && LeastPageCount(r.pagination.totalPages, |activities|, limit)
      && r.pagination.page == page && r.pagination.limit == limit
    ensures GetRecentActivities(activities) == GetRecentActivities(activities, 1, 8)
  {
    var q := ActivitiesRoute.ActivitiesQuery(Some(page), Some(limit));
    RecentActivitiesMatchesRoute(activities, page, limit);
    ActivitiesRoute.GetPage(activities, q);
    ActivitiesRoute.GetTotals(activities, q);
  }

  /** `getTopTours(limit = 10)` in mock mode: `MOCK_TOP_TOURS.slice(0, limit)`. */
  function GetTopTours(tours: seq<TopTour>, limit: int := 10): seq<TopTour>
  {
    JsSlice(tours, 0, limit)
  }

  /** A non-negative limit keeps the first `min(limit, |tours|)` tours in
      order; a negative one drops that many from the end, as `slice` does. */
  lemma TopToursPrefix(tours: seq<TopTour>, limit: int)
    ensures limit >= 0 ==> GetTopTours(tours, limit) == tours[..Min(limit, |tours|)]
    ensures limit < 0 ==> GetTopTours(tours, limit) == tours[..Max(0, |tours| + limit)]
    ensures |GetTopTours(tours)| == Min(10, |tours|)
  {
    if limit >= 0 { SlicePrefix(tours, limit); }
    SlicePrefix(tours, 10);
  }
}
