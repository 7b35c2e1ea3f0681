// GET /api/activities: one page of the activity fixture, 8 per page by
// default, with the page and limit echoed back.
module ActivitiesRoute {
  import opened Outcomes
  import opened Seqs
  import opened Paging
  import opened DashboardData

  datatype ActivitiesQuery = ActivitiesQuery(page: Option<int>, limit: Option<int>)

  function PageParam(q: ActivitiesQuery): int { q.page.GetOr(1) }

  function LimitParam(q: ActivitiesQuery): int { q.limit.GetOr(8) }

  /** `GET /api/activities`. */
  function Get(activities: seq<Activity>, q: ActivitiesQuery): ActivityFeed
    requires PageParam(q) >= 1 && LimitParam(q) >= 1
  {
    var page, limit := PageParam(q), LimitParam(q);
    ActivityFeed(
      Page(activities, page, limit),
      FeedInfo(page, limit, |activities|, CeilDiv(|activities|, limit)))
  }

  /** With no query parameters the route serves page 1 of 8. */
  lemma DefaultParams()
    ensures PageParam(ActivitiesQuery(None, None)) == 1
    ensures LimitParam(ActivitiesQuery(None, None)) == 8
  {
  }

  /** `total` is the fixture size whatever the page, and `totalPages` the
      least number of pages of `limit` holding it. */
  lemma GetTotals(activities: seq<Activity>, q: ActivitiesQuery)
    requires PageParam(q) >= 1 && LimitParam(q) >= 1
    ensures var r := Get(activities, q);
      && r.pagination.total == |activities|
      && LeastPageCount(r.pagination.totalPages, |activities|, LimitParam(q))
  {
    PageCount(Get(activities, q).pagination.totalPages, |activities|, LimitParam(q));
  }

  /** The activities are the slice `[(page - 1) * limit, page * limit)`, at
      most `limit` of them, empty exactly past the last page; page and limit
      are echoed. */
  lemma GetPage(activities: seq<Activity>, q: ActivitiesQuery)
    requires PageParam(q) >= 1 && LimitParam(q) >= 1
    ensures var r, page, limit := Get(activities, q), PageParam(q), LimitParam(q);
      && r.activities == Page(activities, page, limit)
      && |r.activities| <= limit
      && (PageStart(page, limit) < |activities| ==>
            |r.activities| == Min(limit, |activities| - PageStart(page, limit)))
      && 0 <= PageStart(page, limit)
      && (r.activities != [] ==> PageStart(page, limit) + |r.activities| <= |activities|)
      && (forall k :: 0 <= k < |r.activities| ==> r.activities[k] == activities[PageStart(page, limit) + k])
      && (r.activities == [] <==> page > r.pagination.totalPages)
      && r.pagination.page == page && r.pagination.limit == limit
  {
    PageFacts(activities, PageParam(q), LimitParam(q));
    PageWindow(activities, PageParam(q), LimitParam(q));
  }
}
