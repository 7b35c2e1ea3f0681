// components/recent-activities.tsx: the dashboard's activity feed. It keeps
// the activities and pagination of the last successful fetch and a loading
// flag; a page change fetches that page, eight at a time.
module RecentActivities {
  import opened Outcomes
  import opened Seqs
  import opened Paging
  import opened DashboardData
  import Services

  /** The state before the first answer: page 1 of 8, nothing loaded. */
  const InitialPagination := FeedInfo(1, 8, 0, 1)

  /** What a settled fetch leaves: the answer on success, the old feed on
      failure. */
  function Settle(feed: ActivityFeed, outcome: Result<ActivityFeed, FetchError>): (r: ActivityFeed)
    ensures outcome.Ok? ==> r == outcome.value
    ensures outcome.Err? ==> r == feed
  {
    if outcome.Ok? then outcome.value else feed
  }

  class RecentActivitySection {
    var activities: seq<Activity>
    var pagination: FeedInfo
    var loading: bool

    /** No activities, `{page: 1, limit: 8, total: 0, totalPages: 1}`, loading. */
    constructor()
      ensures activities == [] && pagination == InitialPagination && loading
    {
      activities := [];
      pagination := InitialPagination;
      loading := true;
    }

    function Feed(): ActivityFeed
      reads this
    {
      ActivityFeed(activities, pagination)
    }

    /** `setLoading(true)` at the start of `fetchActivities`. */
    method StartFetch()
      modifies this
      ensures loading
      ensures activities == old(activities) && pagination == old(pagination)
    {
      loading := true;
    }

    /** The `try`/`catch`/`finally` after the service answers: on success set
        the activities and then the pagination; on failure keep both; in
        either case clear the flag. */
    method FinishFetch(outcome: Result<ActivityFeed, FetchError>)
      modifies this
      ensures Feed() == Settle(old(Feed()), outcome)
      ensures !loading
    {
      if outcome.Ok? {
        activities := outcome.value.activities;
        pagination := outcome.value.pagination;
      }
      loading := false;
    }

    /** `fetchActivities(page)` against the fixture: the mock service
        answers `getRecentActivities(page, 8)`, which cannot fail. */
    method FetchActivities(fixture: seq<Activity>, page: int)
      requires page >= 1
      modifies this
      ensures Feed() == Services.GetRecentActivities(fixture, page, 8)
      ensures !loading
    {
      StartFetch();
      FinishFetch(Ok(Services.GetRecentActivities(fixture, page, 8)));
    }

    /** The mount effect: `fetchActivities(1)`. */
    method Mount(fixture: seq<Activity>)
      modifies this
      ensures Feed() == Services.GetRecentActivities(fixture, 1, 8)
      ensures !loading
    {
      FetchActivities(fixture, 1);
    }
  }

  /** A failed fetch after a successful one keeps the page shown; a
      successful one replaces it whatever was there before. */
  lemma SettleKeepsLastGood(feed: ActivityFeed, good: ActivityFeed, e: FetchError)
    ensures Settle(Settle(feed, Ok(good)), Err(e)) == good
    ensures Settle(Settle(feed, Err(e)), Ok(good)) == good
  {
  }

  /** After mounting, the feed holds the first eight activities of the
      fixture in order, `total` is the fixture size and `totalPages` the
      least number of pages of eight holding it. */
  lemma MountedFeed(fixture: seq<Activity>)
    ensures var f := Services.GetRecentActivities(fixture, 1, 8);
      && f.activities == fixture[..Min(8, |fixture|)]
      && f.pagination.page == 1 && f.pagination.limit == 8
      && f.pagination.total == |fixture|
      && LeastPageCount(f.pagination.totalPages, |fixture|, 8)
  {
    Services.RecentActivitiesSpec(fixture, 1, 8);
    var f := Services.GetRecentActivities(fixture, 1, 8);
    PageWindow(fixture, 1, 8);
    assert |f.activities| == Min(8, |fixture|);
  }
}
