// The record shapes of the dashboard fixtures: activities, top tours and the
// activity feed with its own pagination object. The fixture lists
// themselves are parameters of the operations that read them.
module DashboardData {
  import opened Outcomes

  datatype Activity = Activity(
    id: string,
    kind: string,
    userName: string,
    tourName: Option<string>,
    action: string,
    timestamp: string,
    amount: Option<int>)

  /** A top tour; its floating-point rating is left out. */
  datatype TopTour = TopTour(id: string, name: string, bookings: int, revenue: string)

  /** The activity feed's `pagination` object: page, limit, total, totalPages. */
  datatype FeedInfo = FeedInfo(page: int, limit: int, total: int, totalPages: int)

  datatype ActivityFeed = ActivityFeed(activities: seq<Activity>, pagination: FeedInfo)
}
