// GET /api/reports/stats: the statistics of a reporting period, looked up
// by name with an all-zero fallback, plus the fixed monthly series; any
// error thrown while handling the request becomes a 500 response.
module ReportStatsRoute {
  import opened Outcomes

  datatype Trends = Trends(bookings: string, revenue: string, users: string, tours: string)

  datatype ReportStats = ReportStats(
    totalBookings: int,
    revenue: int,
    newUsers: int,
    newTours: int,
    trends: Trends)

  datatype MonthlyPerformance = MonthlyPerformance(name: string, bookings: int, revenue: int)

  /** The JSON body: `{success: true, data: {stats, monthlyPerformance}}`
      or `{success: false, error}`. */
  datatype StatsResponse =
    | StatsOk(stats: ReportStats, monthlyPerformance: seq<MonthlyPerformance>)
    | StatsFailed(error: string)
  {
    function Success(): bool { StatsOk? }

    /** The HTTP status the route answers with. */
    function HttpStatus(): int { if StatsOk? then 200 else 500 }
  }

  /** `FALLBACK_REPORT_STATS`. */
  const FallbackStats := ReportStats(0, 0, 0, 0, Trends("+0%", "+0%", "+0%", "+0%"))

  /** `searchParams.get("period") || "this-month"`. */
  function PeriodParam(period: Option<string>): string {
    if period.Some? && period.value != "" then period.value else "this-month"
  }

  /** `GET /api/reports/stats`. `urlValid` says whether `new URL(request.url)`
      succeeds; it is the one step inside the `try` that can throw. */
  function Get(
    reportStats: map<string, ReportStats>,
    monthly: seq<MonthlyPerformance>,
    period: Option<string>,
    urlValid: bool): StatsResponse
  {
    if !urlValid then StatsFailed("Failed to fetch report statistics")
    else
      var p := PeriodParam(period);
      StatsOk(if p in reportStats then reportStats[p] else FallbackStats, monthly)
  }

  /** A missing or empty period reads as "this-month". */
  lemma DefaultPeriod(reportStats: map<string, ReportStats>, monthly: seq<MonthlyPerformance>)
    requires "this-month" in reportStats
    ensures Get(reportStats, monthly, None, true) == StatsOk(reportStats["this-month"], monthly)
    ensures Get(reportStats, monthly, Some(""), true) == Get(reportStats, monthly, None, true)
  {
  }

  /** On success the stats are the period's entry, or all zeros for a period
      with no entry, and the monthly series is the same whatever the period;
      a thrown error answers `success: false` with status 500. */
  lemma GetSpec(
    reportStats: map<string, ReportStats>,
    monthly: seq<MonthlyPerformance>,
    period: string,
    urlValid: bool)
    requires period != ""
    ensures var r := Get(reportStats, monthly, Some(period), urlValid);
      && (urlValid <==> r.Success())
      && (urlValid ==> r.HttpStatus() == 200 && r.monthlyPerformance == monthly)
      && (urlValid && period in reportStats ==> r.stats == reportStats[period])
      && (urlValid && period !in reportStats ==> r.stats == FallbackStats)
      && (urlValid && period !in reportStats ==>
            r.stats.totalBookings == 0 && r.stats.revenue == 0
            && r.stats.newUsers == 0 && r.stats.newTours == 0)
      && (!urlValid ==> r.HttpStatus() == 500)
  {
  }
}
