# LUXE-ADMIN dashboard core, modelled in Dafny

LUXE-ADMIN is the admin dashboard of a tour marketplace, built with Next.js.
This project models its core. That is:

- the mock API routes for users, bookings, transactions, activities and
  report statistics;
- the client service layer (`lib/services.ts`);
- the components that page, filter and render those lists;
- the resizable sidebar and the page frame.

The routes become pure functions over the mock fixture and a parsed query.
The `Paging` module holds the pagination arithmetic the routes and views
share: `Math.ceil`, the `slice` window, the "Showing x to y of n" line and
the clamped Previous/Next setters. `Seqs` and `Text` model the JavaScript
built-ins the source relies on:

- `filter`, `slice` and `reduce`;
- `toLowerCase`, `includes`, `indexOf` and `replace`;
- `split`, `join` and `toString`.

`QueryParams` models `URLSearchParams`, with `set` on a class that changes in
place.

Components that keep React state become classes. Their fields are the
`useState` variables and refs, their methods are the handlers, and each
method states the whole new state. The derived values a component computes
on each render (rows, pagination fallbacks, pager figures, cells, badges)
are functions beside the class.

What is proved:

- **Routes.** Each route filters exactly by its active conditions and keeps
  the order. A page is the whole `slice` window of at most `limit` items from
  `(page - 1) * limit`, cut at the end of the list. For users, bookings and
  activities a page is empty exactly when it lies past the last one, and
  `totalPages` is the least page count that holds the filtered list. The
  transactions route floors `totalPages` at 1 (`Math.max(1, ...)`). So an
  empty list has one page, and that page is empty. There a page is empty
  exactly when it lies past the last one or the list is empty. Reading every
  page in turn gives back the whole list.
- **Views.** From a page inside `[1, totalPages]`, Previous and Next stay
  inside it. A filter change in the bookings table keeps the page, which can
  then lie past the last one. The user
  transactions, user reviews, bookings and recent-activity views show the
  rows and paging figures they received. Two exceptions are proved:
  - The users table reads a nested `pagination` object that the route does
    not send. It shows the default figures and never a pager (see
    "## Findings").
  - The global transactions table filters the loaded page by tab. Its pager
    counts the filtered rows, not the server's `totalItems`.
- **Verification table.** Approve and reject rewrite the status of exactly
  the rows with that id.
- **CSV export.** The export reads back field by field when no field holds
  a separator.
- **Sidebar.** Its width stays in `[80, 400]`.
- **Timestamp shortener.** A text whose only `m` or `h` lies in one unit
  word comes out with that word shortened and the rest unchanged.

Modules: `Outcomes` (Option/Result), `Seqs`, `Text`, `QueryParams`,
`Paging`, `DashboardData`, `UsersRoute`, `BookingsRoute`,
`TransactionsRoute`, `ActivitiesRoute`, `ReportStatsRoute`, `Services`,
`PaginationComponent`, `UserTransactionsTab`, `UserReviewsTab`, `ToursPage`,
`UsersTable`, `BookingsTable`, `GlobalTransactions`, `VerificationTable`,
`RecentActivities`, `UserDetailsTabs`, `Sidebar`, `AppLayout`,
`ActivityItem`.

## Model

| member | source | states |
|---|---|---|
| Seqs.JsSlice | app/api/users/route.ts:216 | definition of `slice(start, end)`: both bounds resolved as relative indexes, then the window between them; see `SliceWindow` and `SlicePrefix` |
| Seqs.Filter | app/api/users/route.ts:196-211 | `filter` keeps only elements that pass, keeps every element that passes, and never grows the list |
| Seqs.FilterMembers | app/api/bookings/route.ts:14-16 | an element is in a filtered list exactly when it is in the list and passes the predicate |
| Seqs.FilterIsSubsequence | app/api/bookings/route.ts:19-27 | `filter` keeps the relative order of the elements it keeps |
| Seqs.FilterFilter | app/api/users/route.ts:194-211 | two filters in a row are one filter by the conjunction |
| Seqs.FilterAppend | components/users/user-reviews-tab.tsx:95-101 | filtering distributes over concatenation |
| Seqs.DisjointFilters | app/api/bookings/route.ts:34-37 | two filters that never both accept keep at most the list's length between them |
| Seqs.FilterComplement | components/transactions/global-transaction.tsx:184-185 | a filter and its complement split the list between them |
| Seqs.SliceIndex | app/api/users/route.ts:216 | a `slice` bound always lands in `[0, length]`; the definition also counts a negative index from the end, which `Services.TopToursPrefix` states for `slice(0, limit)` |
| Seqs.SliceWindow | app/api/users/route.ts:214-216 | with non-negative bounds `slice(start, end)` is the window cut to the list, at most `end - start` long, empty exactly when `start` is past the end or `start == end` |
| Seqs.SlicePrefix | lib/services.ts:69 | `slice(0, n)` is the prefix of length `min(n, length)` |
| Text.IndexOf | components/activity-item.tsx:46-49 | definition of the search `replace` runs for a string pattern; see `IndexOfSpec` |
| Text.ReplaceFirst | components/activity-item.tsx:46-49 | definition of `replace` with a string pattern; see `ReplaceFirstFound`, `ReplaceFirstAbsent` and `ReplaceFirstAfter` |
| Text.ToLower | app/api/bookings/route.ts:8 | `toLowerCase` keeps the length and lowers each character |
| Text.ToUpper | components/users/users-table.tsx:196 | `toUpperCase` keeps the length and raises each character |
| Text.IndexOfSpec | components/activity-item.tsx:45-49 | `indexOf` finds an occurrence, and it is the first; it finds none exactly when the text does not contain the pattern |
| Text.ReplaceFirstFound | components/activity-item.tsx:46 | when the pattern occurs at `i` and nowhere earlier, a string-pattern `replace` gives the text before `i`, then the replacement, then the text after that occurrence |
| Text.ReplaceFirstAbsent | components/activity-item.tsx:47 | `replace` with an absent pattern leaves the text as it was |
| Text.ReplaceFirstAfter | components/activity-item.tsx:45-49 | `replace` leaves a prefix alone when the pattern cannot start in it |
| Text.Split | components/bookings/bookings-table.tsx:110-112 | `split` on one character never returns an empty list and no piece holds the separator |
| Text.SplitJoin | components/bookings/bookings-table.tsx:110-112 | splitting undoes joining when no field holds the separator |
| Text.NatToString | components/users/users-table.tsx:68 | `toString` of a non-negative number is a non-empty string of decimal digits |
| Text.IntToString | components/bookings/bookings-table.tsx:105-106 | `toString` of an integer holds only digits and the minus sign |
| Text.NatToStringRoundTrip | components/users/users-table.tsx:68 | reading back the digits of `n.toString()` gives `n` |
| QueryParams.Lookup | app/api/users/route.ts:26-31 | definition of `searchParams.get`: the value of the first pair with that name; see `LookupAt` and `LookupAbsent` |
| QueryParams.SetParam | components/users/users-table.tsx:68-72 | definition of `params.set`; see `SetParamSpec` and `SetParamAppends` |
| QueryParams.ParseIntParam | app/api/users/route.ts:30-31 | definition of the page and limit parse, for digit strings; see `ParsePageParam` and "## Left out" |
| QueryParams.SetParamSpec | components/users/users-table.tsx:67-72 | after `set(name, value)`, `get(name)` is `value` and every other name reads as before |
| QueryParams.SetParamAppends | components/users/users-table.tsx:67-72 | setting a name not yet present appends one pair |
| QueryParams.LookupWithout | components/users/users-table.tsx:67-72 | removing a name's pairs leaves it absent and every other name unchanged |
| QueryParams.LookupAppend | components/users/users-table.tsx:67-72 | `get` on appended pairs finds the earlier list's pair first |
| QueryParams.LookupAt | components/bookings/bookings-table.tsx:193-198 | a pair whose name no earlier pair carries is the one `get` returns |
| QueryParams.LookupAbsent | components/users/users-table.tsx:70-72 | a name no pair carries reads as absent |
| QueryParams.ParsePageParam | app/api/users/route.ts:30 | `parseInt` of `page.toString()` gives back the page |
| QueryParams.SearchParams.constructor | components/users/users-table.tsx:67 | a new `URLSearchParams` holds no pairs |
| QueryParams.SearchParams.Set | components/users/users-table.tsx:68-72 | `set` replaces the stored pairs by their `set` update and changes nothing else |
| Paging.CeilDiv | app/api/users/route.ts:222 | definition of `Math.ceil(n / d)`; see `CeilDivSpec` and `PageCount` |
| Paging.Page | app/api/users/route.ts:214-216 | definition of the page window `slice((page - 1) * limit, (page - 1) * limit + limit)`; see `PageWindow` and `PageEmptyIff` |
| Paging.StartItem | components/pagination-component.tsx:27 | definition of `startItem`; see `RangeLine` and `RangeMatchesPage` |
| Paging.EndItem | components/pagination-component.tsx:28 | definition of `endItem`; see `RangeLine` and `RangeMatchesPage` |
| Paging.PreviousPage | components/users/user-transaction-tab.tsx:274 | definition of `Math.max(1, p - 1)`; see `ClampedStepsStayInRange` |
| Paging.NextPage | components/users/user-transaction-tab.tsx:287 | definition of `Math.min(totalPages, p + 1)`; see `ClampedStepsStayInRange` and `NextPageCanMoveBack` |
| Paging.CeilDivSpec | app/api/bookings/route.ts:49 | `Math.ceil(n / d)` is the least number of pages of `d` items that holds `n`, and 0 exactly when `n` is 0 |
| Paging.PageCount | app/api/activities/route.ts:10 | the `Math.ceil` count is the least page count |
| Paging.SeveralPages | components/users/users-table.tsx:255 | more than one page is needed exactly when the items overflow one page |
| Paging.PageWindow | app/api/users/route.ts:214-216 | a page is the window of at most `limit` items from `(page - 1) * limit`, item `k` being list item `(page - 1) * limit + k`, empty exactly when that start is past the end |
| Paging.PageEmptyIff | app/api/bookings/route.ts:41-43 | a page is empty exactly when its number exceeds `Math.ceil(n / limit)` |
| Paging.PageFacts | app/api/bookings/route.ts:41-52 | the page and page-count facts of a paged response, together |
| Paging.FirstPagesPrefix | app/api/transactions/route.ts:12-16 | pages 1 to `n` concatenated are the first `n * limit` items, in order |
| Paging.AllPagesCoverList | app/api/transactions/route.ts:11-16 | reading pages 1 to `totalPages` returns the whole list, in order |
| Paging.RangeLine | components/pagination-component.tsx:27-28 | the "Showing x to y" range spans at most one page, is non-empty when the page holds items, and reads 0 to 0 for an empty list |
| Paging.RangeMatchesPage | components/pagination-component.tsx:27-28 | on a page that holds items, the range names exactly that page's items, 1-based |
| Paging.ClampedStepsStayInRange | components/users/user-transaction-tab.tsx:274-289 | from a page in `[1, totalPages]`, `Math.max(1, p - 1)` and `Math.min(totalPages, p + 1)` stay in range and step by one unless at an end |
| Paging.NextPageCanMoveBack | components/users/user-reviews-tab.tsx:208-211 | outside that range the Next setter moves backwards: page 5 of 3 goes to 3 |
| UsersRoute.ParseQuery | app/api/users/route.ts:25-31 | definition of the route's query reading; see `DefaultParams` and `UsersTable.RouteReadsRequest` |
| UsersRoute.FilterUsers | app/api/users/route.ts:193-211 | definition of the three chained filters; see `FilterUsersSpec` and `FilterUsersIsOneFilter` |
| UsersRoute.Get | app/api/users/route.ts:213-224 | definition of the response; see `GetMatches`, `GetPaging` and `GetTotals` |
| UsersRoute.DefaultParams | app/api/users/route.ts:27-31 | with no parameters the route searches for nothing, keeps every role and status, and serves page 1 of 10 |
| UsersRoute.FilterUsersIsOneFilter | app/api/users/route.ts:194-211 | the three optional filters are one filter by the conjunction of the active conditions |
| UsersRoute.FilterUsersSpec | app/api/users/route.ts:196-211 | a user survives exactly when it is in the list and matches the case-insensitive name or email search, or the phone search, and the role and status; order is kept |
| UsersRoute.NoFilterKeepsAll | app/api/users/route.ts:194-211 | no search and both filters at "all" keep the whole list |
| UsersRoute.GetMatches | app/api/users/route.ts:213-219 | every returned user is in the list and matches every active filter |
| UsersRoute.GetPaging | app/api/users/route.ts:214-224 | the users are the requested page of the filtered list, at most `limit`, empty exactly when the page is past `totalPages`; page and limit are echoed |
| UsersRoute.GetTotals | app/api/users/route.ts:213-222 | `totalItems` is the filtered count and `totalPages` the least page count holding it |
| UsersRoute.GetTotalItems | app/api/users/route.ts:213 | `totalItems` counts exactly the users matching every active filter |
| UsersRoute.GetPaged | app/api/users/route.ts:218-224 | the corrected response nests the same users and figures under `pagination`: the requested page, the limit, the number of matching users and the least page count that holds them |
| BookingsRoute.FilterBookings | app/api/bookings/route.ts:11-27 | definition of the status and search filters; see `FilterBookingsSpec` and `SearchIgnoresCase` |
| BookingsRoute.Stats | app/api/bookings/route.ts:33-38 | definition of the stats over the whole list; see `StatsIgnoreQuery` and `UpcomingCompletedBounded` |
| BookingsRoute.Get | app/api/bookings/route.ts:4-60 | definition of the response; see `GetPaging` and `GetTotals` |
| BookingsRoute.FilterBookingsIsOneFilter | app/api/bookings/route.ts:11-27 | status then search filtering is one filter by the conjunction of the active conditions |
| BookingsRoute.FilterBookingsSpec | app/api/bookings/route.ts:14-27 | a booking survives exactly when it has the requested status (unless "all") and its lower-cased id, tour, user or guide name contains the lower-cased search (unless empty); order is kept |
| BookingsRoute.SearchIgnoresCase | app/api/bookings/route.ts:8 | searches that differ only in letter case select the same bookings |
| BookingsRoute.StatsIgnoreQuery | app/api/bookings/route.ts:33-38 | the statistics are those of the whole list, whatever the search, status or page |
| BookingsRoute.UpcomingCompletedBounded | app/api/bookings/route.ts:33-37 | upcoming plus completed never exceeds the total |
| BookingsRoute.GetPaging | app/api/bookings/route.ts:41-52 | the bookings are the requested page of the filtered list, at most `limit`, empty exactly when the page is past `totalPages`; page and limit are echoed |
| BookingsRoute.GetTotals | app/api/bookings/route.ts:49-50 | `totalItems` is the filtered count and `totalPages` the least page count holding it |
| TransactionsRoute.Get | app/api/transactions/route.ts:4-27 | definition of the response; see `GetPage`, `GetTotals` and `PagesReassemble` |
| TransactionsRoute.DefaultParams | app/api/transactions/route.ts:6-7 | with no parameters the route serves page 1 of 10 |
| TransactionsRoute.GetTotals | app/api/transactions/route.ts:10-11 | `totalItems` is the whole list; `totalPages` is at least 1 and the least page count otherwise |
| TransactionsRoute.GetPage | app/api/transactions/route.ts:12-26 | the page is the window from `(page - 1) * limit`, at most `limit` long, empty past the last page, with the requested page echoed |
| TransactionsRoute.PagesReassemble | app/api/transactions/route.ts:10-16 | pages 1 to `totalPages` together are every transaction, in order |
| ActivitiesRoute.Get | app/api/activities/route.ts:4-25 | definition of the response; see `GetPage` and `GetTotals` |
| ActivitiesRoute.DefaultParams | app/api/activities/route.ts:6-7 | with no parameters the route serves page 1 of 8 |
| ActivitiesRoute.GetTotals | app/api/activities/route.ts:9-10 | `total` is the fixture size and `totalPages` the least page count holding it |
| ActivitiesRoute.GetPage | app/api/activities/route.ts:11-24 | the activities are the window from `(page - 1) * limit`, at most `limit`, empty exactly past the last page; page and limit are echoed |
| ReportStatsRoute.Get | app/api/reports/stats/route.ts:10-35 | definition of the response; see `GetSpec` and `DefaultPeriod` |
| ReportStatsRoute.DefaultPeriod | app/api/reports/stats/route.ts:11 | a missing or empty period reads as "this-month" |
| ReportStatsRoute.GetSpec | app/api/reports/stats/route.ts:10-35 | success (status 200) exactly when the request URL parses; the period's stats, or for a period with no entry exactly the fallback of zero counts and "+0%" trends, with the monthly series; otherwise status 500 |
| Services.UseMockData | lib/services.ts:11 | definition of `USE_MOCK_DATA`; see `MockModeAlwaysOn` |
| Services.GetMetrics | lib/services.ts:13-39 | definition of `getMetrics`; see `GetMetricsLookup` and `BackendFallsBack` |
| Services.GetRecentActivities | lib/services.ts:41-58 | definition of the mock branch of `getRecentActivities`; see `RecentActivitiesSpec` and `RecentActivitiesMatchesRoute` |
| Services.GetTopTours | lib/services.ts:66-70 | definition of the mock branch of `getTopTours`; see `TopToursPrefix` |
| Services.MockModeAlwaysOn | lib/services.ts:11 | the `|| true` makes mock mode on whatever the environment says |
| Services.GetMetricsLookup | lib/services.ts:13-27 | `getMetrics(p)` is the entry for `p` when there is one and the default entry otherwise |
| Services.BackendFallsBack | lib/services.ts:29-38 | the backend branch answers the default entry when the fetch fails |
| Services.RecentActivitiesMatchesRoute | lib/services.ts:41-57 | the mock `getRecentActivities` answers what `GET /api/activities` answers |
| Services.RecentActivitiesSpec | lib/services.ts:41-57 | the slice from `(page - 1) * limit` of at most `limit` items, the fixture size as total, the least page count, page and limit echoed; the defaults are page 1 of 8 |
| Services.TopToursPrefix | lib/services.ts:66-70 | `getTopTours(limit)` is the first `limit` tours, the negative case counting from the end; by default the first 10 |
| PaginationComponent.Range | components/pagination-component.tsx:27-45 | definition of the "Showing x to y of n" figures; see `RangeDescribesPage` |
| PaginationComponent.HandlePrevious | components/pagination-component.tsx:30-34 | definition of `handlePrevious`; see `HandlersSpec` |
| PaginationComponent.HandleNext | components/pagination-component.tsx:36-40 | definition of `handleNext`; see `HandlersSpec` |
| PaginationComponent.PreviousDisabled | components/pagination-component.tsx:52 | definition of the Previous button's `disabled`; see `HandlersSpec` and `LoadingDisablesBoth` |
| PaginationComponent.NextDisabled | components/pagination-component.tsx:65 | definition of the Next button's `disabled`; see `HandlersSpec` and `LoadingDisablesBoth` |
| PaginationComponent.HandlersSpec | components/pagination-component.tsx:30-40 | a handler calls `onPageChange` exactly when its button would be enabled without loading, with the page one below or above, inside `[1, totalPages]` |
| PaginationComponent.LoadingDisablesBoth | components/pagination-component.tsx:52-65 | while loading both buttons are disabled |
| PaginationComponent.RangeDescribesPage | components/pagination-component.tsx:27-45 | for a server page the range line names exactly that page's items, and reads 0 to 0 for an empty list |
| UserTransactionsTab.Render | components/users/user-transaction-tab.tsx:150-163 | definition of what the tab renders; see `RenderSpec` and `FooterWithoutData` |
| UserTransactionsTab.RenderSpec | components/users/user-transaction-tab.tsx:150-163 | the loading card shows exactly while loading without data; with data the rows and pagination are the data's; without data page 1 of 1, 0 items |
| UserTransactionsTab.FooterWithoutData | components/users/user-transaction-tab.tsx:157-161 | with no data the footer reads "Showing 0 to 0" |
| UserTransactionsTab.AmountPrefix | components/users/user-transaction-tab.tsx:251 | the sign is "+" exactly for tour earnings |
| UserTransactionsTab.UserTransactionsTab.constructor | components/users/user-transaction-tab.tsx:83 | the tab opens on page 1 |
| UserTransactionsTab.UserTransactionsTab.Previous | components/users/user-transaction-tab.tsx:274 | the page becomes `Math.max(1, p - 1)` |
| UserTransactionsTab.UserTransactionsTab.Next | components/users/user-transaction-tab.tsx:286-288 | the page becomes `Math.min(totalPages, p + 1)` |
| UserTransactionsTab.KeysSeparate | components/users/user-transaction-tab.tsx:86 | two query keys coincide exactly for the same user and page |
| UserTransactionsTab.UserTransactionsTab.PreviousDisabled | components/users/user-transaction-tab.tsx:275 | definition of `disabled={currentPage === 1}`; see `EnabledButtonsStepByOne` |
| UserTransactionsTab.UserTransactionsTab.NextDisabled | components/users/user-transaction-tab.tsx:289 | definition of `disabled={currentPage >= pagination.totalPages}`; see `EnabledButtonsStepByOne` |
| UserTransactionsTab.EnabledButtonsStepByOne | components/users/user-transaction-tab.tsx:271-290 | from page 1 or later, an enabled Previous moves to the page below, at least 1, and an enabled Next to the page above, at most `totalPages` |
| UserReviewsTab.Settle | components/users/user-reviews-tab.tsx:73-80 | definition of how a settled fetch changes the data; see `SettleSpec` |
| UserReviewsTab.SettleSpec | components/users/user-reviews-tab.tsx:73-80 | a parsed body always replaces the data, a failure never does, and data once present stays |
| UserReviewsTab.ErrorBodyShowsDefaults | components/users/user-reviews-tab.tsx:121-132 | a body without reviews or pagination shows no reviews, page 1 of 1, "Showing 0 to 0" |
| UserReviewsTab.RenderStars | components/users/user-reviews-tab.tsx:92-107 | there are always five stars |
| UserReviewsTab.StarsSpec | components/users/user-reviews-tab.tsx:95-101 | star `k` is filled exactly when `k <= rating`; filled stars come first; their number is the rating clamped to `[0, 5]` |
| UserReviewsTab.UserReviewsTab.constructor | components/users/user-reviews-tab.tsx:67-69 | no data, page 1 |
| UserReviewsTab.UserReviewsTab.FetchSettled | components/users/user-reviews-tab.tsx:71-82 | the data becomes the settled outcome; the page is unchanged; the loading card stays exactly when it was showing and the fetch failed |
| UserReviewsTab.UserReviewsTab.Previous | components/users/user-reviews-tab.tsx:196 | the page becomes `Math.max(1, p - 1)`; the data is kept |
| UserReviewsTab.UserReviewsTab.Next | components/users/user-reviews-tab.tsx:208-210 | the page becomes `Math.min(totalPages, p + 1)`; the data is kept |
| UserReviewsTab.UserReviewsTab.ShowsPlaceholder | components/users/user-reviews-tab.tsx:108-116 | definition of the `!data` loading card; see `FetchSettled` |
| UserReviewsTab.UserReviewsTab.PreviousDisabled | components/users/user-reviews-tab.tsx:197 | definition of the Previous button's `disabled`: page 1 or a pending transition; see `EnabledButtonsStepByOne` |
| UserReviewsTab.UserReviewsTab.NextDisabled | components/users/user-reviews-tab.tsx:211 | definition of the Next button's `disabled`: the last page or later, or a pending transition; see `EnabledButtonsStepByOne` |
| UserReviewsTab.EnabledButtonsStepByOne | components/users/user-reviews-tab.tsx:193-212 | from page 1 or later, an enabled Previous moves to the page below, at least 1, and an enabled Next to the page above, at most `totalPages`; a pending transition disables both |
| ToursPage.FilteredTours | app/tours/page.tsx:17-32 | definition of `filteredTours`; see `FilteredToursSpec` and `EmptySearchKeepsAll` |
| ToursPage.PaginatedTours | app/tours/page.tsx:48-52 | definition of `paginatedTours`; see `PaginatedToursSpec` |
| ToursPage.FilteredToursSpec | app/tours/page.tsx:17-32 | a tour is kept exactly when its lower-cased title, location or guide contains the lower-cased search and its status matches (or "All Status"); order is kept |
| ToursPage.EmptySearchKeepsAll | app/tours/page.tsx:17-32 | an empty search matches every tour, so with "All Status" every tour is kept |
| ToursPage.PaginatedToursSpec | app/tours/page.tsx:46-52 | a page holds at most 6 tours from index `(page - 1) * 6`; page 1 is the first 6; there is a page exactly when a tour matches |
| ToursPage.ToursPage.constructor | app/tours/page.tsx:13-15 | no search, "All Status", page 1 |
| ToursPage.ToursPage.HandleSearchChange | app/tours/page.tsx:35-38 | sets the search and goes back to page 1 |
| ToursPage.ToursPage.HandleStatusChange | app/tours/page.tsx:40-43 | sets the status filter and goes back to page 1 |
| ToursPage.ToursPage.SetPage | app/tours/page.tsx:15 | sets the page only |
| ToursPage.FilterChangeShowsFirstPage | app/tours/page.tsx:34-52 | after a filter change the first six matches are shown, and a shown pager's page is in range |
| UsersTable.RequestParams | components/users/users-table.tsx:67-72 | definition of the request's parameters; see `RequestParamsSpec` and `RouteReadsRequest` |
| UsersTable.Initials | components/users/users-table.tsx:192-196 | definition of the avatar fallback; see `InitialsOfWords` |
| UsersTable.ShowsPager | components/users/users-table.tsx:255 | definition of the pager's condition; see `FlatResponseHidesPager` and `PagedResponseShowsPager` |
| UsersTable.UsersOf | components/users/users-table.tsx:81 | definition of the users the table reads, `[]` when absent; see `FlatResponseHidesPager` |
| UsersTable.RequestParamsSpec | components/users/users-table.tsx:67-72 | page and limit 10 are always sent; search only when non-empty, role and status only when not "all" |
| UsersTable.RouteReadsRequest | components/users/users-table.tsx:67-72 | the route reads the request as exactly the table's filters, its page and limit 10 |
| UsersTable.FormatRole | components/users/users-table.tsx:107-108 | the label is "Tour Guide" or "Traveler", and "Tour Guide" exactly when the role is `tour-guide` |
| UsersTable.FormatStatus | components/users/users-table.tsx:110-111 | the length is kept |
| UsersTable.FormatStatusSpec | components/users/users-table.tsx:110-111 | only the first character changes, into its upper case, and formatting twice is formatting once |
| UsersTable.FirstChars | components/users/users-table.tsx:194-195 | at most one character per word |
| UsersTable.InitialsOfWords | components/users/users-table.tsx:192-196 | a name of space-separated words gets the upper-cased first letter of each word |
| UsersTable.UsersTable.constructor | components/users/users-table.tsx:62 | the filters as given, page 1 |
| UsersTable.UsersTable.SetProps | components/users/users-table.tsx:58-62 | new filter props keep the page |
| UsersTable.UsersTable.SetPage | components/users/users-table.tsx:262 | sets the page only |
| UsersTable.UsersTable.BuildParams | components/users/users-table.tsx:67-72 | a fresh `URLSearchParams` holding the request's pairs in order |
| UsersTable.FlatResponseHidesPager | components/users/users-table.tsx:81-87 | with the route's flat response the table shows the route's page of filtered users, but falls back to 0 items and never shows the pager; with no data it shows no users |
| UsersTable.ElevenUsersOnePage | components/users/users-table.tsx:255 | eleven users make two pages at the route, yet no pager is shown |
| UsersTable.PagedResponseShowsPager | components/users/users-table.tsx:255-262 | with nested pagination the pager shows, on any page, exactly when more users match than fit on a page |
| UsersTable.PagedPagerNextFromFirst | components/users/users-table.tsx:255-262 | with nested pagination and the pager shown on page 1, its Next button asks for page 2 |
| BookingsTable.FetchParams | components/bookings/bookings-table.tsx:193-198 | definition of the fetch's parameters; see `FetchLookups` and `RouteReadsFetch` |
| BookingsTable.CsvContent | components/bookings/bookings-table.tsx:110-112 | definition of the CSV text; see `CsvReadsBack` and `CommaInFieldAddsColumn` |
| BookingsTable.Export | components/bookings/bookings-table.tsx:223-225 | definition of `handleExportCSV`; see `ExportHoldsLoadedPage` |
| BookingsTable.FetchLookups | components/bookings/bookings-table.tsx:193-198 | the four parameters read back as sent |
| BookingsTable.RouteReadsFetch | components/bookings/bookings-table.tsx:188-198 | the route reads the table's page, limit 10, the lower-cased search and the status; empty search and "all" behave as if left out |
| BookingsTable.StatusLabel | components/bookings/bookings-table.tsx:73-89 | a badge exists exactly for "upcoming", "completed" and "cancelled" |
| BookingsTable.RowIsPlain | components/bookings/bookings-table.tsx:99-108 | a row of plain fields joins into one line |
| BookingsTable.HeaderIsPlain | components/bookings/bookings-table.tsx:79 | the header fields hold no separator and join into one line |
| BookingsTable.CsvReadsBack | components/bookings/bookings-table.tsx:98-112 | the content starts with the data-URI prefix; splitting the rest gives the header and then each booking's eight fields, in order |
| BookingsTable.CommaInFieldAddsColumn | components/bookings/bookings-table.tsx:112 | a comma in a tour name splits its line into nine fields |
| BookingsTable.ExportHoldsLoadedPage | components/bookings/bookings-table.tsx:223-225 | the export holds only the loaded page, at most `limit` rows plus the header; with no data nothing is exported |
| BookingsTable.PaginationOf | components/bookings/bookings-table.tsx:231 | definition of `data?.pagination ?? DEFAULT_PAGINATION`; see `BookingsViewShowsResponse` |
| BookingsTable.BookingsOf | components/bookings/bookings-table.tsx:232 | definition of `data?.bookings ?? []`; see `BookingsViewShowsResponse` |
| BookingsTable.BookingsViewShowsResponse | components/bookings/bookings-table.tsx:231-232 | the table shows exactly the route's page of filtered bookings and the route's paging figures; with no data, no rows and the default figures |
| BookingsTable.BookingsTable.constructor | components/bookings/bookings-table.tsx:205-207 | page 1, no search, every status |
| BookingsTable.BookingsTable.HandleSearchChange | components/bookings/bookings-table.tsx:215-217 | sets the search and keeps the page, so the next request asks for the old page with the new search |
| BookingsTable.BookingsTable.HandleStatusChange | components/bookings/bookings-table.tsx:219-221 | sets the status and keeps the page, so the next request asks for the old page with the new status |
| BookingsTable.BookingsTable.SetPage | components/bookings/bookings-table.tsx:205 | sets the page only |
| BookingsTable.BookingsTable.Request | components/bookings/bookings-table.tsx:188-198 | definition of the request `fetchBookings` sends for the current state; see `HandleSearchChange` and `HandleStatusChange` |
| BookingsTable.FilterChangeKeepsPage | components/bookings/bookings-table.tsx:215-221 | narrowing the search on page 2 of ten bookings still requests page 2, which comes back empty |
| GlobalTransactions.ExtractUser | components/transactions/global-transaction.tsx:67-71 | definition of `extractUser`; see `ExtractUserSpec` |
| GlobalTransactions.TabFilter | components/transactions/global-transaction.tsx:181-186 | definition of the tab filter; see `TabFilterSpec` |
| GlobalTransactions.PagerConfig | components/transactions/global-transaction.tsx:188-196 | definition of `paginationConfig`: the server's page figures with the filtered row count; see `TabFilterOnLoadedPage` |
| GlobalTransactions.CloseFromSpec | components/transactions/global-transaction.tsx:59 | the lazy `(.*?)\)` stops at the first ')' with no line break before it, and fails exactly when there is none |
| GlobalTransactions.MatchFromSpec | components/transactions/global-transaction.tsx:59-69 | the match found is the capture at the leftmost index where the pattern matches, with no match at any earlier index; none is found exactly when the pattern matches nowhere |
| GlobalTransactions.CaptureUnique | components/transactions/global-transaction.tsx:59 | at a given index the lazy capture is determined: it stops at the first ')' |
| GlobalTransactions.ExtractUserSpec | components/transactions/global-transaction.tsx:67-71 | a withdrawal is Jason Chapel's; otherwise the name captured by the leftmost match, as `String.match` returns it, or "Unknown User" exactly when the pattern matches nowhere |
| GlobalTransactions.ExtractsLeadingName | components/transactions/global-transaction.tsx:67-71 | "Tourist: " + a one-line name + ")" yields that name |
| GlobalTransactions.TabFilterSpec | components/transactions/global-transaction.tsx:181-186 | "all" keeps every row; the other tabs keep exactly their type, in order, and split the rows between them |
| GlobalTransactions.TabFilterOnLoadedPage | components/transactions/global-transaction.tsx:161-196 | the rows come from the loaded page of 50 only, and the pager counts those rows against the server's page count |
| GlobalTransactions.DisplayAmount | components/transactions/global-transaction.tsx:125-127 | a tour earning with a tour cost shows that cost; every other transaction shows its `amount` |
| GlobalTransactions.CommissionCell | components/transactions/global-transaction.tsx:134-136 | '-' exactly when the commission is absent or 0, otherwise the commission |
| GlobalTransactions.DescriptionCell | components/transactions/global-transaction.tsx:108-111 | a tour earning with a non-empty tour name shows that name; every other transaction shows its description |
| GlobalTransactions.GlobalTransactionsTable.constructor | components/transactions/global-transaction.tsx:168-169 | page 1, tab "all" |
| GlobalTransactions.GlobalTransactionsTable.HandleTabChange | components/transactions/global-transaction.tsx:172-179 | only the tab changes, so the query key and the fetched page stay the same |
| GlobalTransactions.GlobalTransactionsTable.SetPage | components/transactions/global-transaction.tsx:193 | sets the page, keeps the tab |
| VerificationTable.SetStatus | components/verification/VerificationTable.tsx:93-95 | definition of the `map` that rewrites the status; see `SetStatusSpec` and `SetStatusShape` |
| VerificationTable.UpdateCache | components/verification/VerificationTable.tsx:87-98 | definition of `setQueryData` on the page's entry; see `UpdateCacheSpec` and `UpdateCacheIdempotent` |
| VerificationTable.VerificationTable.Decide | components/verification/VerificationTable.tsx:87-98 | the cache becomes `UpdateCache` of the old cache for the current page, and the dialog closes; shared by `HandleApprove` and `HandleReject` |
| VerificationTable.MockQuery | components/verification/VerificationTable.tsx:64-68 | every request, one page, the page echoed |
| VerificationTable.SetStatusSpec | components/verification/VerificationTable.tsx:93-95 | the rows keep their number and order; rows with the id get the new status and keep every other field; other rows are unchanged |
| VerificationTable.SetStatusShape | components/verification/VerificationTable.tsx:93-95 | ids are kept, every row with the id has the new status, and only `status` changes |
| VerificationTable.SetStatusIdempotent | components/verification/VerificationTable.tsx:93-95 | the same decision twice is the decision once |
| VerificationTable.SetStatusAbsent | components/verification/VerificationTable.tsx:93-95 | an id not in the rows changes nothing |
| VerificationTable.UpdateCacheSpec | components/verification/VerificationTable.tsx:87-97 | no cached entry for the page: nothing changes; otherwise only the page's rows are rewritten |
| VerificationTable.UpdateCacheIdempotent | components/verification/VerificationTable.tsx:87-97 | repeating a decision leaves the cache as the first left it |
| VerificationTable.StatusBadge | components/verification/VerificationTable.tsx:139-160 | "Approved", "Rejected", or "Pending Review" for any other status |
| VerificationTable.PagerOf | components/verification/VerificationTable.tsx:250-256 | `totalPages` is the data's or 1, never 0; `totalItems` the row count or 0; 10 per page |
| VerificationTable.VerificationTable.constructor | components/verification/VerificationTable.tsx:48-51 | page 1, nothing cached, nothing selected, dialog closed |
| VerificationTable.VerificationTable.QuerySettled | components/verification/VerificationTable.tsx:55-70 | the page's cache entry becomes the mock answer, which the table then shows |
| VerificationTable.VerificationTable.HandleReview | components/verification/VerificationTable.tsx:72-75 | selects the request and opens the dialog |
| VerificationTable.VerificationTable.HandleApprove | components/verification/VerificationTable.tsx:77-106 | the page's cached rows with the id become "approved"; the dialog closes |
| VerificationTable.VerificationTable.HandleReject | components/verification/VerificationTable.tsx:108-137 | the page's cached rows with the id become "rejected"; the dialog closes |
| VerificationTable.VerificationTable.SetDetailsOpen | components/verification/VerificationTable.tsx:51 | sets the dialog state only |
| VerificationTable.VerificationTable.SetPage | components/verification/VerificationTable.tsx:256 | sets the page and keeps the cache |
| VerificationTable.ApproveAfterLoad | components/verification/VerificationTable.tsx:64-106 | after loading and approving `id`, exactly the rows of that id (or already approved) read approved, with the "Approved" badge |
| RecentActivities.Settle | components/recent-activities.tsx:30-36 | success shows the answer, failure keeps the old feed |
| RecentActivities.SettleKeepsLastGood | components/recent-activities.tsx:30-36 | a failure after a success keeps the good page; a success after a failure shows it |
| RecentActivities.RecentActivitySection.constructor | components/recent-activities.tsx:19-26 | no activities, page 1 of 8 with total 0 and one page, loading |
| RecentActivities.RecentActivitySection.StartFetch | components/recent-activities.tsx:29 | loading, feed unchanged |
| RecentActivities.RecentActivitySection.FinishFetch | components/recent-activities.tsx:30-38 | the feed is settled with the outcome, loading off |
| RecentActivities.RecentActivitySection.FetchActivities | components/recent-activities.tsx:28-39 | the feed becomes the service's answer for the page, 8 per page, loading off |
| RecentActivities.RecentActivitySection.Mount | components/recent-activities.tsx:41-43 | mounting loads page 1 |
| RecentActivities.MountedFeed | components/recent-activities.tsx:41-43 | after mounting the feed is the first eight activities, total the fixture size, the least page count |
| UserDetailsTabs.AvailableTabs | components/users/user-details-tabs.tsx:22-33 | at least one tab, no tab twice |
| UserDetailsTabs.AvailableTabsSpec | components/users/user-details-tabs.tsx:22-33 | verified guides get all three tabs, active travelers only transactions, everyone else only tours; reviews only for verified guides |
| UserDetailsTabs.TabLabel | components/users/user-details-tabs.tsx:40-44 | the label is one of the three names |
| UserDetailsTabs.TabLabelsDistinct | components/users/user-details-tabs.tsx:40-44 | labels are equal exactly for equal tabs |
| UserDetailsTabs.OnePanel | components/users/user-details-tabs.tsx:65-67 | exactly the active tab's panel is rendered |
| UserDetailsTabs.UserDetailsTab.constructor | components/users/user-details-tabs.tsx:35-38 | the active tab starts as the first available one |
| UserDetailsTabs.UserDetailsTab.Click | components/users/user-details-tabs.tsx:49-52 | a click on an available tab makes it active, and the active tab stays available |
| UserDetailsTabs.SingleTabIsFixed | components/users/user-details-tabs.tsx:35-52 | with a single tab the active tab never changes |
| UserDetailsTabs.RenderedPanelAvailable | components/users/user-details-tabs.tsx:65-67 | in a valid state the one rendered panel is the active tab's; the reviews panel shows only for a verified guide, the transactions panel only for a verified guide or an active traveler |
| Sidebar.IsActive | components/sidebar.tsx:252 | definition of `isActive`; see `AtMostOneActive` |
| Sidebar.SidebarState.IsCollapsed | components/sidebar.tsx:55 | definition of `isCollapsed`; see `ToggleCollapse` |
| Sidebar.DragWidth | components/sidebar.tsx:58-65 | the width is the start width plus the mouse movement, clamped to `[80, 400]` |
| Sidebar.DragFollowsMouse | components/sidebar.tsx:58-65 | between the clamps the width follows the mouse one for one |
| Sidebar.NavHrefsDistinct | components/sidebar.tsx:36-45 | no two navigation entries share an href |
| Sidebar.AtMostOneActive | components/sidebar.tsx:252 | at most one entry is highlighted, and each entry's own href highlights it alone |
| Sidebar.SidebarState.constructor | components/sidebar.tsx:49-53 | width 256, not dragging, not collapsed |
| Sidebar.SidebarState.MouseDown | components/sidebar.tsx:90-98 | records the mouse position and width and starts dragging |
| Sidebar.SidebarState.MouseMove | components/sidebar.tsx:58-81 | while dragging the width is the clamped drag width; otherwise nothing changes; the width stays in range |
| Sidebar.SidebarState.MouseUp | components/sidebar.tsx:68-72 | stops dragging, keeps the width |
| Sidebar.SidebarState.ToggleCollapse | components/sidebar.tsx:55-103 | a collapsed sidebar opens to 256, any other closes to 80, so the collapsed state flips |
| Sidebar.DragTwice | components/sidebar.tsx:58-98 | press, two moves and release leave the clamp of the last move measured from the press |
| AppLayout.IsUserDetails | components/app-layout.tsx:7 | definition of `isUserDetails`; see `UserDetailsIsPrefix` and `Examples` |
| AppLayout.UserDetailsIsPrefix | components/app-layout.tsx:7-11 | a page is a user-details page, which hides the sidebar, exactly when its path starts with "/users/" |
| AppLayout.Examples | components/app-layout.tsx:7 | "/users" and "/usersX" keep the sidebar; "/users/usr_001" hides it |
| ActivityItem.FormatTimestamp | components/activity-item.tsx:45-49 | definition of the four chained `replace` calls; see `OneUnitWord`, `MinutesAgo` and `HoursAgo` |
| ActivityItem.NoUnitUnchanged | components/activity-item.tsx:45-49 | a phrase with neither "minute" nor "hour" is unchanged |
| ActivityItem.OneUnitWord | components/activity-item.tsx:45-49 | a phrase with one unit word gets it shortened, the rest kept, and no "minute" or "hour" left |
| ActivityItem.MinutesAgo | components/activity-item.tsx:46-47 | "N minutes ago" becomes "N mins ago" and "N minute ago" "N min ago" |
| ActivityItem.HoursAgo | components/activity-item.tsx:48-49 | "N hours ago" becomes "N hrs ago", "N hour ago" "N hr ago", and "in N hour" "in N hr" |
| ActivityItem.OtherUnitsUnchanged | components/activity-item.tsx:45-49 | "3 days ago" passes through |
| ActivityItem.FirstOccurrenceOnly | components/activity-item.tsx:46 | each `replace` rewrites the first occurrence only |
| ActivityItem.PluralContainsSingular | components/activity-item.tsx:46-49 | a text holding the plural unit holds the singular |

## Left out

- `parseInt` on a non-numeric `page` or `limit` gives `NaN` in the source. The routes require a page and a limit of at least 1, which is what the views send.
- ParseIntParam: reads only a non-empty string of decimal digits. `parseInt`'s leading whitespace, sign and trailing characters are not modelled, because the views send plain digit strings.
- Case conversion covers ASCII letters only. Unicode case mapping is not modelled.
- Floating-point values are not modelled: ratings, `formatCurrency`, `toLocaleString` and locale date formatting. Dates in the CSV export are a parameter.
- `formatDistanceToNowStrict` reads the clock. Its phrase is an input; only the rewrite chain after it is modelled.
- Mock lookups by key (`MOCK_REPORT_STATS[period]`, `MOCK_METRICS[period]`) are maps. Keys inherited from JavaScript prototypes are not modelled.
- DOM work is left out: cursor and selection styles, `encodeURI`, the download link and its click, `window.print`, tooltips, icons and toasts.
- Query-library internals are left out: caching policy beyond the verification table's cache, `keepPreviousData` timing, retries and refetches. A fetch outcome is a parameter.
- `isPending` and `isLoading` are inputs, not derived from a scheduler.
- Asynchronous interleaving is not modelled. Each handler runs to completion. So the stale `page` captured by an approve or reject that spans a page change is not modelled.
- The props of the user-details tabs are fixed at mount. A change of props after mount is not modelled.
- The backend branch of `getMetrics` is unreachable because the mock switch is always on. It is modelled (`Services.BackendFallsBack`) with the fetch outcome as a parameter.
- The `getRecentActivities` and `getTopTours` backend fetches are left out for the same reason.
- The routes for metrics, rankings, user metrics and per-user data are not part of this model. The tabs take their responses as inputs.
- `Paging.NextPageCanMoveBack` documents what the `Math.min` setter does outside `[1, totalPages]`. In the two user tabs the Next button is disabled from the last page on (`EnabledButtonsStepByOne`), so that backward move cannot be reached through the button.
- The user reviews tab's request URL is not modelled. The fetch's outcome is the parameter of `FetchSettled`.

## Findings

| source | as written | input that shows it | evidently intended | confidence | as-written member | corrected member |
|---|---|---|---|---|---|---|
| components/users/users-table.tsx:82-87 | `GET /api/users` returns `totalItems`, `currentPage`, `totalPages` and `itemsPerPage` at the top level (app/api/users/route.ts:218-224), but the table reads `data.pagination`. That is always absent, so the default with 0 items applies and the pager never shows. | 11 users and no filters: the route reports 11 items on 2 pages, yet no pager is shown and the eleventh user cannot be reached | the response nests its paging fields under `pagination`, as the other list routes do; the pager then shows exactly when more users match than fit on a page | not executed | UsersTable.FlatResponseHidesPager, UsersTable.ElevenUsersOnePage | UsersRoute.GetPaged, UsersTable.PagedResponseShowsPager, UsersTable.PagedPagerNextFromFirst |
