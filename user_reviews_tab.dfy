// components/users/user-reviews-tab.tsx: a user's reviews, one server page
// at a time. An effect fetches the current page whenever it changes; any
// JSON body replaces the data, and a failed request or parse is only
// logged.
module UserReviewsTab {
  import opened Outcomes
  import opened Seqs
  import opened Paging

  /** A review; its rating is a whole number of stars. */
  datatype Review = Review(
    id: string,
    rating: int,
    comment: string,
    tourTitle: string,
    reviewerName: string,
    reviewerAvatar: Option<string>,
    date: string)

  /** A parsed JSON body. The response is not checked for `ok`, so an error
      body arrives here too, without `reviews` or `pagination`. */
  datatype ReviewsBody = ReviewsBody(reviews: Option<seq<Review>>, pagination: Option<PageInfo>)

  /** What the `then`/`catch` chain leaves in `data`: the parsed body on
      success, the previous data when the request or the parse fails. */
  function Settle(data: Option<ReviewsBody>, outcome: Result<ReviewsBody, FetchError>): Option<ReviewsBody> {
    match outcome
    case Ok(body) => Some(body)
    case Err(_) => data
  }

  /** A success always replaces the data, a failure never does, and once a
      body has arrived the placeholder never comes back. */
  lemma SettleSpec(data: Option<ReviewsBody>, outcome: Result<ReviewsBody, FetchError>)
    ensures outcome.Ok? ==> Settle(data, outcome) == Some(outcome.value)
    ensures outcome.Err? ==> Settle(data, outcome) == data
    ensures data.Some? ==> Settle(data, outcome).Some?
  {
  }

  /** `data?.pagination || {1, 1, 0, 10}`. */
  function PaginationOf(body: ReviewsBody): PageInfo {
    body.pagination.GetOr(DefaultPageInfo)
  }

  /** `data?.reviews || []`. */
  function ReviewsOf(body: ReviewsBody): seq<Review> {
    body.reviews.GetOr([])
  }

  /** An error body shows no reviews, page 1 of 1 and "Showing 0 to 0":
      the placeholder goes away although nothing was loaded. */
  lemma ErrorBodyShowsDefaults()
    ensures var body := ReviewsBody(None, None);
      && ReviewsOf(body) == []
      && PaginationOf(body) == PageInfo(1, 1, 0, 10)
      && ShownStart(PaginationOf(body).currentPage, PaginationOf(body).itemsPerPage, PaginationOf(body).totalItems) == 0
      && EndItem(PaginationOf(body).currentPage, PaginationOf(body).itemsPerPage, PaginationOf(body).totalItems) == 0
  {
  }

  /** `renderStars(rating)`: stars 1 to 5, each filled when its number is at
      most the rating. */
  function RenderStars(rating: int): (stars: seq<bool>)
    ensures |stars| == 5
  {
    seq(5, i requires 0 <= i < 5 => i + 1 <= rating)
  }

  /** Star number `k + 1` is filled iff `k + 1 <= rating`; the filled stars
      come first, and their number is the rating clamped to 0..5. */
  lemma StarsSpec(rating: int)
    ensures forall k :: 0 <= k < 5 ==> (RenderStars(rating)[k] <==> k + 1 <= rating)
    ensures forall i, j :: 0 <= i <= j < 5 && RenderStars(rating)[j] ==> RenderStars(rating)[i]
    ensures |Filter(RenderStars(rating), (b: bool) => b)| == Max(0, Min(5, rating))
  {
    var stars := RenderStars(rating);
    var n := Max(0, Min(5, rating));
    var filled, empty := seq(n, _ => true), seq(5 - n, _ => false);
    forall k | 0 <= k < 5
      ensures stars[k] == (filled + empty)[k]
    {
      if k < n {
        assert (filled + empty)[k] == filled[k];
      } else {
        assert (filled + empty)[k] == empty[k - n];
      }
    }
    assert stars == filled + empty;
    FilterAll(filled, (b: bool) => b);
    FilterNone(empty, (b: bool) => b);
    FilterAppend(filled, empty, (b: bool) => b);
  }

  class UserReviewsTab {
    const userId: string
    var data: Option<ReviewsBody>
    var currentPage: int

    /** No data and page 1. */
    constructor(userId: string)
      ensures this.userId == userId && data == None && currentPage == 1
    {
      this.userId := userId;
      data := None;
      currentPage := 1;
    }

    /** The "Loading reviews..." card shows exactly while there is no data. */
    predicate ShowsPlaceholder()
      reads this
    {
      data.None?
    }

    /** The fetch started by the effect settles. */
    method FetchSettled(outcome: Result<ReviewsBody, FetchError>)
      modifies this
      ensures data == Settle(old(data), outcome)
      ensures currentPage == old(currentPage)
      ensures ShowsPlaceholder() <==> old(ShowsPlaceholder()) && outcome.Err?
    {
      match outcome {
        case Ok(body) => data := Some(body);
        case Err(_) =>
      }
    }

    /** `disabled={currentPage === 1 || isPending}`. */
    predicate PreviousDisabled(isPending: bool)
      reads this
    {
      currentPage == 1 || isPending
    }

    /** `disabled={currentPage >= pagination.totalPages || isPending}`. */
    predicate NextDisabled(pagination: PageInfo, isPending: bool)
      reads this
    {
      currentPage >= pagination.totalPages || isPending
    }

    /** `setCurrentPage(p => Math.max(1, p - 1))`. */
    method Previous()
      modifies this
      ensures currentPage == PreviousPage(old(currentPage))
      ensures data == old(data)
    {
      currentPage := Max(1, currentPage - 1);
    }

    /** `setCurrentPage(p => Math.min(pagination.totalPages, p + 1))`. */
    method Next(pagination: PageInfo)
      modifies this
      ensures currentPage == NextPage(old(currentPage), pagination.totalPages)
      ensures data == old(data)
    {
      currentPage := Min(pagination.totalPages, currentPage + 1);
    }
  }

  /** From page 1 or later, an enabled button moves exactly one page and
      stays inside `[1, totalPages]`; while a transition is pending both are
      disabled. */
  lemma EnabledButtonsStepByOne(t: UserReviewsTab, pagination: PageInfo, isPending: bool)
    requires t.currentPage >= 1
    ensures !t.PreviousDisabled(isPending) ==> PreviousPage(t.currentPage) == t.currentPage - 1 >= 1
    ensures !t.NextDisabled(pagination, isPending) ==>
              NextPage(t.currentPage, pagination.totalPages) == t.currentPage + 1 <= pagination.totalPages
    ensures isPending ==> t.PreviousDisabled(isPending) && t.NextDisabled(pagination, isPending)
  {
  }
}
