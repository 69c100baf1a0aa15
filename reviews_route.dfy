/**
 * GET /campgrounds/:id/reviews of routes/reviews.js: five reviews per page,
 * newest first, only the reviews of the requested campground, and the page
 * count over that campground's reviews.
 */
module ReviewsRoute {
  import opened Wrappers
  import opened Entities
  import opened ReviewModel
  import opened Paging

  const ReviewsPerPage := 5

  /** The reviews whose campground reference is `cid`, in the given order. */
  function OfCampground(all: seq<Review>, cid: CampgroundId): seq<Review>
  {
    Filter(all, (r: Review) => r.campground == Some(cid))
  }

  datatype ReviewPage = ReviewPage(reviews: seq<Review>, currentPage: int, totalPages: int)

  /**
   * The listing over all reviews sorted newest first. None: the query failed
   * (a page below 1 gives a negative skip) and the handler sends nothing.
   */
  function Show(all: seq<Review>, cid: CampgroundId, page: Option<int>): (r: Option<ReviewPage>)
    ensures r.Some? <==> PageNumber(page) >= 1
    ensures r.Some? ==> r.value.currentPage == PageNumber(page) && |r.value.reviews| <= ReviewsPerPage
    ensures r.Some? ==> (r.value.totalPages - 1) * ReviewsPerPage < |OfCampground(all, cid)|
                        <= r.value.totalPages * ReviewsPerPage
    ensures r.Some? ==> r.value.totalPages == CeilDiv(|OfCampground(all, cid)|, ReviewsPerPage)
    ensures r.Some? ==> var offset := Offset(ReviewsPerPage, PageNumber(page));
              && |r.value.reviews| == Min(ReviewsPerPage, if offset < |OfCampground(all, cid)|
                                                          then |OfCampground(all, cid)| - offset else 0)
              && forall j | 0 <= j < |r.value.reviews| ::
                   offset + j < |OfCampground(all, cid)| && r.value.reviews[j] == OfCampground(all, cid)[offset + j]
  {
    var p := PageNumber(page);
    var mine := OfCampground(all, cid);
    match Window(mine, Offset(ReviewsPerPage, p), ReviewsPerPage)
    case None => None
    case Some(shown) => Some(ReviewPage(shown, p, CeilDiv(|mine|, ReviewsPerPage)))
  }

  /** A listed review always belongs to the requested campground, and came from the collection. */
  lemma ShowOnlyThisCampground(all: seq<Review>, cid: CampgroundId, page: Option<int>)
    requires Show(all, cid, page).Some?
    ensures forall j | 0 <= j < |Show(all, cid, page).value.reviews| ::
              Show(all, cid, page).value.reviews[j].campground == Some(cid)
              && Show(all, cid, page).value.reviews[j] in all
  {
    FilterMembers(all, (r: Review) => r.campground == Some(cid));
  }

  /**
   * Every review of the campground appears: the `i`-th one is on page
   * `i / 5 + 1`, a page no greater than the reported page count.
   */
  lemma EveryReviewListed(all: seq<Review>, cid: CampgroundId, i: nat)
    requires i < |OfCampground(all, cid)|
    ensures var page := i / ReviewsPerPage + 1;
            var r := Show(all, cid, Some(page));
            && r.Some? && page <= r.value.totalPages
            && i % ReviewsPerPage < |r.value.reviews|
            && r.value.reviews[i % ReviewsPerPage] == OfCampground(all, cid)[i]
  {
    ItemOnItsPage(OfCampground(all, cid), ReviewsPerPage, i);
  }
}
