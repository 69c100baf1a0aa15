/**
 * The three collections the campground and review handlers change, held in one
 * object: campgrounds, comments and reviews keyed by id. The methods are the
 * handlers' store effects: routes/reviews.js CREATE (store the review, append
 * it to its campground, recompute the cached rating), routes/campgrounds.js
 * CREATE and DESTROY (remove the listed comments, then the listed reviews,
 * then the campground).
 */
module Store {
  import opened Wrappers
  import opened Entities
  import opened ReviewModel
  import opened Ratings
  import opened Validation
  import opened Middleware
  import opened CampgroundsRoute

  /** A campground's review ids resolved to the reviews (Mongoose `populate`). */
  function Populate(reviews: map<ReviewId, Review>, ids: seq<ReviewId>): seq<Review>
    requires forall k | 0 <= k < |ids| :: ids[k] in reviews
  {
    seq(|ids|, k requires 0 <= k < |ids| => reviews[ids[k]])
  }

  /** Every review a campground lists exists and refers back to that campground. */
  ghost predicate ReviewsLinked(campgrounds: map<CampgroundId, Campground>, reviews: map<ReviewId, Review>)
  {
    forall c, k | c in campgrounds && 0 <= k < |campgrounds[c].reviews| ::
      campgrounds[c].reviews[k] in reviews && reviews[campgrounds[c].reviews[k]].campground == Some(c)
  }

  /** Every stored review that names a campground is listed by that campground, which exists. */
  ghost predicate ReviewsListed(campgrounds: map<CampgroundId, Campground>, reviews: map<ReviewId, Review>)
  {
    forall id | id in reviews && reviews[id].campground.Some? ::
      reviews[id].campground.value in campgrounds && id in campgrounds[reviews[id].campground.value].reviews
  }

  /** Every stored rating passed the schema: an integer in [1,5]. */
  ghost predicate RatingsValid(reviews: map<ReviewId, Review>)
  {
    forall id | id in reviews :: 1 <= reviews[id].rating <= 5
  }

  /** Each campground's cached rating is the mean over the reviews it lists. */
  ghost predicate RatingsCached(campgrounds: map<CampgroundId, Campground>, reviews: map<ReviewId, Review>)
    requires ReviewsLinked(campgrounds, reviews)
  {
    forall c | c in campgrounds ::
      campgrounds[c].rating == Mean(RatingsOf(Populate(reviews, campgrounds[c].reviews)))
  }

  /** `findById` on a collection. */
  function Find<K, V>(m: map<K, V>, id: K): (l: Lookup<V>)
    ensures l.Found? <==> id in m
    ensures l.Found? ==> l.entity == m[id]
    ensures !l.LookupError?
  {
    if id in m then Found(m[id]) else NotFound
  }

  /** Populating the same ids against two collections that agree on them gives the same reviews. */
  lemma PopulateFrame(r1: map<ReviewId, Review>, r2: map<ReviewId, Review>, ids: seq<ReviewId>)
    requires forall k | 0 <= k < |ids| :: ids[k] in r1 && ids[k] in r2 && r1[ids[k]] == r2[ids[k]]
    ensures Populate(r1, ids) == Populate(r2, ids)
  {
  }

  /** A review id is listed by at most one campground: its own back-reference names it. */
  lemma ListedOnce(campgrounds: map<CampgroundId, Campground>, reviews: map<ReviewId, Review>,
                   c1: CampgroundId, c2: CampgroundId, id: ReviewId)
    requires ReviewsLinked(campgrounds, reviews)
    requires c1 in campgrounds && c2 in campgrounds
    requires id in campgrounds[c1].reviews && id in campgrounds[c2].reviews
    ensures c1 == c2
  {
    var k1 :| 0 <= k1 < |campgrounds[c1].reviews| && campgrounds[c1].reviews[k1] == id;
    var k2 :| 0 <= k2 < |campgrounds[c2].reviews| && campgrounds[c2].reviews[k2] == id;
    assert reviews[id].campground == Some(c1);
  }

  /** Storing a review that names no campground keeps every listed review listed, linked and its rating cached. */
  lemma StoreUnlinked(campgrounds: map<CampgroundId, Campground>, reviews: map<ReviewId, Review>,
                      rid: ReviewId, review: Review)
    requires ReviewsLinked(campgrounds, reviews) && ReviewsListed(campgrounds, reviews)
    requires RatingsValid(reviews) && RatingsCached(campgrounds, reviews)
    requires rid !in reviews && review.campground.None? && 1 <= review.rating <= 5
    ensures ReviewsLinked(campgrounds, reviews[rid := review])
    ensures ReviewsListed(campgrounds, reviews[rid := review])
    ensures RatingsValid(reviews[rid := review]) && RatingsCached(campgrounds, reviews[rid := review])
  {
    forall c | c in campgrounds
      ensures Populate(reviews[rid := review], campgrounds[c].reviews) == Populate(reviews, campgrounds[c].reviews)
    {
      PopulateFrame(reviews[rid := review], reviews, campgrounds[c].reviews);
    }
  }

  /** Storing a review of `cid` and appending it to `cid`'s list keeps both directions of the link. */
  lemma StoreLinked(campgrounds: map<CampgroundId, Campground>, reviews: map<ReviewId, Review>,
                    cid: CampgroundId, rid: ReviewId, review: Review, rating: real)
    requires ReviewsLinked(campgrounds, reviews) && ReviewsListed(campgrounds, reviews)
    requires rid !in reviews && cid in campgrounds && review.campground == Some(cid)
    ensures var cg := campgrounds[cid];
            var after := campgrounds[cid := cg.(reviews := cg.reviews + [rid], rating := rating)];
            ReviewsLinked(after, reviews[rid := review]) && ReviewsListed(after, reviews[rid := review])
  {
    var cg := campgrounds[cid];
    var ids := cg.reviews + [rid];
    var after := campgrounds[cid := cg.(reviews := ids, rating := rating)];
    var added := reviews[rid := review];
    forall id | id in added && added[id].campground.Some?
      ensures added[id].campground.value in after && id in after[added[id].campground.value].reviews
    {
      if id == rid {
        assert ids[|cg.reviews|] == rid;
      } else if added[id].campground.value == cid {
        var k :| 0 <= k < |cg.reviews| && cg.reviews[k] == id;
        assert ids[k] == id;
      }
    }
    forall c, k | c in after && 0 <= k < |after[c].reviews|
      ensures after[c].reviews[k] in added && added[after[c].reviews[k]].campground == Some(c)
    {
      if c == cid && k < |cg.reviews| {
        assert after[c].reviews[k] == cg.reviews[k];
      }
    }
  }

  /**
   * Storing a valid review of `cid`, appending it to `cid`'s list and caching
   * the mean over the new list keeps every stored rating valid and every
   * cached rating the mean of its campground's reviews.
   */
  lemma StoreCached(campgrounds: map<CampgroundId, Campground>, reviews: map<ReviewId, Review>,
                    cid: CampgroundId, rid: ReviewId, review: Review, rating: real)
    requires ReviewsLinked(campgrounds, reviews) && RatingsValid(reviews) && RatingsCached(campgrounds, reviews)
    requires rid !in reviews && cid in campgrounds && review.campground == Some(cid) && 1 <= review.rating <= 5
    requires ReviewsLinked(campgrounds[cid := campgrounds[cid].(reviews := campgrounds[cid].reviews + [rid], rating := rating)],
                           reviews[rid := review])
    requires rating == Mean(RatingsOf(Populate(reviews[rid := review], campgrounds[cid].reviews + [rid])))
    ensures var cg := campgrounds[cid];
            var after := campgrounds[cid := cg.(reviews := cg.reviews + [rid], rating := rating)];
            RatingsValid(reviews[rid := review]) && RatingsCached(after, reviews[rid := review])
  {
    var added := reviews[rid := review];
    forall c | c in campgrounds && c != cid
      ensures Populate(added, campgrounds[c].reviews) == Populate(reviews, campgrounds[c].reviews)
    {
      PopulateFrame(added, reviews, campgrounds[c].reviews);
    }
  }

  /** Outcome of POST /campgrounds/:id/reviews; every outcome but the first redirects to the campground. */
  datatype ReviewOutcome =
    | NotLoggedIn              // isLoggedIn redirected to the login page
    | ReviewRejected(error: RatingError) // the schema refused the rating: "Something went wrong"
    | CampgroundMissing        // the review was stored, then the handler failed: "Something went wrong"
    | ReviewAdded              // "Your review has been successfully added "

  class Store {
    var campgrounds: map<CampgroundId, Campground>
    var comments: map<CommentId, Comment>
    var reviews: map<ReviewId, Review>

    ghost predicate Valid()
      reads this
    {
      && ReviewsLinked(campgrounds, reviews) && ReviewsListed(campgrounds, reviews)
      && RatingsValid(reviews) && RatingsCached(campgrounds, reviews)
    }

    constructor ()
      ensures Valid()
      ensures campgrounds == map[] && comments == map[] && reviews == map[]
    {
      campgrounds := map[];
      comments := map[];
      reviews := map[];
    }

    /**
     * POST /campgrounds/:id/reviews with a fresh review id `rid`. The review
     * gets the session user as author and the campground as its reference;
     * it is appended to the campground's list, and the cached rating becomes
     * the mean over the campground's reviews including the new one. For a
     * missing campground the review is still stored, with no campground.
     */
    method AddReview(user: Option<SessionUser>, cid: CampgroundId, form: ReviewForm, rid: ReviewId)
      returns (outcome: ReviewOutcome)
      requires Valid() && rid !in reviews
      modifies this
      ensures Valid()
      ensures comments == old(comments)
      ensures user.None? ==> outcome == NotLoggedIn && unchanged(this)
      ensures user.Some? && CheckRating(form.rating).Err? ==>
                outcome == ReviewRejected(CheckRating(form.rating).error) && unchanged(this)
      ensures user.Some? && CheckRating(form.rating).Ok? ==>
                reviews == old(reviews)[rid := Review(CheckRating(form.rating).value, form.text,
                                                      AuthorOf(user.value),
                                                      if cid in old(campgrounds) then Some(cid) else None)]
      ensures user.Some? && CheckRating(form.rating).Ok? && cid !in old(campgrounds) ==>
                outcome == CampgroundMissing && campgrounds == old(campgrounds)
      ensures user.Some? && CheckRating(form.rating).Ok? && cid in old(campgrounds) ==>
                && outcome == ReviewAdded
                && campgrounds.Keys == old(campgrounds.Keys)
                && (forall c | c in campgrounds && c != cid :: campgrounds[c] == old(campgrounds[c]))
                && campgrounds[cid].reviews == old(campgrounds[cid].reviews) + [rid]
                && campgrounds[cid].rating == Mean(RatingsOf(Populate(reviews, campgrounds[cid].reviews)))
                && campgrounds[cid] == old(campgrounds[cid]).(reviews := campgrounds[cid].reviews,
                                                               rating := campgrounds[cid].rating)
    {
      if user.None? {
        return NotLoggedIn;
      }
      var link := if cid in campgrounds then Some(cid) else None;
      match CreateReview(form, AuthorOf(user.value), link)
      case Err(e) =>
        return ReviewRejected(e);
      case Ok(review) =>
        if cid !in campgrounds {
          StoreUnlinked(campgrounds, reviews, rid, review);
          reviews := reviews[rid := review];
          return CampgroundMissing;
        }
        var cg := campgrounds[cid];
        var ids := cg.reviews + [rid];
        var added := reviews[rid := review];
        var avg := CalculateAverage(Populate(added, ids));
        StoreLinked(campgrounds, reviews, cid, rid, review, avg);
        StoreCached(campgrounds, reviews, cid, rid, review, avg);
        reviews := added;
        campgrounds := campgrounds[cid := cg.(reviews := ids, rating := avg)];
        return ReviewAdded;
    }

    /**
     * POST /campgrounds with a fresh campground id: when the route's gates
     * pass, the planned campground is stored and nothing else changes.
     */
    method AddCampground(user: Option<SessionUser>, form: CreateForm, formats: Formats,
                         file: Option<string>, geocode: Option<Geocode>, hosted: Hosted, cid: CampgroundId)
      returns (r: Result<CampgroundId, CreateError>)
      requires Valid() && cid !in campgrounds
      modifies this
      ensures Valid()
      ensures var plan := PlanCampground(user, form, formats, file, geocode, hosted);
              plan.Err? ==> r == Err(plan.error) && unchanged(this)
      ensures var plan := PlanCampground(user, form, formats, file, geocode, hosted);
              plan.Ok? ==> && r == Ok(cid) && campgrounds == old(campgrounds)[cid := plan.value]
                           && comments == old(comments) && reviews == old(reviews)
    {
      var plan := PlanCampground(user, form, formats, file, geocode, hosted);
      if plan.Err? {
        return Err(plan.error);
      }
      assert Populate(reviews, plan.value.reviews) == [];
      campgrounds := campgrounds[cid := plan.value];
      return Ok(cid);
    }

    /**
     * DELETE /campgrounds/:id: the campground ownership guard, then removal of
     * every comment the campground lists, every review it lists, and the
     * campground itself. Other campgrounds keep their reviews and ratings.
     */
    method DestroyCampground(user: Option<SessionUser>, cid: CampgroundId) returns (v: Verdict)
      requires Valid()
      modifies this
      ensures Valid()
      ensures v == Authorize(user, Find(old(campgrounds), cid), CampgroundOwner)
      ensures v != Allowed ==> unchanged(this)
      ensures v == Allowed ==>
                && cid in old(campgrounds)
                && campgrounds == old(campgrounds) - {cid}
                && comments == old(comments) - (set id | id in old(campgrounds[cid].comments))
                && reviews == old(reviews) - (set id | id in old(campgrounds[cid].reviews))
    ensures v == Allowed ==> forall id | id in reviews :: reviews[id].campground != Some(cid)
    {
      v := Authorize(user, Find(campgrounds, cid), CampgroundOwner);
      if v != Allowed {
        return;
      }
      var cg := campgrounds[cid];
      var before := reviews;
      comments := comments - (set id | id in cg.comments);
      reviews := reviews - (set id | id in cg.reviews);
      forall c, k | c in campgrounds && c != cid && 0 <= k < |campgrounds[c].reviews|
        ensures campgrounds[c].reviews[k] in reviews
      {
        var id := campgrounds[c].reviews[k];
        if id in cg.reviews {
          ListedOnce(campgrounds, before, c, cid, id);
        }
      }
      forall c | c in campgrounds && c != cid
        ensures Populate(reviews, campgrounds[c].reviews) == Populate(before, campgrounds[c].reviews)
      {
        PopulateFrame(reviews, before, campgrounds[c].reviews);
      }
      campgrounds := campgrounds - {cid};
    }
  }

  /** A campground with at least one review has a cached rating between 1 and 5. */
  lemma CachedRatingInRange(campgrounds: map<CampgroundId, Campground>, reviews: map<ReviewId, Review>, c: CampgroundId)
    requires ReviewsLinked(campgrounds, reviews) && RatingsValid(reviews) && RatingsCached(campgrounds, reviews)
    requires c in campgrounds && |campgrounds[c].reviews| > 0
    ensures 1.0 <= campgrounds[c].rating <= 5.0
  {
    var s := RatingsOf(Populate(reviews, campgrounds[c].reviews));
    assert forall i | 0 <= i < |s| :: s[i] == reviews[campgrounds[c].reviews[i]].rating;
    MeanInRange(s);
  }
}
