/**
 * The review document of models/review.js and the constraints its schema puts
 * on a rating: required, at least 1, at most 5, and an integer.
 */
module ReviewModel {
  import opened Wrappers
  import opened Entities

  /**
   * A stored review. Its rating has passed the schema's validators; the author
   * is an (id, username) pair and the campground reference is a single
   * optional id.
   */
  datatype Review = Review(rating: int, text: string, author: Author, campground: Option<CampgroundId>)

  /** `req.body.review` after Mongoose has cast the rating to a number (None: no rating given). */
  datatype ReviewForm = ReviewForm(rating: Option<real>, text: string)

  /** The validator that rejects a rating, in the order the schema declares them. */
  datatype RatingError = RatingMissing | BelowMinimum | AboveMaximum | NotInteger

  predicate IsInteger(v: real) { v == v.Floor as real }

  /** The rating path's validators: `required`, `min: 1`, `max: 5`, `Number.isInteger`. */
  function CheckRating(v: Option<real>): (r: Result<int, RatingError>)
    ensures r.Ok? <==> v.Some? && 1.0 <= v.value <= 5.0 && IsInteger(v.value)
    ensures r.Ok? ==> v == Some(r.value as real) && 1 <= r.value <= 5
    ensures r == Err(RatingMissing) <==> v.None?
    ensures r == Err(NotInteger) ==> 1.0 <= v.value <= 5.0
  {
    match v
    case None => Err(RatingMissing)
    case Some(x) =>
      if x < 1.0 then Err(BelowMinimum)
      else if x > 5.0 then Err(AboveMaximum)
      else if !IsInteger(x) then Err(NotInteger)
      else Ok(x.Floor)
  }

  /** A review as `Review.create` stores it: the form's text and validated rating. */
  function CreateReview(form: ReviewForm, author: Author, campground: Option<CampgroundId>): (r: Result<Review, RatingError>)
    ensures r.Ok? <==> CheckRating(form.rating).Ok?
    ensures r.Ok? ==> 1 <= r.value.rating <= 5 && form.rating == Some(r.value.rating as real)
    ensures r.Ok? ==> r.value.text == form.text && r.value.author == author && r.value.campground == campground
  {
    match CheckRating(form.rating)
    case Ok(k) => Ok(Review(k, form.text, author, campground))
    case Err(e) => Err(e)
  }

  lemma RatingExamples()
    ensures CheckRating(None) == Err(RatingMissing)
    ensures CheckRating(Some(0.0)) == Err(BelowMinimum)
    ensures CheckRating(Some(6.0)) == Err(AboveMaximum)
    ensures CheckRating(Some(3.5)) == Err(NotInteger)
    ensures CheckRating(Some(5.0)) == Ok(5)
  {
  }
}
