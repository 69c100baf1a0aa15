/** `calculateAverage` of routes/reviews.js: the mean rating cached on a campground. */
module Ratings {
  import opened ReviewModel

  /** Sum of a sequence, accumulated from the front as the `forEach` loop does. */
  function Sum(s: seq<int>): int
  {
    if s == [] then 0 else Sum(s[..|s| - 1]) + s[|s| - 1]
  }

  /** The arithmetic mean, 0 for no ratings. */
  function Mean(s: seq<int>): real
  {
    if |s| == 0 then 0.0 else Sum(s) as real / |s| as real
  }

  function RatingsOf(reviews: seq<Review>): (r: seq<int>)
    ensures |r| == |reviews|
  {
    seq(|reviews|, i requires 0 <= i < |reviews| => reviews[i].rating)
  }

  predicate AllInRange(s: seq<int>)
  {
    forall i | 0 <= i < |s| :: 1 <= s[i] <= 5
  }

  /** calculateAverage: 0 for no reviews, else the running total divided by the count. */
  method CalculateAverage(reviews: seq<Review>) returns (avg: real)
    ensures avg == Mean(RatingsOf(reviews))
  {
    var total := 0;
    if |reviews| == 0 {
      return 0.0;
    }
    var ratings := RatingsOf(reviews);
    var i := 0;
    while i < |reviews|
      invariant 0 <= i <= |reviews|
      invariant total == Sum(ratings[..i])
    {
      assert ratings[..i + 1][..i] == ratings[..i];
      total := total + reviews[i].rating;
      i := i + 1;
    }
    assert ratings[..i] == ratings;
    avg := total as real / |reviews| as real;
  }

  lemma {:induction false} SumBounds(s: seq<int>)
    requires AllInRange(s)
    ensures |s| <= Sum(s) <= 5 * |s|
  {
    if s != [] {
      SumBounds(s[..|s| - 1]);
    }
  }

  lemma QuotientBounds(t: real, n: real)
    requires n > 0.0 && n <= t <= n * 5.0
    ensures 1.0 <= t / n <= 5.0
  {
  }

  /** With every rating an integer in [1,5], a non-empty mean lies in [1,5]. */
  lemma MeanInRange(s: seq<int>)
    requires AllInRange(s) && |s| > 0
    ensures 1.0 <= Mean(s) <= 5.0
  {
    SumBounds(s);
    QuotientBounds(Sum(s) as real, |s| as real);
  }

  lemma MeanExamples()
    ensures Mean([]) == 0.0
    ensures Mean([4, 5, 3]) == 4.0
  {
    assert [4, 5, 3][..2] == [4, 5];
    assert [4, 5][..1] == [4];
    assert [4][..0] == [];
  }
}
