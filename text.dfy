/** Character-level helpers shared by the upload filter and the campground search. */
module Text {

  /**
   * ASCII lower-casing. The upload filter's extension test is a JavaScript
   * regex with the `i` flag, which for ASCII patterns folds only ASCII
   * letters onto them. The campground search is a MongoDB `$regex` with the
   * `i` option, evaluated by the database's own engine, whose Unicode case
   * folding this helper models only for ASCII.
   */
  function LowerChar(c: char): char
  {
    if 'A' <= c <= 'Z' then (c as int - 'A' as int + 'a' as int) as char else c
  }

  function Lower(s: string): (r: string)
    ensures |r| == |s|
  {
    seq(|s|, i requires 0 <= i < |s| => LowerChar(s[i]))
  }

  /** `s` holds `part` at position `k`, ignoring case. */
  predicate MatchesAt(s: string, part: string, k: int)
  {
    0 <= k && k + |part| <= |s| && Lower(s[k..k + |part|]) == Lower(part)
  }

  /** `s` holds `part` somewhere, ignoring case. */
  predicate ContainsIgnoringCase(s: string, part: string)
  {
    exists k | 0 <= k <= |s| :: MatchesAt(s, part, k)
  }

  predicate IsDigit(c: char) { '0' <= c <= '9' }
}
