/**
 * The paging arithmetic shared by the campground index, the review listing
 * and the profile page: the per-page count, the page number, the offset
 * `count * page - count`, the window MongoDB's skip and limit cut from the
 * sorted result, and `Math.ceil(total / count)`.
 * Query parameters arrive already read as numbers: None is a parameter that
 * is missing or falsy.
 */
module Paging {
  import opened Wrappers

  const DefaultPerPage := 12

  /** `Number(req.query.per_page) || 12`: a missing, non-numeric or zero count falls back to 12. */
  function PerPage(perPage: Option<int>): (count: int)
    ensures count != 0
    ensures perPage.None? || perPage == Some(0) ==> count == DefaultPerPage
    ensures perPage.Some? && perPage.value != 0 ==> count == perPage.value
  {
    if perPage.Some? && perPage.value != 0 then perPage.value else DefaultPerPage
  }

  /** `req.query.page || 1`. */
  function PageNumber(page: Option<int>): (p: int)
    ensures page.None? ==> p == 1
    ensures page.Some? ==> p == page.value
  {
    if page.Some? then page.value else 1
  }

  /** `(count * page) - count`: the number of items on the pages before `page`. */
  function Offset(count: int, page: int): (offset: int)
    ensures page >= 1 && count > 0 ==> offset >= 0
    ensures offset == (page - 1) * count
  {
    count * page - count
  }

  function Abs(x: int): nat { if x < 0 then -x else x }

  function Min(a: int, b: int): int { if a < b then a else b }

  /**
   * `.skip(offset).limit(count)` on the already sorted and filtered result.
   * MongoDB rejects a negative skip, and reads a negative limit as its
   * absolute value.
   */
  function Window<T>(items: seq<T>, offset: int, count: int): (r: Option<seq<T>>)
    requires count != 0
    ensures r.None? <==> offset < 0
    ensures r.Some? ==> |r.value| <= Abs(count)
    ensures r.Some? ==> forall j | 0 <= j < |r.value| :: offset + j < |items| && r.value[j] == items[offset + j]
    ensures r.Some? ==> |r.value| == Min(Abs(count), if offset < |items| then |items| - offset else 0)
  {
    if offset < 0 then None
    else if offset >= |items| then Some([])
    else Some(items[offset..Min(|items|, offset + Abs(count))])
  }

  /** `Math.ceil(total / count)` for a non-zero count. */
  function CeilDiv(total: nat, count: int): (r: int)
    requires count != 0
    ensures count > 0 ==> (r - 1) * count < total <= r * count
    ensures count < 0 ==> r * count <= total < (r - 1) * count
  {
    if count > 0 then CeilDivPositive(total, count)
    else -(total / -count)
  }

  function CeilDivPositive(total: nat, count: nat): (r: nat)
    requires count > 0
    ensures (r - 1) * count < total <= r * count
  {
    var q := total / count;
    assert q * count <= total < q * count + count;
    if q * count == total then q else q + 1
  }

  /** `items` filtered by `keep`, order kept. */
  function Filter<T>(items: seq<T>, keep: T -> bool): (r: seq<T>)
    ensures |r| <= |items|
  {
    if items == [] then []
    else (if keep(items[0]) then [items[0]] else []) + Filter(items[1..], keep)
  }

  /** The filter keeps exactly the items that satisfy `keep`. */
  lemma {:induction false} FilterMembers<T>(items: seq<T>, keep: T -> bool)
    ensures forall j | 0 <= j < |Filter(items, keep)| :: Filter(items, keep)[j] in items && keep(Filter(items, keep)[j])
    ensures forall j | 0 <= j < |items| && keep(items[j]) :: items[j] in Filter(items, keep)
  {
    if items != [] {
      FilterMembers(items[1..], keep);
      var rest := Filter(items[1..], keep);
      assert forall j | 1 <= j < |items| :: items[j] == items[1..][j - 1];
      assert forall j | 0 <= j < |rest| :: rest[j] in items[1..];
    }
  }

  /**
   * With a positive count, the item at index `i` is shown on page
   * `i / count + 1`, at position `i % count`, and that page is within
   * `CeilDiv(|items|, count)`: every item can be reached by paging.
   */
  lemma ItemOnItsPage<T>(items: seq<T>, count: int, i: nat)
    requires count > 0 && i < |items|
    ensures var page := i / count + 1;
      && 1 <= page <= CeilDiv(|items|, count)
      && var w := Window(items, Offset(count, page), count);
      && w.Some? && i % count < |w.value| && w.value[i % count] == items[i]
  {
    var page := i / count + 1;
    var offset := Offset(count, page);
    assert offset == (i / count) * count;
    assert offset + i % count == i;
    var r := CeilDiv(|items|, count);
    assert (r - 1) * count < |items|;
  }

  /** A page past `CeilDiv(|items|, count)` is empty. */
  lemma PagePastEndEmpty<T>(items: seq<T>, count: int, page: int)
    requires count > 0 && page > CeilDiv(|items|, count)
    ensures Window(items, Offset(count, page), count) == Some([])
  {
    var r := CeilDiv(|items|, count);
    assert (page - 1) * count >= r * count;
  }

  lemma FirstPageStartsAtZero(perPage: Option<int>)
    ensures Offset(PerPage(perPage), PageNumber(None)) == 0
  {
  }
}
