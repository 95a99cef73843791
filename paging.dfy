/**
 * The pagination every listing endpoint shares: `slice((page-1)*limit, page*limit)`
 * with JavaScript's slice rules, and `Math.ceil(total / limit)` pages.
 */
module Paging {

  /** `Math.ceil(n / limit)`, which is not a finite number when `limit` is 0. */
  datatype PageCount = Pages(count: int) | NotFinite

  /** The body of a listing response. */
  datatype Listing<T> = Listing(data: seq<T>, total: nat, page: int, totalPages: PageCount)

  /** Where a slice bound lands: a negative bound counts from the end; both are clamped. */
  function SliceBound(n: nat, x: int): (b: nat)
    ensures b <= n
    ensures 0 <= x <= n ==> b == x
    ensures x > n ==> b == n
    ensures x < 0 && 0 <= n + x ==> b == n + x
    ensures n + x < 0 ==> b == 0
  {
    if x < 0 then (if n + x < 0 then 0 else n + x)
    else if x > n then n
    else x
  }

  /**
   * `s.slice(start, end)`: the items from the start bound up to the end bound,
   * none when the end bound does not lie after the start bound.
   */
  function JsSlice<T>(s: seq<T>, start: int, end: int): (r: seq<T>)
    ensures |r| <= |s|
    ensures SliceBound(|s|, start) < SliceBound(|s|, end) ==>
      |r| == SliceBound(|s|, end) - SliceBound(|s|, start)
      && forall i :: 0 <= i < |r| ==> r[i] == s[SliceBound(|s|, start) + i]
    ensures SliceBound(|s|, end) <= SliceBound(|s|, start) ==> r == []
  {
    var from := SliceBound(|s|, start);
    var to := SliceBound(|s|, end);
    if to <= from then [] else s[from..to]
  }

  /** The items on page `page` of `limit` each. */
  function PageOf<T>(s: seq<T>, page: int, limit: int): seq<T> {
    JsSlice(s, (page - 1) * limit, page * limit)
  }

  /** `Math.ceil(n / limit)` */
  function TotalPages(n: nat, limit: int): (p: PageCount)
    ensures limit == 0 <==> p.NotFinite?
    ensures limit > 0 ==> p.count >= 0 && (p.count - 1) * limit < n <= p.count * limit
    ensures limit < 0 ==> p.count <= 0
  {
    if limit > 0 then Pages((n + limit - 1) / limit)
    else if limit < 0 then Pages(-(n / -limit))
    else NotFinite
  }

  /** A listing of one page of `items`. */
  function Paginate<T>(items: seq<T>, page: int, limit: int): (r: Listing<T>)
    ensures r.total == |items| && r.page == page
    ensures r.data == PageOf(items, page, limit)
    ensures limit > 0 ==> |r.data| <= limit
    ensures r.totalPages == TotalPages(|items|, limit)
  {
    Listing(PageOf(items, page, limit), |items|, page, TotalPages(|items|, limit))
  }

  /** A page from the first onwards holds the items from `(page-1)*limit` up to `page*limit`. */
  lemma PageOfPositive<T>(s: seq<T>, page: int, limit: int)
    requires page >= 1 && limit > 0
    ensures (page - 1) * limit <= |s| ==>
      PageOf(s, page, limit) == s[(page - 1) * limit .. if page * limit <= |s| then page * limit else |s|]
    ensures (page - 1) * limit >= |s| ==> PageOf(s, page, limit) == []
    ensures |PageOf(s, page, limit)| <= limit
  {
    assert (page - 1) * limit >= 0;
    assert page * limit == (page - 1) * limit + limit;
  }

  /** Pages 1 to k laid end to end. */
  function Concat<T>(s: seq<T>, limit: int, k: nat): seq<T> {
    if k == 0 then [] else Concat(s, limit, k - 1) + PageOf(s, k, limit)
  }

  /** Pages 1 to k hold exactly the first `k*limit` items, in order. */
  lemma {:induction false} ConcatIsPrefix<T>(s: seq<T>, limit: int, k: nat)
    requires limit > 0
    ensures Concat(s, limit, k) == s[..if k * limit <= |s| then k * limit else |s|]
  {
    if k > 0 {
      ConcatIsPrefix(s, limit, k - 1);
      PageOfPositive(s, k, limit);
      assert k * limit == (k - 1) * limit + limit;
      var m := if (k - 1) * limit <= |s| then (k - 1) * limit else |s|;
      var e := if k * limit <= |s| then k * limit else |s|;
      if (k - 1) * limit <= |s| {
        assert s[..e] == s[..m] + s[m..e];
      } else {
        assert m == e;
      }
    }
  }

  /**
   * With a positive limit the pages 1 to `totalPages` cover every item exactly
   * once, in order, and every later page is empty.
   */
  lemma PagesCoverAll<T>(s: seq<T>, limit: int)
    requires limit > 0
    ensures Concat(s, limit, TotalPages(|s|, limit).count) == s
    ensures forall page :: page > TotalPages(|s|, limit).count ==> PageOf(s, page, limit) == []
  {
    var t := TotalPages(|s|, limit).count;
    ConcatIsPrefix(s, limit, t);
    assert s[..|s|] == s;
    forall page | page > t
      ensures PageOf(s, page, limit) == []
    {
      PageOfPositive(s, page, limit);
      MulMonotone(page - 1, t, limit);
    }
  }

  lemma MulMonotone(a: int, b: int, c: int)
    requires a >= b && c > 0
    ensures a * c >= b * c
  {
  }

  /** Page 0 is always empty: its slice ends at index 0. */
  lemma PageZeroEmpty<T>(s: seq<T>, limit: int)
    requires limit > 0
    ensures PageOf(s, 0, limit) == []
  {
  }

  /**
   * A negative page is not rejected: both slice bounds count back from the end,
   * so page -p holds the `limit` items ending `p*limit` items before the end
   * (fewer at the front of the list), and nothing once that lies before the start.
   */
  lemma NegativePageCountsFromEnd<T>(s: seq<T>, page: int, limit: int)
    requires page < 0 && limit > 0
    ensures |s| + page * limit <= 0 ==> PageOf(s, page, limit) == []
    ensures |s| + page * limit > 0 ==>
      var from := if |s| + (page - 1) * limit < 0 then 0 else |s| + (page - 1) * limit;
      PageOf(s, page, limit) == s[from..|s| + page * limit]
  {
    assert (page - 1) * limit == page * limit - limit;
    assert page * limit < 0;
  }
}
