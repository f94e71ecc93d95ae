/** The page arithmetic the category and users tables share: seven rows a page,
    `Math.ceil(n / 7)` pages, `Array.prototype.slice` for the visible rows, and
    the Previous and Next buttons. Page numbers are JavaScript numbers, so a page
    below 1 is representable and the slice is modelled with JavaScript's
    negative-index rule. */
module Pagination {

  const PageSize := 7

  /** `Math.ceil(n / 7)`: the fewest pages of seven that hold n rows. */
  function TotalPages(n: nat): (t: nat)
    ensures t * PageSize >= n
    ensures t > 0 ==> (t - 1) * PageSize < n
    ensures t == 0 <==> n == 0
  {
    (n + PageSize - 1) / PageSize
  }

  /** `totalPages || 1`: the total the "Page x of y" label shows. */
  function LabelTotal(total: nat): (shown: nat)
    ensures shown >= 1
    ensures total > 0 ==> shown == total
    ensures total == 0 ==> shown == 1
  {
    if total == 0 then 1 else total
  }

  function StartIndex(page: int): int {
    (page - 1) * PageSize
  }

  /** The number in the first column of row `index` of the page. */
  function RowNumber(page: int, index: nat): int {
    StartIndex(page) + index + 1
  }

  /** How `slice` turns an argument into a position: negative counts from the
      end, and the result is clamped to the sequence. */
  function SliceBound(i: int, len: nat): (r: nat)
    ensures r <= len
    ensures 0 <= i <= len ==> r == i
    ensures i > len ==> r == len
    ensures i < 0 && len + i >= 0 ==> r == len + i
    ensures i < 0 && len + i < 0 ==> r == 0
  {
    if i < 0 then (if len + i < 0 then 0 else len + i)
    else if i > len then len
    else i
  }

  /** `s.slice(start, end)`. */
  function JsSlice<T>(s: seq<T>, start: int, end: int): (r: seq<T>)
    ensures |r| <= |s|
    ensures end == 0 ==> r == []
    ensures 0 <= start <= end ==>
      |r| == (if start >= |s| then 0 else if end >= |s| then |s| - start else end - start)
    ensures 0 <= start && |r| > 0 ==> start + |r| <= |s|
    ensures 0 <= start ==> forall i :: 0 <= i < |r| ==> r[i] == s[start + i]
  {
    var a := SliceBound(start, |s|);
    var b := SliceBound(end, |s|);
    if a < b then s[a..b] else []
  }

  /** The rows a page shows: `s.slice(startIndex, startIndex + 7)`. */
  function Page<T>(s: seq<T>, page: int): (r: seq<T>)
    ensures |r| <= PageSize
    ensures page == 0 ==> r == []
    ensures page >= 1 ==>
      |r| == (if StartIndex(page) >= |s| then 0
              else if StartIndex(page) + PageSize >= |s| then |s| - StartIndex(page)
              else PageSize)
    ensures page >= 1 ==> forall i :: 0 <= i < |r| ==> r[i] == s[RowNumber(page, i) - 1]
  {
    JsSlice(s, StartIndex(page), StartIndex(page) + PageSize)
  }

  /** Pages 1 to k, one after the other. */
  function Pages<T>(s: seq<T>, k: nat): seq<T> {
    if k == 0 then [] else Pages(s, k - 1) + Page(s, k)
  }

  /** A page that starts inside the list is the slice of the list from its
      first row, seven rows long or up to the end. */
  lemma {:induction false} PageIsSlice<T>(s: seq<T>, page: int)
    requires page >= 1 && StartIndex(page) <= |s|
    ensures var lo := StartIndex(page);
            Page(s, page) == s[lo..if lo + PageSize <= |s| then lo + PageSize else |s|]
  {
    var lo := StartIndex(page);
    var hi := if lo + PageSize <= |s| then lo + PageSize else |s|;
    var r := Page(s, page);
    assert |r| == hi - lo;
    forall i | 0 <= i < |r|
      ensures r[i] == s[lo..hi][i]
    {
      assert RowNumber(page, i) - 1 == lo + i;
    }
  }

  lemma {:induction false} PagesArePrefix<T>(s: seq<T>, k: nat)
    ensures k * PageSize <= |s| ==> Pages(s, k) == s[..k * PageSize]
    ensures k * PageSize > |s| ==> Pages(s, k) == s
  {
    if k > 0 {
      PagesArePrefix(s, k - 1);
      var lo := (k - 1) * PageSize;
      assert k * PageSize == lo + PageSize;
      if lo <= |s| {
        var hi := if lo + PageSize <= |s| then lo + PageSize else |s|;
        PageIsSlice(s, k);
        assert Pages(s, k) == s[..lo] + s[lo..hi];
        assert s[..lo] + s[lo..hi] == s[..hi];
      } else {
        assert Page(s, k) == [];
      }
    }
  }

  /** The pages 1 to totalPages partition the list: each is non-empty, they
      concatenate to the whole list in order, and every later page is empty. */
  lemma {:induction false} PagesPartitionList<T>(s: seq<T>, page: int)
    ensures Pages(s, TotalPages(|s|)) == s
    ensures 1 <= page <= TotalPages(|s|) ==> |Page(s, page)| > 0
    ensures page > TotalPages(|s|) ==> Page(s, page) == []
  {
    var t := TotalPages(|s|);
    PagesArePrefix(s, t);
    if t * PageSize <= |s| {
      assert s[..t * PageSize] == s;
    }
  }

  /** A list of k full pages needs k pages, and one more row opens page k + 1. */
  lemma {:induction false} FullPagesCount(k: nat)
    ensures TotalPages(k * PageSize) == k
    ensures TotalPages(k * PageSize + 1) == k + 1
  {
    var t := TotalPages(k * PageSize);
    assert t * PageSize >= k * PageSize;
    assert t > 0 ==> (t - 1) * PageSize < k * PageSize;
    var u := TotalPages(k * PageSize + 1);
    assert u * PageSize >= k * PageSize + 1;
    assert (u - 1) * PageSize < k * PageSize + 1;
  }

  /** Appending a row leaves every full page as it was and puts the row on the
      last page, at its end. */
  lemma {:induction false} AppendKeepsFullPages<T>(s: seq<T>, x: T, page: int)
    requires page >= 1 && StartIndex(page) + PageSize <= |s|
    ensures Page(s + [x], page) == Page(s, page)
    ensures var last := Page(s + [x], TotalPages(|s| + 1)); |last| > 0 && last[|last| - 1] == x
  {
    var t := s + [x];
    var l := Page(t, page);
    var r := Page(s, page);
    forall i | 0 <= i < |l|
      ensures l[i] == r[i]
    {
      assert t[RowNumber(page, i) - 1] == s[RowNumber(page, i) - 1];
    }
    var last := Page(t, TotalPages(|t|));
    assert RowNumber(TotalPages(|t|), |last| - 1) - 1 == |s|;
  }

  /** Previous: `Math.max(p - 1, 1)`. */
  function Previous(page: int): (q: int)
    ensures q >= 1
    ensures page > 1 ==> q == page - 1
    ensures page <= 1 ==> q == 1
  {
    if page - 1 > 1 then page - 1 else 1
  }

  /** Next: `Math.min(p + 1, totalPages)`. */
  function Next(page: int, total: nat): (q: int)
    ensures q <= total
    ensures page < total ==> q == page + 1
    ensures page >= total ==> q == total
  {
    if page + 1 < total then page + 1 else total
  }

  predicate PreviousDisabled(page: int) {
    page == 1
  }

  /** The category table disables Next on the last page and on an empty list. */
  predicate CategoryNextDisabled(page: int, total: nat) {
    page == total || total == 0
  }

  /** The users table disables Next on the last page only. */
  predicate UsersNextDisabled(page: int, total: nat) {
    page == total
  }

  /** In the category table, enabled buttons keep a page between 1 and the
      label's total. */
  lemma {:induction false} CategoryNavigationStaysInRange(page: int, total: nat)
    requires 1 <= page <= LabelTotal(total)
    ensures !PreviousDisabled(page) ==> 1 <= Previous(page) <= LabelTotal(total)
    ensures !CategoryNextDisabled(page, total) ==> 1 <= Next(page, total) <= LabelTotal(total)
    ensures !CategoryNextDisabled(page, total) ==> Next(page, total) == page + 1
  {
  }

  /** In the users table, Next is enabled on page 1 of an empty list and moves
      to page 0, where no row shows and the label reads "Page 0 of 1"; there
      Next is disabled and Previous goes back to 1. */
  lemma UsersNextOnEmptyListReachesPageZero<T>(s: seq<T>)
    requires s == []
    ensures !UsersNextDisabled(1, TotalPages(|s|))
    ensures Next(1, TotalPages(|s|)) == 0
    ensures Page(s, 0) == [] && LabelTotal(TotalPages(|s|)) == 1
    ensures UsersNextDisabled(0, TotalPages(|s|)) && !PreviousDisabled(0) && Previous(0) == 1
    ensures CategoryNextDisabled(1, TotalPages(|s|))
  {
  }
}
