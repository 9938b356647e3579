/** Client-side pagination as every list screen computes it: ten rows per page,
    `Math.ceil(n / 10)` pages, a page cut out of the filtered list with Array.prototype.slice,
    and Previous/Next buttons that move the 1-based page with `Math.max`/`Math.min`. */
module Paging {

  /** `itemsPerPage` on every list screen. */
  const PageSize: nat := 10

  function Min(a: int, b: int): int { if a <= b then a else b }

  function Max(a: int, b: int): int { if a >= b then a else b }

  /** `Math.ceil(n / itemsPerPage)`: the least number of pages that holds n rows. */
  function TotalPages(n: nat): (r: nat)
    ensures r * PageSize >= n
    ensures r == 0 || (r - 1) * PageSize < n
  {
    (n + PageSize - 1) / PageSize
  }

  /** How Array.prototype.slice turns an argument into an index into a list of length len:
      a negative k counts from the end, and the result is clamped to [0, len]. */
  function SliceIndex(k: int, len: nat): (r: nat)
    ensures r <= len
    ensures 0 <= k ==> r == Min(k, len)
    ensures k < 0 ==> r == Max(len + k, 0)
  {
    if k < 0 then (if len + k < 0 then 0 else len + k) else if k > len then len else k
  }

  /** `s.slice(start, end)`: the rows from the clamped start up to the clamped end, or none
      when the clamped start is not before the clamped end. */
  function JsSlice<T>(s: seq<T>, start: int, end: int): (r: seq<T>)
    ensures |r| <= |s|
    ensures 0 <= start <= end ==> r == s[Min(start, |s|)..Min(end, |s|)]
  {
    var from, to := SliceIndex(start, |s|), SliceIndex(end, |s|);
    if from < to then s[from..to] else []
  }

  /** The rows shown on page p: `filtered.slice((p - 1) * 10, (p - 1) * 10 + 10)`. */
  function PageSlice<T>(s: seq<T>, p: int): (r: seq<T>)
    ensures |r| <= PageSize
    ensures forall k :: 0 <= k < |r| ==> r[k] in s
    ensures 1 <= p ==> r == s[Min((p - 1) * PageSize, |s|)..Min(p * PageSize, |s|)]
    ensures 1 <= p <= TotalPages(|s|) ==> |r| > 0
    ensures p == 0 ==> r == []
  {
    var start := (p - 1) * PageSize;
    JsSlice(s, start, start + PageSize)
  }

  /** The pages 1..k laid end to end. */
  function Paginate<T>(s: seq<T>, k: nat): seq<T> {
    if k == 0 then [] else Paginate(s, k - 1) + PageSlice(s, k)
  }

  /** The first k pages hold exactly the first min(10k, n) rows, in order. */
  lemma {:induction false} PaginateIsPrefix<T>(s: seq<T>, k: nat)
    ensures Paginate(s, k) == s[..Min(k * PageSize, |s|)]
  {
    if k > 0 {
      PaginateIsPrefix(s, k - 1);
      var a, b := Min((k - 1) * PageSize, |s|), Min(k * PageSize, |s|);
      assert s[..a] + s[a..b] == s[..b];
    }
  }

  /** Pages 1..totalPages put back together give the whole filtered list: no row is lost
      and none is shown twice. */
  lemma PagesReassemble<T>(s: seq<T>)
    ensures Paginate(s, TotalPages(|s|)) == s
  {
    PaginateIsPrefix(s, TotalPages(|s|));
    assert s[..|s|] == s;
  }

  /** Row i of the filtered list is shown on page i / 10 + 1, at position i % 10. */
  lemma RowOnItsPage<T>(s: seq<T>, i: nat)
    requires i < |s|
    ensures 1 <= i / PageSize + 1 <= TotalPages(|s|)
    ensures i % PageSize < |PageSlice(s, i / PageSize + 1)|
    ensures PageSlice(s, i / PageSize + 1)[i % PageSize] == s[i]
  {
    var p := i / PageSize + 1;
    assert (p - 1) * PageSize + i % PageSize == i;
  }

  /** The Previous button's update, `Math.max(prev - 1, 1)`. */
  function Previous(p: int): (r: int)
    ensures r >= 1
    ensures p >= 2 ==> r == p - 1
    ensures p <= 2 ==> r == 1
  {
    Max(p - 1, 1)
  }

  /** The Next button's update, `Math.min(prev + 1, totalPages)`. */
  function Next(p: int, totalPages: nat): (r: int)
    ensures r <= totalPages
    ensures p < totalPages ==> r == p + 1
    ensures p >= totalPages ==> r == totalPages
  {
    Min(p + 1, totalPages)
  }

  /** `disabled={currentPage === 1}` on Previous. */
  predicate PreviousDisabled(p: int)
    ensures PreviousDisabled(p) <==> Previous(p) == p
  {
    p == 1
  }

  /** `disabled={currentPage === totalPages}` on Next. */
  predicate NextDisabled(p: int, totalPages: nat)
    ensures NextDisabled(p, totalPages) <==> Next(p, totalPages) == p
  {
    p == totalPages
  }

  /** Where the page can be while the filtered list has n rows: a real page, or, with no rows
      at all, the initial page 1 or the page 0 that Next reaches on an empty list. */
  predicate PageInRange(p: int, n: nat) {
    if TotalPages(n) == 0 then 0 <= p <= 1 else 1 <= p <= TotalPages(n)
  }

  /** Previous and Next keep a page inside [1, totalPages]; each moves one page when its
      button is enabled, and a click on a disabled button would change nothing anyway. */
  lemma NavigationStaysInRange(p: int, totalPages: nat)
    requires 1 <= p <= totalPages
    ensures 1 <= Previous(p) <= totalPages && 1 <= Next(p, totalPages) <= totalPages
    ensures PreviousDisabled(p) <==> Previous(p) == p
    ensures NextDisabled(p, totalPages) <==> Next(p, totalPages) == p
    ensures !PreviousDisabled(p) ==> Previous(p) == p - 1
    ensures !NextDisabled(p, totalPages) ==> Next(p, totalPages) == p + 1
  {
    if p == 1 {
      assert Previous(p) == p;
    }
    if p == totalPages {
      assert Next(p, totalPages) == p;
    }
  }

  /** Both buttons keep the page where the page may be. */
  lemma NavigationKeepsPageInRange(p: int, n: nat)
    requires PageInRange(p, n)
    ensures PageInRange(Previous(p), n)
    ensures PageInRange(Next(p, TotalPages(n)), n)
  {
  }

  /** With no rows, totalPages is 0, so Next on page 1 is enabled and moves to page 0, where
      `slice(-10, 0)` shows no rows; Previous then brings the page back to 1. */
  lemma EmptyListNextReachesPageZero<T>(s: seq<T>)
    requires s == []
    ensures TotalPages(|s|) == 0
    ensures !NextDisabled(1, TotalPages(|s|)) && Next(1, TotalPages(|s|)) == 0
    ensures PageSlice(s, 0) == [] && Previous(0) == 1
  {
  }
}
