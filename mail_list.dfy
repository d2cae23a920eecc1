/**
 * The mail list's pagination (src/components/mailbox/mail-list.tsx): the
 * page buttons with their ellipses, the "from–to of total" label and the
 * Prev/Next buttons. The server pages by 30 mails.
 */
module MailList {
  const PageSize: int := 30

  /** A page button, or an ellipsis standing for hidden pages. */
  datatype PageItem = Page(n: int) | Ellipsis

  function Max(a: int, b: int): int { if a < b then b else a }
  function Min(a: int, b: int): int { if a < b then a else b }

  /** The buttons lo, lo+1, ..., hi (none when hi < lo). */
  function Run(lo: int, hi: int): (r: seq<PageItem>)
    ensures |r| == if hi < lo then 0 else hi - lo + 1
    ensures forall i :: 0 <= i < |r| ==> r[i] == Page(lo + i)
  {
    seq(if hi < lo then 0 else hi - lo + 1, i => Page(lo + i))
  }

  /**
   * `getPageNumbers(current, total)`: all pages when there are at most five;
   * otherwise the first page, the window current-1..current+1 kept inside
   * 2..total-1, the last page, and an ellipsis on each side of the window
   * that hides pages.
   */
  function PageNumbers(current: int, total: int): seq<PageItem> {
    if total <= 5 then Run(1, total)
    else
      [Page(1)] + (if current > 3 then [Ellipsis] else [])
      + Run(Max(2, current - 1), Min(total - 1, current + 1))
      + (if current < total - 2 then [Ellipsis] else []) + [Page(total)]
  }

  /** `getPageNumbers`, pushing the buttons one by one. */
  method GetPageNumbers(current: int, total: int) returns (pages: seq<PageItem>)
    ensures pages == PageNumbers(current, total)
  {
    if total <= 5 {
      return Run(1, total);
    }
    pages := [Page(1)];
    if current > 3 {
      pages := pages + [Ellipsis];
    }
    var start := Max(2, current - 1);
    var end := Min(total - 1, current + 1);
    ghost var head := pages;
    var i := start;
    while i <= end
      invariant start <= i <= Max(start, end + 1)
      invariant pages == head + Run(start, i - 1)
      decreases end - i
    {
      pages := pages + [Page(i)];
      i := i + 1;
    }
    if current < total - 2 {
      pages := pages + [Ellipsis];
    }
    pages := pages + [Page(total)];
  }

  /** At most five pages are all listed, in order. */
  lemma SmallTotalListsEveryPage(current: int, total: int)
    requires total <= 5
    ensures var r := PageNumbers(current, total);
      && |r| == (if total < 0 then 0 else total)
      && forall i :: 0 <= i < |r| ==> r[i] == Page(i + 1)
  {
  }

  /** The buttons' window when there are more than five pages. */
  function Window(current: int, total: int): seq<PageItem> {
    Run(Max(2, current - 1), Min(total - 1, current + 1))
  }

  /** With more than five pages, the list starts at page 1 and ends at the last page. */
  lemma FirstAndLastShown(current: int, total: int)
    requires total > 5
    ensures var r := PageNumbers(current, total);
      |r| >= 2 && r[0] == Page(1) && r[|r| - 1] == Page(total)
  {
  }

  /**
   * For a page in range, an ellipsis follows page 1 exactly when the current
   * page is past 3, and precedes the last page exactly when the current page
   * is more than two before it.
   */
  lemma EllipsisPlacement(current: int, total: int)
    requires total > 5 && 1 <= current <= total
    ensures var r := PageNumbers(current, total);
      && |r| >= 4
      && (r[1] == Ellipsis <==> current > 3)
      && (r[|r| - 2] == Ellipsis <==> current < total - 2)
  {
    var r := PageNumbers(current, total);
    var a := if current > 3 then [Ellipsis] else [];
    var b := if current < total - 2 then [Ellipsis] else [];
    var w := Window(current, total);
    assert |w| >= 1;
    assert r == [Page(1)] + a + w + b + [Page(total)];
    if current <= 3 {
      assert r[1] == w[0];
    }
    if current >= total - 2 {
      assert r[|r| - 2] == w[|w| - 1];
    }
  }

  /** The page numbers listed are strictly increasing and lie in 1..total, whatever the current page. */
  lemma PagesIncreasingInRange(current: int, total: int)
    ensures var r := PageNumbers(current, total);
      && (forall i :: 0 <= i < |r| && r[i].Page? ==> 1 <= r[i].n <= total)
      && (forall i, j :: 0 <= i < j < |r| && r[i].Page? && r[j].Page? ==> r[i].n < r[j].n)
  {
    if total > 5 {
      var r := PageNumbers(current, total);
      var a := if current > 3 then [Ellipsis] else [];
      var b := if current < total - 2 then [Ellipsis] else [];
      var w := Window(current, total);
      var k := 1 + |a|;
      assert r == [Page(1)] + a + w + b + [Page(total)];
      assert forall i :: k <= i < k + |w| ==> r[i] == Page(Max(2, current - 1) + i - k);
      assert forall i :: 0 <= i < |r| && r[i].Page? ==> i == 0 || k <= i < k + |w| || i == |r| - 1;
    }
  }

  /** The current page, when in range, always has a button. */
  lemma CurrentPageShown(current: int, total: int)
    requires 1 <= current <= total
    ensures Page(current) in PageNumbers(current, total)
  {
    var r := PageNumbers(current, total);
    if total <= 5 {
      assert r[current - 1] == Page(current);
    } else if current == 1 {
      assert r[0] == Page(1);
    } else if current == total {
      assert r[|r| - 1] == Page(total);
    } else {
      var w := Window(current, total);
      assert w[current - Max(2, current - 1)] == Page(current);
      assert r == ([Page(1)] + (if current > 3 then [Ellipsis] else [])) + w
                  + ((if current < total - 2 then [Ellipsis] else []) + [Page(total)]);
    }
  }

  /**
   * For a page in range, no page is lost: neighbouring buttons are
   * consecutive pages, and an ellipsis sits between two buttons and hides
   * at least one page.
   */
  lemma EllipsisHidesPages(current: int, total: int, i: int)
    requires total > 5 && 1 <= current <= total
    requires 0 <= i < |PageNumbers(current, total)| - 1
    ensures var r := PageNumbers(current, total);
      && (r[i].Page? && r[i + 1].Page? ==> r[i + 1].n == r[i].n + 1)
      && (r[i] == Ellipsis ==> i >= 1 && r[i - 1].Page? && r[i + 1].Page? && r[i + 1].n >= r[i - 1].n + 2)
  {
    var r := PageNumbers(current, total);
    var a := if current > 3 then [Ellipsis] else [];
    var b := if current < total - 2 then [Ellipsis] else [];
    var w := Window(current, total);
    var lo, hi := Max(2, current - 1), Min(total - 1, current + 1);
    var k := 1 + |a|;
    assert r == [Page(1)] + a + w + b + [Page(total)];
    assert |w| >= 1;
    assert forall j :: k <= j < k + |w| ==> r[j] == Page(lo + j - k);
    assert r[k] == Page(lo) && r[k + |w| - 1] == Page(hi);
    assert |a| == 0 ==> lo == 2;
    assert |b| == 0 ==> hi == total - 1;
    assert |r| == k + |w| + |b| + 1;
  }

  // ---- The pagination bar ----

  /** The bar is shown when there is more than one page. */
  predicate BarShown(pageCount: int) { pageCount > 1 }

  /** The first mail number of the label. */
  function RangeFrom(pageIndex: int): int { (pageIndex - 1) * PageSize + 1 }

  /** The last mail number of the label: the page's end, or the total on the last page. */
  function RangeTo(pageIndex: int, total: int): int { Min(pageIndex * PageSize, total) }

  predicate PrevDisabled(pageIndex: int) { pageIndex <= 1 }

  predicate NextDisabled(pageIndex: int, pageCount: int) { pageIndex >= pageCount }

  /**
   * A page holding at least one mail is labelled with at most 30 numbers,
   * and the next page's label starts right after this one's.
   */
  lemma RangeLabelTiles(pageIndex: int, total: int)
    requires pageIndex >= 1 && RangeFrom(pageIndex) <= total
    ensures RangeFrom(pageIndex) <= RangeTo(pageIndex, total)
    ensures RangeTo(pageIndex, total) - RangeFrom(pageIndex) + 1 <= PageSize
    ensures RangeTo(pageIndex, total) < total ==> RangeFrom(pageIndex + 1) == RangeTo(pageIndex, total) + 1
    ensures RangeTo(pageIndex, total) == total <==> pageIndex * PageSize >= total
  {
  }

  /**
   * From a page in range, Prev and Next, when enabled, and every page
   * button lead to a page in range.
   */
  lemma NavigationStaysInRange(pageIndex: int, pageCount: int)
    requires 1 <= pageIndex <= pageCount
    ensures !PrevDisabled(pageIndex) ==> 1 <= pageIndex - 1 <= pageCount
    ensures !NextDisabled(pageIndex, pageCount) ==> 1 <= pageIndex + 1 <= pageCount
    ensures PrevDisabled(pageIndex) <==> pageIndex == 1
    ensures NextDisabled(pageIndex, pageCount) <==> pageIndex == pageCount
    ensures forall p :: p in PageNumbers(pageIndex, pageCount) && p.Page? ==> 1 <= p.n <= pageCount
  {
    PagesIncreasingInRange(pageIndex, pageCount);
    var r := PageNumbers(pageIndex, pageCount);
    forall p | p in r && p.Page?
      ensures 1 <= p.n <= pageCount
    {
      var i :| 0 <= i < |r| && r[i] == p;
    }
  }
}
