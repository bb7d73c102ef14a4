/**
 * The pagination control under the course list: a window of at most three
 * consecutive page links, an ellipsis, and the Previous/Next buttons. Both list
 * views compute it with the same expressions.
 */
module Pagination {

  function Min(a: int, b: int): (m: int) {
    if a <= b then a else b
  }

  /**
   * `Math.floor((page - 1) / 3) * 3 + 1`: the first page of the block of three
   * that holds `page`. With a positive divisor, Dafny's `/` on int rounds down
   * like `Math.floor`, also for the non-positive pages an unclamped page change
   * can produce.
   */
  function BlockStart(page: int): (start: int)
    ensures start <= page <= start + 2
    ensures (start - 1) % 3 == 0
  {
    (page - 1) / 3 * 3 + 1
  }

  /** The page numbers `getPaginationRange(page, totalPages)` returns. */
  function PaginationWindow(page: int, totalPages: int): (w: seq<int>)
  {
    var start := BlockStart(page);
    var end := Min(start + 2, totalPages);
    seq(if end < start then 0 else end - start + 1, k => start + k)
  }

  /** `getPaginationRange`: push start, start + 1, ... while not past `min(start + 2, totalPages)`. */
  method GetPaginationRange(page: int, totalPages: int) returns (range: seq<int>)
    ensures range == PaginationWindow(page, totalPages)
  {
    var start := BlockStart(page);
    var end := Min(start + 2, totalPages);
    range := [];
    var i := start;
    while i <= end
      invariant start <= i && (i <= end + 1 || i == start)
      invariant |range| == i - start
      invariant forall k :: 0 <= k < |range| ==> range[k] == start + k
    {
      range := range + [i];
      i := i + 1;
    }
  }

  /** The window holds consecutive page numbers from the block start, at most three, none past the last page. */
  lemma WindowShape(page: int, totalPages: int)
    ensures var w := PaginationWindow(page, totalPages);
      && |w| <= 3
      && (forall k :: 0 <= k < |w| ==> w[k] == BlockStart(page) + k && w[k] <= totalPages)
  {
  }

  /** A page number is in the window exactly when it is in the current block and not past the last page. */
  lemma WindowMembership(page: int, totalPages: int, n: int)
    ensures n in PaginationWindow(page, totalPages)
        <==> BlockStart(page) <= n <= BlockStart(page) + 2 && n <= totalPages
  {
    var w := PaginationWindow(page, totalPages);
    if BlockStart(page) <= n <= BlockStart(page) + 2 && n <= totalPages {
      assert w[n - BlockStart(page)] == n;
    }
  }

  /** The window is empty exactly when the block starts past the last page (page 4 of 3, say). */
  lemma WindowEmpty(page: int, totalPages: int)
    ensures PaginationWindow(page, totalPages) == [] <==> BlockStart(page) > totalPages
  {
  }

  /** The current page is among the links exactly when it is not past the last page. */
  lemma WindowContainsPage(page: int, totalPages: int)
    ensures page in PaginationWindow(page, totalPages) <==> page <= totalPages
  {
    WindowMembership(page, totalPages, page);
  }

  /** `showPaginationEllipsis`: more than three pages, and the last page is more than two past this one. */
  function ShowPaginationEllipsis(page: int, totalPages: int): (shown: bool)
    ensures shown ==> totalPages > 3 && page < totalPages
    ensures shown ==> |PaginationWindow(page, totalPages)| == 3 && PaginationWindow(page, totalPages)[2] < totalPages
  {
    totalPages > 3 && page + 2 < totalPages
  }

  /** When the ellipsis shows, the window is full and pages exist past its last link. */
  lemma EllipsisMeansHiddenPages(page: int, totalPages: int)
    requires ShowPaginationEllipsis(page, totalPages)
    ensures var w := PaginationWindow(page, totalPages);
      |w| == 3 && w[2] < totalPages
  {
  }

  /**
   * The ellipsis follows the page, not the block: on page 5 of 7 the window is
   * [4, 5, 6], page 7 is not linked, and no ellipsis shows.
   */
  lemma HiddenPagesWithoutEllipsis()
    ensures PaginationWindow(5, 7) == [4, 5, 6]
    ensures !ShowPaginationEllipsis(5, 7)
  {
  }

  /** Worked examples: page 4 of 10, page 1 of 2, and page 4 of 3. */
  lemma WindowExamples()
    ensures PaginationWindow(4, 10) == [4, 5, 6] && ShowPaginationEllipsis(4, 10)
    ensures PaginationWindow(1, 2) == [1, 2] && !ShowPaginationEllipsis(1, 2)
    ensures PaginationWindow(4, 3) == []
  {
  }

  /** Previous is dimmed and ignores pointer events (`pointer-events-none`) on the first page and before it. */
  function PreviousDisabled(page: int): (disabled: bool)
    ensures disabled <==> page - 1 < 1
  {
    page <= 1
  }

  /** Next is dimmed and ignores pointer events (`pointer-events-none`) on the last page and past it. */
  function NextDisabled(page: int, totalPages: int): (disabled: bool)
    ensures disabled <==> page + 1 > totalPages
  {
    page >= totalPages
  }

  datatype PageLink = PageLink(number: int, isActive: bool)

  /** What the pagination control renders, from left to right. */
  datatype Bar = Bar(previousDisabled: bool, links: seq<PageLink>, ellipsis: bool, nextDisabled: bool)

  /** `paginationRange.map(...)`: one link per page number, active when it is the current page. */
  function Links(range: seq<int>, page: int): (links: seq<PageLink>)
    ensures |links| == |range|
    ensures forall k :: 0 <= k < |range| ==> links[k].number == range[k] && (links[k].isActive <==> range[k] == page)
  {
    if range == [] then [] else [PageLink(range[0], range[0] == page)] + Links(range[1..], page)
  }

  /** The number of links rendered as active. */
  function ActiveCount(links: seq<PageLink>): (n: nat)
  {
    if links == [] then 0 else (if links[0].isActive then 1 else 0) + ActiveCount(links[1..])
  }

  function BarOf(page: int, totalPages: int): (bar: Bar)
  {
    Bar(PreviousDisabled(page),
        Links(PaginationWindow(page, totalPages), page),
        ShowPaginationEllipsis(page, totalPages),
        NextDisabled(page, totalPages))
  }

  predicate StrictlyIncreasing(s: seq<int>) {
    forall i, j :: 0 <= i < j < |s| ==> s[i] < s[j]
  }

  /** Over distinct ascending page numbers, at most one link is active, and one is exactly when the page is listed. */
  lemma {:induction false} ActiveCountOfIncreasing(range: seq<int>, page: int)
    requires StrictlyIncreasing(range)
    ensures ActiveCount(Links(range, page)) == if page in range then 1 else 0
  {
    if range != [] {
      var links := Links(range, page);
      assert links[1..] == Links(range[1..], page);
      ActiveCountOfIncreasing(range[1..], page);
      if range[0] == page {
        assert page !in range[1..];
      } else {
        assert page in range <==> page in range[1..];
      }
    }
  }

  /** Exactly one link is active when the page is not past the last page, and none otherwise. */
  lemma ExactlyOneActiveLink(page: int, totalPages: int)
    ensures ActiveCount(BarOf(page, totalPages).links) == if page <= totalPages then 1 else 0
  {
    ActiveCountOfIncreasing(PaginationWindow(page, totalPages), page);
    WindowContainsPage(page, totalPages);
  }

  /**
   * From a page in 1..totalPages, every control that takes a click (Previous
   * and Next when not disabled, and every page link) leads to a page in 1..totalPages.
   */
  lemma EnabledControlsStayInRange(page: int, totalPages: int)
    requires 1 <= page <= totalPages
    ensures !BarOf(page, totalPages).previousDisabled ==> 1 <= page - 1 <= totalPages
    ensures !BarOf(page, totalPages).nextDisabled ==> 1 <= page + 1 <= totalPages
    ensures forall l :: l in BarOf(page, totalPages).links ==> 1 <= l.number <= totalPages
  {
  }
}
