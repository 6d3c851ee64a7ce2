/**
 * `generatePages` of the pagination bar: the list of page numbers and
 * ellipses shown for `totalPages` pages when `currentPage` is selected.
 */
module Pagination {

  datatype PageItem = Page(number: int) | Ellipsis

  /**
   * The window the component describes case by case: all pages when there
   * are at most seven; otherwise the first four, the last four, or the
   * current page with its two neighbours, framed by the first and the last
   * page and an ellipsis for every run of hidden pages.
   */
  function Window(totalPages: int, currentPage: int): seq<PageItem>
  {
    if totalPages <= 7 then
      seq(if totalPages < 0 then 0 else totalPages, k => Page(k + 1))
    else if currentPage <= 3 then
      [Page(1), Page(2), Page(3), Page(4), Ellipsis, Page(totalPages)]
    else if currentPage >= totalPages - 2 then
      [Page(1), Ellipsis, Page(totalPages - 3), Page(totalPages - 2), Page(totalPages - 1), Page(totalPages)]
    else
      [Page(1), Ellipsis, Page(currentPage - 1), Page(currentPage), Page(currentPage + 1), Ellipsis, Page(totalPages)]
  }

  /** `arr.indexOf(x)`: the first position of `x`, or -1. */
  function IndexOf(s: seq<PageItem>, x: PageItem): (k: int)
    ensures -1 <= k < |s|
    ensures k == -1 <==> x !in s
    ensures 0 <= k ==> s[k] == x && forall j :: 0 <= j < k ==> s[j] != x
  {
    if s == [] then -1
    else if s[0] == x then 0
    else var k := IndexOf(s[1..], x); if k == -1 then -1 else k + 1
  }

  /** Page numbers in `[1, totalPages]`, each shown once. */
  predicate DistinctInRange(s: seq<PageItem>, totalPages: int)
  {
    && (forall k :: 0 <= k < |s| && s[k].Page? ==> 1 <= s[k].number <= totalPages)
    && (forall j, k :: 0 <= j < k < |s| && s[k].Page? ==> s[j] != s[k])
  }

  /** The test the `filter` callback applies to the entry at `index`. */
  predicate KeepsEntry(pages: seq<PageItem>, totalPages: int, index: nat)
    requires index < |pages|
  {
    pages[index].Ellipsis?
    || (1 <= pages[index].number <= totalPages && IndexOf(pages, pages[index]) == index)
  }

  /** What `filter` returns on the first `n` entries. */
  function FilteredPrefix(pages: seq<PageItem>, totalPages: int, n: nat): seq<PageItem>
    requires n <= |pages|
  {
    if n == 0 then []
    else
      var kept := if KeepsEntry(pages, totalPages, n - 1) then [pages[n - 1]] else [];
      FilteredPrefix(pages, totalPages, n - 1) + kept
  }

  function Filtered(pages: seq<PageItem>, totalPages: int): seq<PageItem>
  {
    FilteredPrefix(pages, totalPages, |pages|)
  }

  /** The kept entries of a prefix come from that prefix. */
  lemma {:induction false} FilteredPrefixFrom(pages: seq<PageItem>, totalPages: int, n: nat)
    requires n <= |pages|
    ensures forall x :: x in FilteredPrefix(pages, totalPages, n) ==> x in pages[..n]
  {
    if n > 0 {
      FilteredPrefixFrom(pages, totalPages, n - 1);
      assert pages[..n] == pages[..n - 1] + [pages[n - 1]];
    }
  }

  /** Whatever the list, the `filter` leaves only real pages, each at most once. */
  lemma {:induction false} FilteredDistinctInRange(pages: seq<PageItem>, totalPages: int, n: nat)
    requires n <= |pages|
    ensures DistinctInRange(FilteredPrefix(pages, totalPages, n), totalPages)
  {
    if n > 0 {
      FilteredDistinctInRange(pages, totalPages, n - 1);
      FilteredPrefixFrom(pages, totalPages, n - 1);
      var before := FilteredPrefix(pages, totalPages, n - 1);
      if KeepsEntry(pages, totalPages, n - 1) && pages[n - 1].Page? {
        var x := pages[n - 1];
        assert IndexOf(pages, x) == n - 1;
        assert x !in pages[..n - 1];
        assert x !in before;
        var after := before + [x];
        forall j, k | 0 <= j < k < |after| && after[k].Page?
          ensures after[j] != after[k]
        {
          if k == |after| - 1 {
            assert after[j] in before;
          } else {
            assert after[j] == before[j] && after[k] == before[k];
          }
        }
      }
    }
  }

  /** On a list whose page numbers are already distinct and in range, the `filter` keeps everything. */
  lemma {:induction false} FilterKeepsDistinct(pages: seq<PageItem>, totalPages: int, n: nat)
    requires n <= |pages|
    requires DistinctInRange(pages, totalPages)
    ensures FilteredPrefix(pages, totalPages, n) == pages[..n]
  {
    if n > 0 {
      FilterKeepsDistinct(pages, totalPages, n - 1);
      assert pages[..n] == pages[..n - 1] + [pages[n - 1]];
      if pages[n - 1].Page? {
        assert IndexOf(pages, pages[n - 1]) == n - 1;
      }
    }
  }

  /** `pages.filter(...)` of the source, index by index. */
  method FilterPages(pages: seq<PageItem>, totalPages: int) returns (kept: seq<PageItem>)
    ensures kept == Filtered(pages, totalPages)
  {
    kept := [];
    var index := 0;
    while index < |pages|
      invariant 0 <= index <= |pages|
      invariant kept == FilteredPrefix(pages, totalPages, index)
    {
      var page := pages[index];
      if page.Ellipsis? || (1 <= page.number <= totalPages && IndexOf(pages, page) == index) {
        kept := kept + [page];
      }
      index := index + 1;
    }
  }

  lemma WindowDistinctInRange(totalPages: int, currentPage: int)
    requires totalPages > 7
    ensures DistinctInRange(Window(totalPages, currentPage), totalPages)
  {
  }

  /** The `push` calls of the three cases, for more than seven pages. */
  method PushCandidates(totalPages: int, currentPage: int) returns (pages: seq<PageItem>)
    requires totalPages > 7
    ensures pages == Window(totalPages, currentPage)
  {
    pages := [];
    pages := pages + [Page(1)];
    if currentPage <= 3 {
      pages := pages + [Page(2), Page(3), Page(4)];
      if totalPages > 5 {
        pages := pages + [Ellipsis];
      }
      if totalPages > 4 {
        pages := pages + [Page(totalPages)];
      }
    } else if currentPage >= totalPages - 2 {
      if totalPages > 4 {
        pages := pages + [Ellipsis];
      }
      pages := pages + [Page(totalPages - 3), Page(totalPages - 2), Page(totalPages - 1), Page(totalPages)];
    } else {
      pages := pages + [Ellipsis];
      pages := pages + [Page(currentPage - 1), Page(currentPage), Page(currentPage + 1)];
      pages := pages + [Ellipsis];
      pages := pages + [Page(totalPages)];
    }
  }

  /**
   * The routine as written: the early return for short lists, the pushes of
   * the three cases, and the `filter` that drops out-of-range and repeated
   * page numbers (which, as proved here, drops nothing).
   */
  method GeneratePages(totalPages: int, currentPage: int) returns (result: seq<PageItem>)
    ensures result == Window(totalPages, currentPage)
  {
    if totalPages <= 7 {
      return seq(if totalPages < 0 then 0 else totalPages, k => Page(k + 1));
    }
    var pages := PushCandidates(totalPages, currentPage);
    result := FilterPages(pages, totalPages);
    WindowDistinctInRange(totalPages, currentPage);
    FilterKeepsDistinct(pages, totalPages, |pages|);
    assert pages[..|pages|] == pages;
  }

  /** Up to seven pages are all listed, in order. */
  lemma SmallTotalListsEveryPage(totalPages: int, currentPage: int)
    requires totalPages <= 7
    ensures |Window(totalPages, currentPage)| == if totalPages < 0 then 0 else totalPages
    ensures forall k :: 0 <= k < |Window(totalPages, currentPage)| ==> Window(totalPages, currentPage)[k] == Page(k + 1)
  {
  }

  /** Never more than seven entries. */
  lemma WindowBounded(totalPages: int, currentPage: int)
    ensures |Window(totalPages, currentPage)| <= 7
  {
  }

  /** Beyond seven pages, the list starts at page 1 and ends at the last page. */
  lemma WindowFramed(totalPages: int, currentPage: int)
    requires totalPages > 7
    ensures var w := Window(totalPages, currentPage);
      |w| >= 2 && w[0] == Page(1) && w[|w| - 1] == Page(totalPages)
  {
  }

  /** Every page number shown is a real page. */
  lemma WindowInRange(totalPages: int, currentPage: int)
    ensures var w := Window(totalPages, currentPage);
      forall k :: 0 <= k < |w| && w[k].Page? ==> 1 <= w[k].number <= totalPages
  {
  }

  /** Page numbers increase strictly from left to right, so none repeats. */
  lemma WindowIncreasing(totalPages: int, currentPage: int)
    ensures var w := Window(totalPages, currentPage);
      forall j, k :: 0 <= j < k < |w| && w[j].Page? && w[k].Page? ==> w[j].number < w[k].number
  {
  }

  /** A selected page that exists is always shown. */
  lemma WindowShowsCurrent(totalPages: int, currentPage: int)
    requires 1 <= currentPage <= totalPages
    ensures Page(currentPage) in Window(totalPages, currentPage)
  {
    var w := Window(totalPages, currentPage);
    if totalPages <= 7 {
      assert w[currentPage - 1] == Page(currentPage);
    }
  }

  /**
   * Only hidden pages are elided: neighbouring page numbers are consecutive,
   * and an ellipsis stands between two pages with at least one page hidden
   * between them.
   */
  lemma WindowGapsAreReal(totalPages: int, currentPage: int)
    ensures var w := Window(totalPages, currentPage);
      forall k :: 0 <= k < |w| - 1 && w[k].Page? && w[k + 1].Page? ==> w[k + 1].number == w[k].number + 1
    ensures var w := Window(totalPages, currentPage);
      forall k :: 0 <= k < |w| && w[k] == Ellipsis ==>
        0 < k < |w| - 1 && w[k - 1].Page? && w[k + 1].Page? && w[k + 1].number > w[k - 1].number + 1
  {
  }

  /** In the middle case, the current page sits between its two neighbours. */
  lemma MiddleShape(totalPages: int, currentPage: int)
    requires totalPages > 7 && 3 < currentPage < totalPages - 2
    ensures Window(totalPages, currentPage) ==
      [Page(1), Ellipsis, Page(currentPage - 1), Page(currentPage), Page(currentPage + 1), Ellipsis, Page(totalPages)]
  {
  }
}
