/**
 * The page-number bar under lists: which page links and ellipses it shows, where the
 * previous and next arrows go, and the URL a page link navigates to.
 */
module Pagination {
  import opened Wrappers
  import opened Text
  import opened UrlQuery

  const MaxVisible := 5
  const PageKey := "page"
  const DefaultBasePath := "/series"

  /** One item of the bar: a page link, or an ellipsis. */
  datatype PageEntry = Page(n: int) | Gap

  function Max(a: int, b: int): int { if a >= b then a else b }
  function Min(a: int, b: int): int { if a <= b then a else b }

  /** The links `lo`, `lo + 1`, ..., `hi`; none when `lo > hi`. */
  function Numbers(lo: int, hi: int): (r: seq<PageEntry>)
    ensures |r| == if lo > hi then 0 else hi - lo + 1
    ensures forall k :: 0 <= k < |r| ==> r[k] == Page(lo + k)
  {
    if lo > hi then [] else seq(hi - lo + 1, k => Page(lo + k))
  }

  lemma NumbersSnoc(lo: int, hi: int)
    requires lo <= hi + 1
    ensures Numbers(lo, hi + 1) == Numbers(lo, hi) + [Page(hi + 1)]
  {
  }

  /** The first page of the window around the current page, and its last. */
  function WindowStart(current: int): int { Max(2, current - 1) }
  function WindowEnd(current: int, total: int): int { Min(total - 1, current + 1) }

  /** The bar for `total` pages around `current`, as the reference the loop is held to. */
  function PageList(current: int, total: int): seq<PageEntry> {
    if total <= MaxVisible then Numbers(1, total)
    else
      [Page(1)] + (if current > 3 then [Gap] else [])
      + Numbers(WindowStart(current), WindowEnd(current, total))
      + (if current < total - 2 then [Gap] else []) + [Page(total)]
  }

  /** The middle loop of `getPageNumbers`: push the window's pages, skipping 1 and the last. */
  method PushWindow(head: seq<PageEntry>, start: int, end: int, total: int) returns (pages: seq<PageEntry>)
    requires 2 <= start && end <= total - 1
    ensures pages == head + Numbers(start, end)
  {
    pages := head;
    var i := start;
    while i <= end
      invariant start <= i <= Max(start, end + 1)
      invariant pages == head + Numbers(start, i - 1)
    {
      NumbersSnoc(start, i - 1);
      if i != 1 && i != total {
        pages := pages + [Page(i)];
      }
      i := i + 1;
    }
  }

  /** `getPageNumbers` */
  method PageNumbers(current: int, total: int) returns (pages: seq<PageEntry>)
    requires total > 1
    ensures pages == PageList(current, total)
  {
    pages := [];
    if total <= MaxVisible {
      var i := 1;
      while i <= total
        invariant 1 <= i <= total + 1
        invariant pages == Numbers(1, i - 1)
      {
        NumbersSnoc(1, i - 1);
        pages := pages + [Page(i)];
        i := i + 1;
      }
    } else {
      pages := pages + [Page(1)];
      if current > 3 {
        pages := pages + [Gap];
      }
      var start := Max(2, current - 1);
      var end := Min(total - 1, current + 1);
      pages := PushWindow(pages, start, end, total);
      if current < total - 2 {
        pages := pages + [Gap];
      }
      if total > 1 {
        pages := pages + [Page(total)];
      }
    }
  }

  // ---------------------------------------------------------------------------------------
  // What the bar shows
  // ---------------------------------------------------------------------------------------

  /** With five pages or fewer, every page is listed, in order, and nothing else. */
  lemma SmallBarListsAll(current: int, total: int)
    requires 1 < total <= MaxVisible
    ensures |PageList(current, total)| == total
    ensures forall k :: 0 <= k < total ==> PageList(current, total)[k] == Page(k + 1)
  {
  }

  /**
   * The entries of a long bar one by one: page 1, an ellipsis when `current > 3`, the window,
   * an ellipsis when `current < total - 2`, and the last page.
   */
  lemma {:induction false} LongBarAt(current: int, total: int, k: int)
    requires total > MaxVisible
    requires 0 <= k < |PageList(current, total)|
    ensures var l := PageList(current, total);
      var g := if current > 3 then 1 else 0;
      var m := |Numbers(WindowStart(current), WindowEnd(current, total))|;
      && |l| == 1 + g + m + (if current < total - 2 then 1 else 0) + 1
      && (k == 0 ==> l[k] == Page(1))
      && (1 <= k < 1 + g ==> l[k] == Gap)
      && (1 + g <= k < 1 + g + m ==> l[k] == Page(WindowStart(current) + k - 1 - g))
      && (1 + g + m <= k < |l| - 1 ==> l[k] == Gap)
      && (k == |l| - 1 ==> l[k] == Page(total))
  {
    var g1: seq<PageEntry> := if current > 3 then [Gap] else [];
    var mid := Numbers(WindowStart(current), WindowEnd(current, total));
    var g2: seq<PageEntry> := if current < total - 2 then [Gap] else [];
    var l := PageList(current, total);
    assert l == [Page(1)] + g1 + mid + g2 + [Page(total)];
    var a := [Page(1)] + g1;
    var b := a + mid;
    var c := b + g2;
    if k < |a| {
      assert l[k] == a[k];
    } else if k < |b| {
      assert l[k] == b[k] == mid[k - |a|];
    } else if k < |c| {
      assert l[k] == c[k] == g2[k - |b|];
    }
  }

  /** The window holds at most three pages, all strictly between the first and the last. */
  lemma WindowBounds(current: int, total: int)
    requires total > MaxVisible
    ensures |Numbers(WindowStart(current), WindowEnd(current, total))| <= 3
    ensures 2 <= WindowStart(current)
    ensures WindowEnd(current, total) <= total - 1
  {
  }

  /** The bar begins with page 1 and ends with the last page, and has at most seven entries. */
  lemma BarEnds(current: int, total: int)
    requires total > 1
    ensures var l := PageList(current, total);
      && 2 <= |l| <= 7 && l[0] == Page(1) && l[|l| - 1] == Page(total)
  {
    if total > MaxVisible {
      var l := PageList(current, total);
      WindowBounds(current, total);
      LongBarAt(current, total, 0);
      LongBarAt(current, total, |l| - 1);
    }
  }

  /**
   * For a current page in range, a long bar has an ellipsis after page 1 exactly when
   * `current > 3`, and one before the last page exactly when `current < total - 2`.
   */
  lemma GapsIff(current: int, total: int)
    requires total > MaxVisible && 1 <= current <= total
    ensures var l := PageList(current, total);
      && |l| >= 3
      && (l[1] == Gap <==> current > 3)
      && (l[|l| - 2] == Gap <==> current < total - 2)
  {
    var l := PageList(current, total);
    WindowBounds(current, total);
    var m := |Numbers(WindowStart(current), WindowEnd(current, total))|;
    LongBarAt(current, total, 1);
    LongBarAt(current, total, |l| - 2);
    assert m >= 1;
  }

  /** The page links are strictly increasing and all between 1 and the last page. */
  lemma PagesIncreasing(current: int, total: int, i: int, j: int)
    requires total > 1
    requires 0 <= i < j < |PageList(current, total)|
    requires PageList(current, total)[i].Page? && PageList(current, total)[j].Page?
    ensures 1 <= PageList(current, total)[i].n < PageList(current, total)[j].n <= total
  {
    if total > MaxVisible {
      WindowBounds(current, total);
      LongBarAt(current, total, i);
      LongBarAt(current, total, j);
    }
  }

  /**
   * The bar leaves no page out silently: two neighbouring links are consecutive pages, and an
   * ellipsis stands between two links and hides at least one page.
   */
  lemma NoSilentSkips(current: int, total: int, k: int)
    requires total > 1
    requires 0 <= k < |PageList(current, total)| - 1
    ensures var l := PageList(current, total);
      && (l[k].Page? && l[k + 1].Page? ==> l[k + 1].n == l[k].n + 1)
      && (l[k + 1].Gap? ==> k + 2 < |l| && l[k].Page? && l[k + 2].Page? && l[k + 2].n > l[k].n + 1)
  {
    if total > MaxVisible {
      var l := PageList(current, total);
      WindowBounds(current, total);
      LongBarAt(current, total, k);
      LongBarAt(current, total, k + 1);
      if k + 2 < |l| {
        LongBarAt(current, total, k + 2);
      }
    }
  }

  /** The current page and its neighbours, when they exist, are always links on the bar. */
  lemma CurrentShown(current: int, total: int, p: int)
    requires total > 1
    requires 1 <= current <= total && 1 <= p <= total && current - 1 <= p <= current + 1
    ensures Page(p) in PageList(current, total)
  {
    var l := PageList(current, total);
    if total > MaxVisible {
      WindowBounds(current, total);
      var g := if current > 3 then 1 else 0;
      var m := |Numbers(WindowStart(current), WindowEnd(current, total))|;
      var k := if p == 1 then 0 else if p == total then |l| - 1 else 1 + g + p - WindowStart(current);
      LongBarAt(current, total, |l| - 1);
      LongBarAt(current, total, k);
      assert l[k] == Page(p);
    } else {
      assert l[p - 1] == Page(p);
    }
  }

  /** The tooltip of an ellipsis. */
  function GapLabel(current: int, total: int): (r: string)
    ensures r == "More pages" <==> total - current - 1 <= 0
  {
    var remaining := total - current - 1;
    if remaining > 0 then IntToString(remaining) + " other pages" else "More pages"
  }

  // ---------------------------------------------------------------------------------------
  // Navigation
  // ---------------------------------------------------------------------------------------

  /** The URL a page link pushes: the current query with `page` set, under the base path. */
  function PageHref(basePath: string, query: string, page: int): string {
    basePath + "?" + Serialize(Set(Parse(query), PageKey, IntToString(page)))
  }

  /**
   * A page change sets only `page`: the new URL reads back the page number, and every other
   * parameter keeps all of its values.
   */
  lemma PageHrefReadBack(basePath: string, query: string, page: int, other: string)
    requires '?' !in basePath
    ensures var ps := Parse(QueryOf(PageHref(basePath, query, page)));
      && Get(ps, PageKey) == Some(IntToString(page))
      && ParseInt(Get(ps, PageKey).value) == Some(page)
      && (other != PageKey ==> Named(ps, other) == Named(Parse(query), other))
  {
    var ps := Set(Parse(query), PageKey, IntToString(page));
    QueryAfterMark(basePath, Serialize(ps));
    ParseSerialize(ps);
    GetSet(Parse(query), PageKey, IntToString(page), other);
    SetSemantics(Parse(query), PageKey, IntToString(page), other);
    ParseIntRoundTrip(page);
  }

  class PaginationBar {
    const currentPage: int
    const totalPages: int
    const basePath: string
    /** `searchParams.toString()` at render time. */
    const query: string
    /** Router pushes, in order. */
    var navigations: seq<string>

    constructor(currentPage: int, totalPages: int, basePath: Option<string>, query: string)
      ensures this.currentPage == currentPage && this.totalPages == totalPages && this.query == query
      ensures this.basePath == basePath.GetOr(DefaultBasePath)
      ensures navigations == []
    {
      this.currentPage := currentPage;
      this.totalPages := totalPages;
      this.basePath := basePath.GetOr(DefaultBasePath);
      this.query := query;
      navigations := [];
    }

    /** The bar renders nothing for a single page. */
    predicate Rendered()
      reads this
    {
      totalPages > 1
    }

    /** `handlePageChange(page)`, reachable only from a rendered bar. */
    method ChangePage(page: int)
      requires Rendered()
      modifies this
      ensures navigations == old(navigations) + [PageHref(basePath, query, page)]
    {
      var params := Parse(query);
      params := Set(params, PageKey, IntToString(page));
      navigations := navigations + [basePath + "?" + Serialize(params)];
    }

    /** The previous arrow moves back one page, except from the first. */
    method Previous()
      requires Rendered()
      modifies this
      ensures navigations == old(navigations)
        + if currentPage > 1 then [PageHref(basePath, query, currentPage - 1)] else []
    {
      if currentPage > 1 {
        ChangePage(currentPage - 1);
      }
    }

    /** The next arrow moves on one page, except from the last. */
    method Next()
      requires Rendered()
      modifies this
      ensures navigations == old(navigations)
        + if currentPage < totalPages then [PageHref(basePath, query, currentPage + 1)] else []
    {
      if currentPage < totalPages {
        ChangePage(currentPage + 1);
      }
    }
  }
}
