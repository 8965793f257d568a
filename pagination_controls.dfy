/**
 * src/components/PaginationControls.jsx: the previous/next handlers and the
 * list of page buttons, with "..." where pages are skipped. The component
 * renders nothing for one page or none; `onPageChange` is the page a handler
 * returns (`None`: not called).
 */
module PaginationControls {
  import opened JsValues

  /** An entry of the button list: a page number or the "..." marker. */
  datatype PageItem = Page(number: int) | Ellipsis

  /** `maxPagesToShow` and `Math.floor(maxPagesToShow / 2)`. */
  const MaxPagesToShow := 5
  const HalfPagesToShow := 2

  /** The component renders its controls only for more than one page. */
  predicate Rendered(totalPages: int)
  {
    totalPages > 1
  }

  /** `handlePrevious`: the page it moves to, if any. */
  function Previous(currentPage: int): (r: Option<int>)
    ensures r.Some? <==> currentPage > 1
    ensures r.Some? ==> r.value == currentPage - 1
  {
    if currentPage > 1 then Some(currentPage - 1) else None
  }

  /** `handleNext`: the page it moves to, if any. */
  function Next(currentPage: int, totalPages: int): (r: Option<int>)
    ensures r.Some? <==> currentPage < totalPages
    ensures r.Some? ==> r.value == currentPage + 1
  {
    if currentPage < totalPages then Some(currentPage + 1) else None
  }

  /** From a real page both handlers reach a real page, and each undoes the other. */
  lemma PreviousNextStayInRange(currentPage: int, totalPages: int)
    requires 1 <= currentPage <= totalPages
    ensures Previous(currentPage).Some? ==> 1 <= Previous(currentPage).value <= totalPages
    ensures Next(currentPage, totalPages).Some? ==> 1 <= Next(currentPage, totalPages).value <= totalPages
    ensures currentPage > 1 ==> Next(Previous(currentPage).value, totalPages) == Some(currentPage)
    ensures currentPage < totalPages ==> Previous(Next(currentPage, totalPages).value) == Some(currentPage)
  {
  }

  function Max(a: int, b: int): int
  {
    if a >= b then a else b
  }

  function Min(a: int, b: int): int
  {
    if a <= b then a else b
  }

  /** The pages `from` to `to`, as buttons; none when `to < from`. */
  function Range(from: int, to: int): (r: seq<PageItem>)
    ensures |r| == if to >= from then to - from + 1 else 0
    ensures forall k :: 0 <= k < |r| ==> r[k] == Page(from + k)
  {
    seq(if to >= from then to - from + 1 else 0, k => Page(from + k))
  }

  /** `startPage` and `endPage` of the middle window, with both of the source's corrections. */
  function Window(currentPage: int, totalPages: int): (int, int)
  {
    var startPage := Max(2, currentPage - HalfPagesToShow);
    var endPage := Min(totalPages - 1, currentPage + HalfPagesToShow);
    var endPage' := if currentPage - HalfPagesToShow <= 2 then Min(totalPages - 1, 1 + MaxPagesToShow - 1) else endPage;
    var startPage' :=
      if currentPage + HalfPagesToShow >= totalPages - 1 then Max(2, totalPages - MaxPagesToShow + 1) else startPage;
    (startPage', endPage')
  }

  /** What `getPageNumbers` returns. */
  function PageNumbers(currentPage: int, totalPages: int): seq<PageItem>
  {
    if totalPages <= MaxPagesToShow + 2 then Range(1, totalPages)
    else
      var (startPage, endPage) := Window(currentPage, totalPages);
      [Page(1)]
        + (if startPage > 2 then [Ellipsis] else [])
        + Range(startPage, endPage)
        + (if endPage < totalPages - 1 then [Ellipsis] else [])
        + [Page(totalPages)]
  }

  /**
   * Beyond seven pages the window lies within 2 .. totalPages - 1, holds four
   * or five pages, and contains the current page whenever that is strictly
   * between the first and the last.
   */
  lemma WindowBounds(currentPage: int, totalPages: int)
    requires totalPages > MaxPagesToShow + 2
    ensures var (startPage, endPage) := Window(currentPage, totalPages);
      && 2 <= startPage <= endPage <= totalPages - 1
      && 4 <= endPage - startPage + 1 <= MaxPagesToShow
      && (1 < currentPage < totalPages ==> startPage <= currentPage <= endPage)
  {
  }

  /** Each entry of the list beyond seven pages, by its index. */
  lemma {:induction false} LargePageNumbersAt(currentPage: int, totalPages: int)
    requires totalPages > MaxPagesToShow + 2
    ensures var (s, e) := Window(currentPage, totalPages);
      var o := if s > 2 then 2 else 1;
      var m := o + e - s + 1;
      var r := PageNumbers(currentPage, totalPages);
      && |r| == m + (if e < totalPages - 1 then 1 else 0) + 1
      && forall i :: 0 <= i < |r| ==>
        r[i] == if i == 0 then Page(1)
          else if i < o then Ellipsis
          else if i < m then Page(s + i - o)
          else if i < |r| - 1 then Ellipsis
          else Page(totalPages)
  {
    WindowBounds(currentPage, totalPages);
    var (s, e) := Window(currentPage, totalPages);
    var head := [Page(1)] + (if s > 2 then [Ellipsis] else []);
    var tail := (if e < totalPages - 1 then [Ellipsis] else []) + [Page(totalPages)];
    var r := PageNumbers(currentPage, totalPages);
    assert r == head + Range(s, e) + tail;
  }

  /** Up to seven pages, the list is every page in order. */
  lemma SmallPageNumbers(currentPage: int, totalPages: int)
    requires 1 <= totalPages <= MaxPagesToShow + 2
    ensures var r := PageNumbers(currentPage, totalPages);
      && |r| == totalPages && (forall i :: 0 <= i < |r| ==> r[i] == Page(i + 1))
      && (1 <= currentPage <= totalPages ==> Page(currentPage) in r)
  {
    var r := PageNumbers(currentPage, totalPages);
    if 1 <= currentPage <= totalPages {
      assert r[currentPage - 1] == Page(currentPage);
    }
  }

  /**
   * Beyond seven pages: the list starts with page 1 and ends with the last
   * page, its pages are strictly increasing and real, neighbouring pages are
   * consecutive, "..." stands exactly between two pages that are not, it
   * shows at most seven pages, and the current page is among them when it is
   * a real page.
   */
  lemma LargePageNumbers(currentPage: int, totalPages: int)
    requires totalPages > MaxPagesToShow + 2
    ensures var r := PageNumbers(currentPage, totalPages);
      && r[0] == Page(1) && r[|r| - 1] == Page(totalPages)
      && |r| <= MaxPagesToShow + 4
      && (forall i :: 0 <= i < |r| && r[i].Page? ==> 1 <= r[i].number <= totalPages)
      && (forall i, j :: 0 <= i < j < |r| && r[i].Page? && r[j].Page? ==> r[i].number < r[j].number)
      && (forall i :: 0 <= i < |r| - 1 && r[i].Page? && r[i + 1].Page? ==> r[i + 1].number == r[i].number + 1)
      && (forall i :: 0 <= i < |r| && r[i].Ellipsis? ==>
        0 < i < |r| - 1 && r[i - 1].Page? && r[i + 1].Page? && r[i + 1].number > r[i - 1].number + 1)
      && (1 <= currentPage <= totalPages ==> Page(currentPage) in r)
  {
    WindowBounds(currentPage, totalPages);
    LargePageNumbersAt(currentPage, totalPages);
    var (s, e) := Window(currentPage, totalPages);
    var o := if s > 2 then 2 else 1;
    var r := PageNumbers(currentPage, totalPages);
    if currentPage == 1 {
      assert r[0] == Page(currentPage);
    } else if currentPage == totalPages {
      assert r[|r| - 1] == Page(currentPage);
    } else if 1 < currentPage < totalPages {
      assert r[o + currentPage - s] == Page(currentPage);
    }
  }

  /**
   * For the page counts the component renders, the list starts with page 1,
   * ends with the last page, and shows every page when there are at most
   * seven; see `LargePageNumbers` for the rest.
   */
  lemma PageNumbersEnds(currentPage: int, totalPages: int)
    requires totalPages >= 1
    ensures var r := PageNumbers(currentPage, totalPages);
      && r != [] && r[0] == Page(1) && r[|r| - 1] == Page(totalPages)
      && (1 <= currentPage <= totalPages ==> Page(currentPage) in r)
  {
    if totalPages > MaxPagesToShow + 2 {
      LargePageNumbers(currentPage, totalPages);
    } else {
      SmallPageNumbers(currentPage, totalPages);
    }
  }

  /** The `for (let i = from; i <= to; i++) pageNumbers.push(i)` loop of `getPageNumbers`. */
  method PushPages(pageNumbers: seq<PageItem>, from: int, to: int) returns (result: seq<PageItem>)
    ensures result == pageNumbers + Range(from, to)
  {
    result := pageNumbers;
    var i := from;
    while i <= to
      invariant from <= i <= Max(to, from - 1) + 1
      invariant result == pageNumbers + Range(from, i - 1)
    {
      result := result + [Page(i)];
      i := i + 1;
    }
  }

  /** `getPageNumbers`. */
  method GetPageNumbers(currentPage: int, totalPages: int) returns (pageNumbers: seq<PageItem>)
    ensures pageNumbers == PageNumbers(currentPage, totalPages)
  {
    pageNumbers := [];
    if totalPages <= MaxPagesToShow + 2 {
      pageNumbers := PushPages(pageNumbers, 1, totalPages);
    } else {
      pageNumbers := pageNumbers + [Page(1)];
      var startPage := Max(2, currentPage - HalfPagesToShow);
      var endPage := Min(totalPages - 1, currentPage + HalfPagesToShow);
      if currentPage - HalfPagesToShow <= 2 {
        endPage := Min(totalPages - 1, 1 + MaxPagesToShow - 1);
      }
      if currentPage + HalfPagesToShow >= totalPages - 1 {
        startPage := Max(2, totalPages - MaxPagesToShow + 1);
      }
      assert (startPage, endPage) == Window(currentPage, totalPages);
      if startPage > 2 {
        pageNumbers := pageNumbers + [Ellipsis];
      }
      pageNumbers := PushPages(pageNumbers, startPage, endPage);
      if endPage < totalPages - 1 {
        pageNumbers := pageNumbers + [Ellipsis];
      }
      pageNumbers := pageNumbers + [Page(totalPages)];
    }
  }

  /** What the component renders: nothing, or the button list. */
  function Controls(currentPage: int, totalPages: int): (r: Option<seq<PageItem>>)
    ensures r.None? <==> !Rendered(totalPages)
    ensures r.Some? ==> r.value == PageNumbers(currentPage, totalPages)
  {
    if totalPages <= 1 then None else Some(PageNumbers(currentPage, totalPages))
  }
}
