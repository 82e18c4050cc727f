/** Pager.cs: the page count of a list and the window of at most ten page
    links around the current page.

    The constructor computes in C#'s 32-bit `int` with unchecked arithmetic.
    NewPagerAsWritten follows it operation by operation, wrap-around included;
    NewPager computes the same window in exact arithmetic, which is what the
    constructor evidently intends, and is what the catalog uses. The two agree
    on every page number whose neighbours page - 5 and page + 4 fit in an int. */
module Pager {
  import opened Int32
  import opened Collections

  datatype Pager = Pager(
    totalItems: int,
    currentPage: int,
    pageSize: int,
    totalPages: int,
    startPage: int,
    endPage: int)

  /** Math.Ceiling of the exact quotient a / b (decimal division of two ints is
      exact enough for the ceiling to be the true one). */
  function CeilDiv(a: int, b: int): (r: int)
    requires b != 0
  {
    if b > 0 then -((-a) / b) else -(a / (-b))
  }

  /** The ceiling is the least whole number of b-sized steps covering a. */
  lemma CeilDivBounds(a: int, b: int)
    requires b != 0
    ensures b > 0 ==> (CeilDiv(a, b) - 1) * b < a <= CeilDiv(a, b) * b
    ensures b < 0 ==> CeilDiv(a, b) * b <= a < (CeilDiv(a, b) - 1) * b
  {
    if b > 0 {
      var q := (-a) / b;
      assert q * b <= -a < q * b + b;
      assert CeilDiv(a, b) * b == -(q * b);
      assert (CeilDiv(a, b) - 1) * b == -(q * b) - b;
    } else {
      var q := a / (-b);
      assert q * (-b) <= a < q * (-b) - b;
      assert CeilDiv(a, b) * b == q * (-b);
      assert (CeilDiv(a, b) - 1) * b == q * (-b) - b;
    }
  }

  lemma MulAtLeast(q: int, d: int)
    requires d >= 1
    ensures q >= 0 ==> q * d >= q
    ensures q < 0 ==> q * d <= q
  {
  }

  lemma MulMonotone(a: int, b: int, d: int)
    requires d >= 1 && a <= b
    ensures a * d <= b * d
  {
  }

  /** The quotient q of x by d >= 1 lies between 0 and x. */
  lemma QuotientBetween(x: int, d: int, q: int)
    requires d >= 1 && q * d <= x < q * d + d
    ensures x >= 0 ==> 0 <= q <= x
    ensures x < 0 ==> x <= q < 0
  {
    MulAtLeast(q, d);
    if x >= 0 {
      if q < 0 {
        MulMonotone(q, -1, d);
        assert false;
      }
    } else {
      if q < x {
        MulMonotone(q, x - 1, d);
        MulAtLeast(x, d);
        assert false;
      }
    }
  }

  lemma DivBetween(x: int, d: int)
    requires d >= 1
    ensures x >= 0 ==> 0 <= x / d <= x
    ensures x < 0 ==> x <= x / d < 0
  {
    QuotientBetween(x, d, x / d);
  }

  /** int.MinValue divided by any d in 2 .. 2147483648 is above int.MinValue. */
  lemma MinDivAbove(d: int)
    requires 2 <= d <= -MinInt32
    ensures MinInt32 / d > MinInt32
  {
    var q := MinInt32 / d;
    assert q * d <= MinInt32 < q * d + d;
    MulAtLeast(q, d);
    MulAtLeast(q, d - 1);
  }

  /** The page count fits in an int except for int.MinValue items on pages of
      size -1, where the conversion (int) of the decimal 2147483648 throws. */
  lemma CeilDivInt32(a: int, b: int)
    requires IsInt32(a) && IsInt32(b) && b != 0
    ensures IsInt32(CeilDiv(a, b)) <==> !(a == MinInt32 && b == -1)
  {
    if b > 0 {
      DivBetween(-a, b);
    } else {
      DivBetween(a, -b);
      if a == MinInt32 && b != -1 {
        MinDivAbove(-b);
      }
    }
  }

  /** The window as the constructor computes it, on exact integers. */
  function Window(totalPages: int, page: int): (w: (int, int)) {
    var startPage, endPage := page - 5, page + 4;
    var endPage := if startPage <= 0 then endPage - (startPage - 1) else endPage;
    var startPage := if startPage <= 0 then 1 else startPage;
    if endPage > totalPages then
      (if totalPages > 10 then totalPages - 9 else startPage, totalPages)
    else (startPage, endPage)
  }

  /** The window as the constructor computes it, each step wrapped to an int. */
  function WindowAsWritten(totalPages: int, page: int): (w: (int, int)) {
    var startPage, endPage := Wrap32(page - 5), Wrap32(page + 4);
    var endPage := if startPage <= 0 then Wrap32(endPage - Wrap32(startPage - 1)) else endPage;
    var startPage := if startPage <= 0 then 1 else startPage;
    if endPage > totalPages then
      (if totalPages > 10 then Wrap32(totalPages - 9) else startPage, totalPages)
    else (startPage, endPage)
  }

  /** new Pager(totalItems, page, pageSize), in exact arithmetic: None when
      the constructor throws (a page size of 0 divides by zero; a page count
      beyond int overflows the conversion). */
  function NewPager(totalItems: int, page: int, pageSize: int): (r: Option<Pager>)
    requires IsInt32(totalItems) && IsInt32(page) && IsInt32(pageSize)
    ensures r.None? <==> pageSize == 0 || (totalItems == MinInt32 && pageSize == -1)
    ensures r.Some? ==> r.value.totalItems == totalItems && r.value.currentPage == page && r.value.pageSize == pageSize
    ensures r.Some? ==> r.value.totalPages == CeilDiv(totalItems, pageSize)
  {
    if pageSize == 0 then None
    else
      CeilDivInt32(totalItems, pageSize);
      var totalPages := CeilDiv(totalItems, pageSize);
      if !IsInt32(totalPages) then None
      else
        var (startPage, endPage) := Window(totalPages, page);
        Some(Pager(totalItems, page, pageSize, totalPages, startPage, endPage))
  }

  /** new Pager(totalItems, page, pageSize) as written, wrap-around included. */
  function NewPagerAsWritten(totalItems: int, page: int, pageSize: int): (r: Option<Pager>)
    requires IsInt32(totalItems) && IsInt32(page) && IsInt32(pageSize)
    ensures r.None? <==> pageSize == 0 || (totalItems == MinInt32 && pageSize == -1)
  {
    if pageSize == 0 then None
    else
      CeilDivInt32(totalItems, pageSize);
      var totalPages := CeilDiv(totalItems, pageSize);
      if !IsInt32(totalPages) then None
      else
        var (startPage, endPage) := WindowAsWritten(totalPages, page);
        Some(Pager(totalItems, page, pageSize, totalPages, startPage, endPage))
  }

  /** The window starts at page 1 or later, ends at the last page or earlier,
      holds at most ten links, and every page field fits in an int. */
  lemma WindowBounds(totalPages: int, page: int)
    requires IsInt32(totalPages) && IsInt32(page)
    ensures Window(totalPages, page).0 >= 1
    ensures Window(totalPages, page).1 <= totalPages
    ensures Window(totalPages, page).1 - Window(totalPages, page).0 <= 9
    ensures IsInt32(Window(totalPages, page).0) && IsInt32(Window(totalPages, page).1)
  {
  }

  /** Every page of the list lies in its own window. */
  lemma WindowContainsPage(totalPages: int, page: int)
    requires 1 <= page <= totalPages
    ensures Window(totalPages, page).0 <= page <= Window(totalPages, page).1
  {
  }

  /** The first five pages of a list of ten pages or more show links 1 to 10. */
  lemma FirstWindow(totalPages: int, page: int)
    requires page <= 5 && totalPages >= 10
    ensures Window(totalPages, page) == (1, 10)
  {
  }

  /** The written window keeps its bounds whatever the page number. */
  lemma WindowAsWrittenBounds(totalPages: int, page: int)
    requires IsInt32(totalPages) && IsInt32(page)
    ensures WindowAsWritten(totalPages, page).0 >= 1
    ensures WindowAsWritten(totalPages, page).1 <= totalPages
    ensures WindowAsWritten(totalPages, page).1 - WindowAsWritten(totalPages, page).0 <= 9
  {
  }

  /** Where page - 5 and page + 4 fit in an int, the written window is the
      exact one. */
  lemma WindowAsWrittenAgrees(totalPages: int, page: int)
    requires IsInt32(totalPages) && MinInt32 + 5 <= page <= MaxInt32 - 4
    ensures WindowAsWritten(totalPages, page) == Window(totalPages, page)
  {
  }

  /** On the last pages of a list of int.MaxValue pages, page + 4 wraps to a
      negative end, and the current page falls outside its own window. */
  lemma WindowAsWrittenMissesPage()
    ensures var w := WindowAsWritten(MaxInt32, MaxInt32);
      w == (MaxInt32 - 5, MinInt32 + 3) && !(w.0 <= MaxInt32 <= w.1)
    ensures Window(MaxInt32, MaxInt32) == (MaxInt32 - 9, MaxInt32)
  {
  }

  /** The pager of every list and page, with the bounds of its window. */
  lemma NewPagerFields(totalItems: int, page: int, pageSize: int)
    requires IsInt32(totalItems) && IsInt32(page) && IsInt32(pageSize)
    requires NewPager(totalItems, page, pageSize).Some?
    ensures var p := NewPager(totalItems, page, pageSize).value;
      && p.startPage >= 1 && p.endPage <= p.totalPages && p.endPage - p.startPage <= 9
      && (1 <= page <= p.totalPages ==> p.startPage <= page <= p.endPage)
      && (page <= 5 && p.totalPages >= 10 ==> p.startPage == 1 && p.endPage == 10)
      && (totalItems >= 0 && pageSize > 0 ==>
            (p.totalPages - 1) * pageSize < totalItems <= p.totalPages * pageSize)
  {
    var p := NewPager(totalItems, page, pageSize).value;
    WindowBounds(p.totalPages, page);
    if 1 <= page <= p.totalPages {
      WindowContainsPage(p.totalPages, page);
    }
    if page <= 5 && p.totalPages >= 10 {
      FirstWindow(p.totalPages, page);
    }
    CeilDivBounds(totalItems, pageSize);
  }

  /** The written constructor is the exact one wherever page - 5 and page + 4
      fit in an int; in particular it keeps all the window's bounds there. */
  lemma NewPagerAsWrittenAgrees(totalItems: int, page: int, pageSize: int)
    requires IsInt32(totalItems) && IsInt32(pageSize)
    requires MinInt32 + 5 <= page <= MaxInt32 - 4
    ensures NewPagerAsWritten(totalItems, page, pageSize) == NewPager(totalItems, page, pageSize)
  {
    if pageSize != 0 && IsInt32(CeilDiv(totalItems, pageSize)) {
      WindowAsWrittenAgrees(CeilDiv(totalItems, pageSize), page);
    }
  }
}
