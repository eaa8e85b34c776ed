/** The page-window and navigation logic of the inventory pagination control.
    The hook (useInventoryPagination.tsx) and the older inline component
    (InventoryPagination.tsx) contain this logic character for character;
    both are modelled by the members of this module. */
module Pagination {
  import opened Wrappers
  import Text

  /** One entry of the rendered page list: a page button or an ellipsis. */
  datatype PageEntry = Page(n: int) | Ellipsis

  /** One call of the `onChange(page, pageSize)` prop. */
  datatype PageChange = PageChange(page: int, pageSize: int)

  /** A prop callback the control invokes. */
  datatype Emitted = OnChange(change: PageChange) | OnPageSizeChange(size: int)

  /** Up to this many pages the list shows every page. */
  const MaxVisible: int := 5

  /** `Math.ceil(total / pageSize)`: the least number of pages of `pageSize`
      rows that hold `total` rows. */
  function TotalPages(total: int, pageSize: int): (t: nat)
    requires total >= 0 && pageSize > 0
    ensures total <= t * pageSize < total + pageSize
    ensures t == 0 <==> total == 0
  {
    var t := (total + pageSize - 1) / pageSize;
    assert t * pageSize + (total + pageSize - 1) % pageSize == total + pageSize - 1;
    t
  }

  /** The pages `lo..hi`, in order. */
  function Range(lo: int, hi: int): (r: seq<PageEntry>)
    ensures |r| == if hi >= lo then hi - lo + 1 else 0
    ensures forall i :: 0 <= i < |r| ==> r[i] == Page(lo + i)
  {
    if hi < lo then [] else seq(hi - lo + 1, i => Page(lo + i))
  }

  /** The page list `getPageNumbers` builds for `totalPages` pages when page
      `current` is shown: every page when there are at most five, otherwise
      the first four, the last four, or the current page with its neighbours,
      always with the first and the last page. */
  function PageWindow(totalPages: nat, current: int): seq<PageEntry> {
    if totalPages <= MaxVisible then Range(1, totalPages)
    else if current <= 3 then Range(1, 4) + [Ellipsis, Page(totalPages)]
    else if current >= totalPages - 2 then [Page(1), Ellipsis] + Range(totalPages - 3, totalPages)
    else [Page(1), Ellipsis] + Range(current - 1, current + 1) + [Ellipsis, Page(totalPages)]
  }

  /** `getPageNumbers` as the source writes it: pushes in counting loops. */
  method GetPageNumbers(totalPages: nat, current: int) returns (pages: seq<PageEntry>)
    ensures pages == PageWindow(totalPages, current)
  {
    pages := [];
    if totalPages <= MaxVisible {
      var i := 1;
      while i <= totalPages
        invariant 1 <= i <= totalPages + 1
        invariant pages == Range(1, i - 1)
      {
        pages := pages + [Page(i)];
        i := i + 1;
      }
    } else if current <= 3 {
      var i := 1;
      while i <= 4
        invariant 1 <= i <= 5
        invariant pages == Range(1, i - 1)
      {
        pages := pages + [Page(i)];
        i := i + 1;
      }
      pages := pages + [Ellipsis];
      pages := pages + [Page(totalPages)];
    } else if current >= totalPages - 2 {
      pages := pages + [Page(1)];
      pages := pages + [Ellipsis];
      var i := totalPages - 3;
      while i <= totalPages
        invariant totalPages - 3 <= i <= totalPages + 1
        invariant pages == [Page(1), Ellipsis] + Range(totalPages - 3, i - 1)
      {
        pages := pages + [Page(i)];
        i := i + 1;
      }
    } else {
      pages := pages + [Page(1)];
      pages := pages + [Ellipsis];
      var i := current - 1;
      while i <= current + 1
        invariant current - 1 <= i <= current + 2
        invariant pages == [Page(1), Ellipsis] + Range(current - 1, i - 1)
      {
        pages := pages + [Page(i)];
        i := i + 1;
      }
      pages := pages + [Ellipsis];
      pages := pages + [Page(totalPages)];
    }
  }

  // ------------------------------------------------------------ shape of the window

  /** Page numbers strictly increase from left to right. */
  predicate PagesIncreasing(w: seq<PageEntry>) {
    forall i, j :: 0 <= i < j < |w| && w[i].Page? && w[j].Page? ==> w[i].n < w[j].n
  }

  /** Every listed page exists. */
  predicate PagesWithin(w: seq<PageEntry>, totalPages: int) {
    forall i :: 0 <= i < |w| && w[i].Page? ==> 1 <= w[i].n <= totalPages
  }

  /** Neighbouring buttons are neighbouring pages, and an ellipsis always
      stands between two buttons and hides at least one page. */
  predicate GapsMarked(w: seq<PageEntry>) {
    forall i :: 0 <= i < |w| - 1 ==>
      && (w[i].Page? && w[i + 1].Page? ==> w[i + 1].n == w[i].n + 1)
      && (w[i + 1].Ellipsis? ==> w[i].Page? && i + 2 < |w| && w[i + 2].Page? && w[i].n + 1 < w[i + 2].n)
  }

  function EllipsisCount(w: seq<PageEntry>): nat {
    multiset(w)[Ellipsis]
  }

  lemma RangeHasNoEllipsis(lo: int, hi: int)
    ensures EllipsisCount(Range(lo, hi)) == 0
  {
    assert Ellipsis !in Range(lo, hi);
  }

  /** The list has at most seven entries and at most two ellipses, and it has
      an ellipsis exactly when there are more than five pages. */
  lemma WindowSize(totalPages: nat, current: int)
    ensures |PageWindow(totalPages, current)| <= 7
    ensures EllipsisCount(PageWindow(totalPages, current)) <= 2
    ensures EllipsisCount(PageWindow(totalPages, current)) == 0 <==> totalPages <= MaxVisible
  {
    var t := totalPages;
    if t <= MaxVisible {
      RangeHasNoEllipsis(1, t);
    } else if current <= 3 {
      var r := Range(1, 4);
      RangeHasNoEllipsis(1, 4);
      assert multiset(r + [Ellipsis, Page(t)]) == multiset(r) + multiset{Ellipsis, Page(t)};
    } else if current >= t - 2 {
      var r := Range(t - 3, t);
      RangeHasNoEllipsis(t - 3, t);
      assert multiset([Page(1), Ellipsis] + r) == multiset{Page(1), Ellipsis} + multiset(r);
    } else {
      var r := Range(current - 1, current + 1);
      RangeHasNoEllipsis(current - 1, current + 1);
      assert multiset([Page(1), Ellipsis] + r + [Ellipsis, Page(t)])
        == multiset{Page(1), Ellipsis} + multiset(r) + multiset{Ellipsis, Page(t)};
    }
  }

  /** The list is empty exactly when there are no pages; otherwise it starts
      with page 1 and ends with the last page. */
  lemma WindowEnds(totalPages: nat, current: int)
    ensures PageWindow(totalPages, current) == [] <==> totalPages == 0
    ensures totalPages > 0 ==>
      var w := PageWindow(totalPages, current);
      w[0] == Page(1) && w[|w| - 1] == Page(totalPages)
  {
  }

  /** The list spelled out entry by entry, one case per shape. */
  lemma WindowEntries(totalPages: nat, current: int)
    ensures var t := totalPages; var w := PageWindow(t, current);
      if t <= MaxVisible then forall i :: 0 <= i < |w| ==> w[i] == Page(i + 1)
      else if current <= 3 then w == [Page(1), Page(2), Page(3), Page(4), Ellipsis, Page(t)]
      else if current >= t - 2 then w == [Page(1), Ellipsis, Page(t - 3), Page(t - 2), Page(t - 1), Page(t)]
      else w == [Page(1), Ellipsis, Page(current - 1), Page(current), Page(current + 1), Ellipsis, Page(t)]
  {
  }

  /** Page numbers strictly increase from left to right. */
  lemma WindowIncreasing(totalPages: nat, current: int)
    ensures PagesIncreasing(PageWindow(totalPages, current))
  {
    WindowEntries(totalPages, current);
  }

  /** Every listed page lies in `[1, totalPages]`. */
  lemma WindowWithin(totalPages: nat, current: int)
    ensures PagesWithin(PageWindow(totalPages, current), totalPages)
  {
    WindowEntries(totalPages, current);
  }

  /** An ellipsis marks every gap in the numbering and only gaps. */
  lemma WindowGapsMarked(totalPages: nat, current: int)
    ensures GapsMarked(PageWindow(totalPages, current))
  {
    WindowEntries(totalPages, current);
  }

  /** Whatever existing page is shown, its button is in the list. */
  lemma CurrentPageVisible(totalPages: nat, current: int)
    requires 1 <= current <= totalPages
    ensures Page(current) in PageWindow(totalPages, current)
  {
    var t := totalPages;
    var w := PageWindow(t, current);
    if t <= MaxVisible {
      assert w[current - 1] == Page(current);
    } else if current <= 3 {
      assert w[current - 1] == Page(current);
    } else if current >= t - 2 {
      assert w[current - t + 5] == Page(current);
    } else {
      assert w[3] == Page(current);
    }
  }

  // ------------------------------------------------------------ navigation guards

  /** `handlePrev`: the previous page, only when there is one before `current`. */
  function Prev(current: int, pageSize: int): (r: Option<PageChange>)
    ensures r.Some? <==> current > 1
    ensures r.Some? ==> r.value.page == current - 1 && r.value.pageSize == pageSize
  {
    if current > 1 then Some(PageChange(current - 1, pageSize)) else None
  }

  /** `handleNext`: the next page, only when `current` is before the last page. */
  function Next(current: int, totalPages: int, pageSize: int): (r: Option<PageChange>)
    ensures r.Some? <==> current < totalPages
    ensures r.Some? ==> r.value.page == current + 1 && r.value.pageSize == pageSize
  {
    if current < totalPages then Some(PageChange(current + 1, pageSize)) else None
  }

  /** `handleGoToPage`'s test: the typed page, when it parses to an existing page. */
  function GoToTarget(input: string, totalPages: int): (r: Option<int>)
    ensures r.Some? ==> 1 <= r.value <= totalPages
    ensures r.Some? ==> Text.ParseInt(input) == Some(r.value)
    ensures r.None? ==> Text.ParseInt(input).None? || Text.ParseInt(input).value < 1
                        || Text.ParseInt(input).value > totalPages
  {
    match Text.ParseInt(input)
    case Some(p) => if 1 <= p <= totalPages then Some(p) else None
    case None => None
  }

  /** `handlePageSizeChange`: the optional `onPageSizeChange(value)`, then
      always `onChange(1, value)`. */
  function PageSizeChangeCalls(value: int, hasOnPageSizeChange: bool): (r: seq<Emitted>)
    ensures |r| == if hasOnPageSizeChange then 2 else 1
    ensures r[|r| - 1] == OnChange(PageChange(1, value))
    ensures hasOnPageSizeChange ==> r[0] == OnPageSizeChange(value)
  {
    (if hasOnPageSizeChange then [OnPageSizeChange(value)] else []) + [OnChange(PageChange(1, value))]
  }

  /** `isPrevDisabled`, the older component's `current === 1`. */
  predicate IsPrevDisabled(current: int) {
    current == 1
  }

  /** `isNextDisabled`, the older component's `current === totalPages`. */
  predicate IsNextDisabled(current: int, totalPages: int) {
    current == totalPages
  }

  /** `isGoToDisabled`, the older component's `!goToPage`. */
  predicate IsGoToDisabled(goToPage: string) {
    goToPage == ""
  }

  /** On an existing page, the Prev and Next buttons are enabled exactly when
      their handlers move, and they never leave `[1, totalPages]`. */
  lemma ButtonsMatchHandlers(current: int, totalPages: int, pageSize: int)
    requires 1 <= current <= totalPages
    ensures Prev(current, pageSize).Some? <==> !IsPrevDisabled(current)
    ensures Next(current, totalPages, pageSize).Some? <==> !IsNextDisabled(current, totalPages)
    ensures Prev(current, pageSize).Some? ==> 1 <= Prev(current, pageSize).value.page <= totalPages
    ensures Next(current, totalPages, pageSize).Some? ==>
              1 <= Next(current, totalPages, pageSize).value.page <= totalPages
  {
  }

  /** With no rows there are no pages, yet on page 1 the Next button is
      enabled (1 differs from 0) while its handler does nothing. */
  lemma EmptyListingNextEnabledButInert(pageSize: int)
    requires pageSize > 0
    ensures TotalPages(0, pageSize) == 0
    ensures !IsNextDisabled(1, TotalPages(0, pageSize))
    ensures Next(1, TotalPages(0, pageSize), pageSize) == None
    ensures IsPrevDisabled(1) && Prev(1, pageSize) == None
  {
  }

  /** Typing the numeral of an existing page and pressing Go reaches that
      page; an empty box (Go disabled) reaches nothing. */
  lemma GoToTypedPage(page: nat, totalPages: int)
    requires 1 <= page <= totalPages
    ensures GoToTarget(Text.ToDecimal(page), totalPages) == Some(page)
    ensures IsGoToDisabled("") && GoToTarget("", totalPages) == None
  {
    Text.ParseIntOfDecimal(page);
  }
}
