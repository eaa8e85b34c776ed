/** `useInventoryPagination`: the pagination hook. Its props (`total`,
    `current`, `pageSize`) are fields a re-render replaces; `goToPage`, the
    text of the go-to box, is its own state. Each handler returns the
    `onChange`/`onPageSizeChange` calls it makes. */
module PaginationHook {
  import opened Wrappers
  import opened Pagination

  class UseInventoryPagination {
    var total: int
    var current: int
    var pageSize: int
    var goToPage: string

    ghost predicate Valid()
      reads this
    {
      total >= 0 && pageSize > 0
    }

    /** First render: the go-to box starts empty. */
    constructor (total: int, current: int, pageSize: int)
      requires total >= 0 && pageSize > 0
      ensures Valid()
      ensures this.total == total && this.current == current && this.pageSize == pageSize
      ensures goToPage == ""
    {
      this.total := total;
      this.current := current;
      this.pageSize := pageSize;
      goToPage := "";
    }

    /** A re-render with new props keeps the go-to text. */
    method Rerender(total: int, current: int, pageSize: int)
      requires total >= 0 && pageSize > 0
      modifies this`total, this`current, this`pageSize
      ensures Valid()
      ensures this.total == total && this.current == current && this.pageSize == pageSize
    {
      this.total := total;
      this.current := current;
      this.pageSize := pageSize;
    }

    function TotalPagesNow(): nat
      reads this
      requires Valid()
    {
      TotalPages(total, pageSize)
    }

    /** The input's `onChange`: `setGoToPage(text)`. */
    method SetGoToPage(text: string)
      modifies this`goToPage
      ensures goToPage == text
    {
      goToPage := text;
    }

    /** `handleGoToPage`: jump to the typed page and clear the box, but only
        when the text parses to a page in `[1, totalPages]`. */
    method HandleGoToPage() returns (call: Option<PageChange>)
      requires Valid()
      modifies this`goToPage
      ensures var target := GoToTarget(old(goToPage), TotalPagesNow());
        && (call.Some? <==> target.Some?)
        && (call.Some? ==> call.value == PageChange(target.value, pageSize))
      ensures call.Some? ==> 1 <= call.value.page <= TotalPagesNow()
      ensures goToPage == if call.Some? then "" else old(goToPage)
    {
      var target := GoToTarget(goToPage, TotalPages(total, pageSize));
      if target.Some? {
        call := Some(PageChange(target.value, pageSize));
        goToPage := "";
      } else {
        call := None;
      }
    }

    /** `handleKeyPress`: Enter in the go-to box acts as the Go button. */
    method HandleKeyPress(key: string) returns (call: Option<PageChange>)
      requires Valid()
      modifies this`goToPage
      ensures key != "Enter" ==> call == None && goToPage == old(goToPage)
      ensures key == "Enter" ==>
        (call.Some? <==> GoToTarget(old(goToPage), TotalPagesNow()).Some?)
        && goToPage == if call.Some? then "" else old(goToPage)
    {
      if key == "Enter" {
        call := HandleGoToPage();
      } else {
        call := None;
      }
    }

    /** `handlePrev`. */
    method HandlePrev() returns (call: Option<PageChange>)
      ensures call.Some? <==> current > 1
      ensures call.Some? ==> call.value == PageChange(current - 1, pageSize)
    {
      call := Prev(current, pageSize);
    }

    /** `handleNext`. */
    method HandleNext() returns (call: Option<PageChange>)
      requires Valid()
      ensures call.Some? <==> current < TotalPagesNow()
      ensures call.Some? ==> call.value == PageChange(current + 1, pageSize)
    {
      call := Next(current, TotalPages(total, pageSize), pageSize);
    }

    /** `handlePageClick`: any listed button emits its page with the current size. */
    method HandlePageClick(page: int) returns (call: PageChange)
      ensures call.page == page && call.pageSize == pageSize
    {
      call := PageChange(page, pageSize);
    }

    /** `handlePageSizeChange`: the optional `onPageSizeChange`, then back to page 1. */
    method HandlePageSizeChange(value: int, hasOnPageSizeChange: bool) returns (calls: seq<Emitted>)
      ensures calls == PageSizeChangeCalls(value, hasOnPageSizeChange)
      ensures calls[|calls| - 1] == OnChange(PageChange(1, value))
    {
      calls := PageSizeChangeCalls(value, hasOnPageSizeChange);
    }

    /** `getPageNumbers` for the current props. */
    method PageNumbers() returns (pages: seq<PageEntry>)
      requires Valid()
      ensures pages == PageWindow(TotalPagesNow(), current)
      ensures 1 <= current <= TotalPagesNow() ==> Page(current) in pages
    {
      pages := GetPageNumbers(TotalPages(total, pageSize), current);
      if 1 <= current <= TotalPages(total, pageSize) {
        CurrentPageVisible(TotalPages(total, pageSize), current);
      }
    }

    predicate PrevDisabled() reads this {
      IsPrevDisabled(current)
    }

    predicate NextDisabled() reads this requires Valid() {
      IsNextDisabled(current, TotalPagesNow())
    }

    predicate GoToDisabled() reads this {
      IsGoToDisabled(goToPage)
    }
  }
}
