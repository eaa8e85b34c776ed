/** The older `InventoryPagination` component, which computes the same page
    list inline and renders it: one button per page number, a "..." marker per
    ellipsis, and the button of the current page drawn as `primary`. Its
    handlers are those of the hook; only the go-to box state and the rendered
    buttons are its own here. */
module PaginationView {
  import opened Wrappers
  import opened Pagination

  /** One rendered element of the page list. */
  datatype PageButton = NumberButton(page: int, primary: bool) | Dots

  /** The `getPageNumbers().map(...)` of the render: `type` is `primary` iff
      `current === page`. */
  function RenderPages(w: seq<PageEntry>, current: int): (r: seq<PageButton>)
    ensures |r| == |w|
    ensures forall i :: 0 <= i < |w| ==>
      (w[i].Ellipsis? <==> r[i].Dots?)
      && (w[i].Page? ==> r[i] == NumberButton(w[i].n, w[i].n == current))
  {
    seq(|w|, i requires 0 <= i < |w| =>
      match w[i]
      case Page(n) => NumberButton(n, n == current)
      case Ellipsis => Dots)
  }

  predicate IsPrimaryAt(r: seq<PageButton>, i: int) {
    0 <= i < |r| && r[i].NumberButton? && r[i].primary
  }

  /** Exactly one button is primary, the one labelled with the current page,
      whenever the current page is in `[1, totalPages]`. */
  lemma ExactlyCurrentIsPrimary(totalPages: nat, current: int)
    requires 1 <= current <= totalPages
    ensures var r := RenderPages(PageWindow(totalPages, current), current);
      && (exists i :: IsPrimaryAt(r, i))
      && (forall i :: IsPrimaryAt(r, i) ==> r[i].page == current)
      && (forall i, j :: IsPrimaryAt(r, i) && IsPrimaryAt(r, j) ==> i == j)
  {
    var w := PageWindow(totalPages, current);
    var r := RenderPages(w, current);
    CurrentPageVisible(totalPages, current);
    var k :| 0 <= k < |w| && w[k] == Page(current);
    assert IsPrimaryAt(r, k);
    WindowIncreasing(totalPages, current);
    forall i, j | IsPrimaryAt(r, i) && IsPrimaryAt(r, j)
      ensures i == j
    {
      assert w[i] == Page(current) && w[j] == Page(current);
    }
  }

  /** With the current page outside `[1, totalPages]` no button is primary. */
  lemma NoPrimaryOutsideRange(totalPages: nat, current: int)
    requires current < 1 || current > totalPages
    ensures forall i :: !IsPrimaryAt(RenderPages(PageWindow(totalPages, current), current), i)
  {
    WindowWithin(totalPages, current);
  }

  /** The component's own state: the go-to text, next to its props. */
  class InventoryPagination {
    var total: int
    var current: int
    var pageSize: int
    var goToPage: string

    ghost predicate Valid()
      reads this
    {
      total >= 0 && pageSize > 0
    }

    constructor (total: int, current: int, pageSize: int)
      requires total >= 0 && pageSize > 0
      ensures Valid()
      ensures this.total == total && this.current == current && this.pageSize == pageSize
      ensures goToPage == ""
    {
      this.total := total;
      this.current := current;
      this.pageSize := pageSize;
      goToPage := "";
    }

    method SetGoToPage(text: string)
      modifies this`goToPage
      ensures goToPage == text
    {
      goToPage := text;
    }

    /** `handleGoToPage`, identical to the hook's: only a page in range is
        emitted, and only then is the box cleared. */
    method HandleGoToPage() returns (call: Option<PageChange>)
      requires Valid()
      modifies this`goToPage
      ensures var target := GoToTarget(old(goToPage), TotalPages(total, pageSize));
        && (call.Some? <==> target.Some?)
        && (call.Some? ==> call.value == PageChange(target.value, pageSize))
      ensures goToPage == if call.Some? then "" else old(goToPage)
    {
      var target := GoToTarget(goToPage, TotalPages(total, pageSize));
      if target.Some? {
        call := Some(PageChange(target.value, pageSize));
        goToPage := "";
      } else {
        call := None;
      }
    }

    /** The rendered page list of the current props. */
    method Render() returns (buttons: seq<PageButton>)
      requires Valid()
      ensures buttons == RenderPages(PageWindow(TotalPages(total, pageSize), current), current)
      ensures 1 <= current <= TotalPages(total, pageSize) ==> exists i :: IsPrimaryAt(buttons, i)
    {
      var pages := GetPageNumbers(TotalPages(total, pageSize), current);
      buttons := RenderPages(pages, current);
      if 1 <= current <= TotalPages(total, pageSize) {
        ExactlyCurrentIsPrimary(TotalPages(total, pageSize), current);
      }
    }
  }
}
