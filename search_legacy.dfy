/** The older `Search` component: the same state and handlers as `useSearch`,
    except that reset keeps the selected search type, the search button is
    also disabled for an empty item-master text, and the counts are shown
    only when one of them is positive. */
module SearchLegacy {
  import opened Wrappers
  import opened Domain
  import opened SearchModel
  import SearchHook

  /** The state after `handleReset`: inputs cleared, filter off, type kept. */
  function Reset(f: SearchFields): (g: SearchFields)
    ensures g.searchType == f.searchType
    ensures g.searchText == "" && g.selectedWarehouses == [] && !g.isFiltered
    ensures g.filteredTotalCount == None
  {
    f.(searchText := "", selectedWarehouses := [], isFiltered := false, filteredTotalCount := None)
  }

  /** The `disabled` expression of the search button. */
  predicate ButtonDisabled(f: SearchFields) {
    (f.searchType == ItemMaster && f.searchText == "")
    || (f.searchType == Warehouse && |f.selectedWarehouses| == 0)
  }

  /** The button is disabled exactly when the shown input is empty. */
  lemma ButtonDisabledIffEmpty(f: SearchFields)
    ensures ButtonDisabled(f) <==> !CurrentInputFilled(f)
  {
  }

  /** `showCount`. */
  predicate ShowCount(displayCount: int, displayTotal: int) {
    displayCount > 0 || displayTotal > 0
  }

  /** The two resets agree on everything but the type: the older one keeps it,
      the hook's goes back to item master. */
  lemma ResetsDifferOnlyInType(f: SearchFields)
    ensures Reset(f) == SearchHook.Reset(f).(searchType := f.searchType)
    ensures Reset(f) == SearchHook.Reset(f) <==> f.searchType == ItemMaster
  {
  }

  /** The older button is disabled whenever the hook's is, and also for an
      item-master search with empty text, which the hook lets through. */
  lemma LegacyButtonStricter(f: SearchFields)
    ensures SearchHook.IsSearchDisabled(f) ==> ButtonDisabled(f)
    ensures ButtonDisabled(f) && !SearchHook.IsSearchDisabled(f) <==>
      f.searchType == ItemMaster && f.searchText == ""
  {
  }

  class SearchComponent {
    var searchType: SearchType
    var searchText: string
    var selectedWarehouses: seq<string>
    var isFiltered: bool
    var filteredTotalCount: Option<int>

    var hasOnSearch: bool
    var filteredCount: Option<int>
    var totalCount: Option<int>

    function Fields(): SearchFields
      reads this
    {
      SearchFields(searchType, searchText, selectedWarehouses, isFiltered, filteredTotalCount)
    }

    ghost predicate Valid()
      reads this
    {
      NoFilteredTotal(Fields())
    }

    constructor (hasOnSearch: bool, filteredCount: Option<int>, totalCount: Option<int>)
      ensures Valid() && Fields() == SearchHook.Initial()
      ensures this.hasOnSearch == hasOnSearch
      ensures this.filteredCount == filteredCount && this.totalCount == totalCount
    {
      searchType := ItemMaster;
      searchText := "";
      selectedWarehouses := [];
      isFiltered := false;
      filteredTotalCount := None;
      this.hasOnSearch := hasOnSearch;
      this.filteredCount := filteredCount;
      this.totalCount := totalCount;
    }

    method SetSearchText(text: string)
      requires Valid()
      modifies this`searchText
      ensures Valid() && Fields() == old(Fields()).(searchText := text)
    {
      searchText := text;
    }

    method SetSelectedWarehouses(selection: seq<string>)
      requires Valid()
      modifies this`selectedWarehouses
      ensures Valid() && Fields() == old(Fields()).(selectedWarehouses := selection)
    {
      selectedWarehouses := selection;
    }

    /** `handleSearch`, as in the hook. */
    method HandleSearch() returns (call: Option<SearchCall>)
      requires Valid()
      modifies this`isFiltered
      ensures Valid() && Fields() == Searched(old(Fields()))
      ensures call == if hasOnSearch then Some(SubmittedCall(old(Fields()))) else None
    {
      isFiltered := true;
      if hasOnSearch {
        if searchType == Warehouse {
          call := Some(SearchCall(searchType, WarehouseIds(selectedWarehouses)));
        } else {
          call := Some(SearchCall(searchType, TextValue(searchText)));
        }
      } else {
        call := None;
      }
    }

    /** `handleReset`: the type stays, yet the call still says `ITEM_MASTER`. */
    method HandleReset() returns (call: Option<SearchCall>)
      requires Valid()
      modifies this`searchText, this`selectedWarehouses, this`isFiltered, this`filteredTotalCount
      ensures Valid() && Fields() == Reset(old(Fields()))
      ensures call == if hasOnSearch then Some(ResetCall) else None
    {
      searchText := "";
      selectedWarehouses := [];
      isFiltered := false;
      filteredTotalCount := None;
      call := if hasOnSearch then Some(ResetCall) else None;
    }

    /** `handleKeyDown`: Enter calls `handleSearch` directly, without
        consulting the button's `disabled` expression. */
    method HandleKeyDown(key: string) returns (call: Option<SearchCall>)
      requires Valid()
      modifies this`isFiltered
      ensures Valid()
      ensures key == "Enter" ==>
        (Fields() == Searched(old(Fields()))
         && call == if hasOnSearch then Some(SubmittedCall(old(Fields()))) else None)
      ensures key != "Enter" ==> Fields() == old(Fields()) && call == None
    {
      if key == "Enter" {
        call := HandleSearch();
      } else {
        call := None;
      }
    }

    method HandleSearchTypeChange(t: SearchType)
      requires Valid()
      modifies this`searchType, this`searchText, this`selectedWarehouses, this`isFiltered,
        this`filteredTotalCount
      ensures Valid() && Fields() == TypeChanged(old(Fields()), t)
    {
      searchType := t;
      searchText := "";
      selectedWarehouses := [];
      isFiltered := false;
      filteredTotalCount := None;
    }

    /** Whether the count line is rendered. */
    method ShowCountNow() returns (show: bool)
      requires Valid()
      ensures show <==> filteredCount.GetOr(0) > 0 || totalCount.GetOr(0) > 0
    {
      var displayCount := DisplayCount(filteredCount);
      var displayTotal := DisplayTotal(Fields(), totalCount);
      DisplayTotalIsTotalCount(Fields(), totalCount);
      show := ShowCount(displayCount, displayTotal);
    }
  }

  /** Enter in an empty item-master box still searches and calls
      `onSearch(ITEM_MASTER, "")`, although the button for the same state is
      disabled. */
  lemma EnterBypassesDisabledButton(f: SearchFields)
    requires f.searchType == ItemMaster && f.searchText == ""
    ensures ButtonDisabled(f)
    ensures Searched(f).isFiltered
    ensures SubmittedCall(f) == SearchCall(ItemMaster, TextValue(""))
  {
  }
}
