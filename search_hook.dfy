/** `useSearch`: the search bar's state as a class whose handlers replace its
    fields the way the React setters do. Reset restores the whole initial
    state, and the search button is disabled only for a warehouse search
    with nothing selected. */
module SearchHook {
  import opened Wrappers
  import opened Domain
  import opened SearchModel

  /** The state of the first render. */
  function Initial(): (f: SearchFields)
    ensures f.searchType == ItemMaster && f.searchText == "" && f.selectedWarehouses == []
    ensures !f.isFiltered && f.filteredTotalCount == None
  {
    SearchFields(ItemMaster, "", [], false, None)
  }

  /** The state after `handleReset`, whatever it was before. */
  function Reset(f: SearchFields): (g: SearchFields)
    ensures g == Initial()
  {
    Initial()
  }

  /** `isSearchDisabled`; `!searchType` never holds, both enum values being
      non-empty strings. */
  predicate IsSearchDisabled(f: SearchFields) {
    f.searchType == Warehouse && |f.selectedWarehouses| == 0
  }

  /** An item-master search is never disabled, not even with empty text. */
  lemma ItemMasterSearchAlwaysEnabled(f: SearchFields)
    requires f.searchType == ItemMaster
    ensures !IsSearchDisabled(f)
  {
  }

  /** After a reset the reset button disappears and the total shown is the parent's. */
  lemma ResetClearsFilter(f: SearchFields, totalCount: Option<int>)
    ensures !HasActiveFilter(Reset(f))
    ensures DisplayTotal(Reset(f), totalCount) == totalCount.GetOr(0)
  {
  }

  class UseSearch {
    var searchType: SearchType
    var searchText: string
    var selectedWarehouses: seq<string>
    var isFiltered: bool
    var filteredTotalCount: Option<int>

    /** The props: whether `onSearch` was given, and the two counts. */
    var hasOnSearch: bool
    var filteredCount: Option<int>
    var totalCount: Option<int>

    function Fields(): SearchFields
      reads this
    {
      SearchFields(searchType, searchText, selectedWarehouses, isFiltered, filteredTotalCount)
    }

    ghost predicate Valid()
      reads this
    {
      NoFilteredTotal(Fields())
    }

    constructor (hasOnSearch: bool, filteredCount: Option<int>, totalCount: Option<int>)
      ensures Valid() && Fields() == Initial()
      ensures this.hasOnSearch == hasOnSearch
      ensures this.filteredCount == filteredCount && this.totalCount == totalCount
    {
      searchType := ItemMaster;
      searchText := "";
      selectedWarehouses := [];
      isFiltered := false;
      filteredTotalCount := None;
      this.hasOnSearch := hasOnSearch;
      this.filteredCount := filteredCount;
      this.totalCount := totalCount;
    }

    /** The text input's `onChange`. */
    method SetSearchText(text: string)
      requires Valid()
      modifies this`searchText
      ensures Valid() && Fields() == old(Fields()).(searchText := text)
    {
      searchText := text;
    }

    /** The warehouse select's `onChange`. */
    method SetSelectedWarehouses(selection: seq<string>)
      requires Valid()
      modifies this`selectedWarehouses
      ensures Valid() && Fields() == old(Fields()).(selectedWarehouses := selection)
    {
      selectedWarehouses := selection;
    }

    /** `handleSearch`: mark the filter on and, when `onSearch` is given, call
        it with the value the current type shows. */
    method HandleSearch() returns (call: Option<SearchCall>)
      requires Valid()
      modifies this`isFiltered
      ensures Valid() && Fields() == Searched(old(Fields()))
      ensures call == if hasOnSearch then Some(SubmittedCall(old(Fields()))) else None
    {
      isFiltered := true;
      if hasOnSearch {
        if searchType == Warehouse {
          call := Some(SearchCall(searchType, WarehouseIds(selectedWarehouses)));
        } else {
          call := Some(SearchCall(searchType, TextValue(searchText)));
        }
      } else {
        call := None;
      }
    }

    /** `handleReset`: back to the initial state, then `onSearch(ITEM_MASTER, "")`. */
    method HandleReset() returns (call: Option<SearchCall>)
      requires Valid()
      modifies this`searchType, this`searchText, this`selectedWarehouses, this`isFiltered,
        this`filteredTotalCount
      ensures Valid() && Fields() == Reset(old(Fields()))
      ensures call == if hasOnSearch then Some(ResetCall) else None
    {
      searchText := "";
      selectedWarehouses := [];
      searchType := ItemMaster;
      isFiltered := false;
      filteredTotalCount := None;
      call := if hasOnSearch then Some(ResetCall) else None;
    }

    /** `handleKeyDown`: Enter searches; any other key does nothing. */
    method HandleKeyDown(key: string) returns (call: Option<SearchCall>)
      requires Valid()
      modifies this`isFiltered
      ensures Valid()
      ensures key == "Enter" ==>
        (Fields() == Searched(old(Fields()))
         && call == if hasOnSearch then Some(SubmittedCall(old(Fields()))) else None)
      ensures key != "Enter" ==> Fields() == old(Fields()) && call == None
    {
      if key == "Enter" {
        call := HandleSearch();
      } else {
        call := None;
      }
    }

    /** `handleSearchTypeChange`. */
    method HandleSearchTypeChange(t: SearchType)
      requires Valid()
      modifies this`searchType, this`searchText, this`selectedWarehouses, this`isFiltered,
        this`filteredTotalCount
      ensures Valid() && Fields() == TypeChanged(old(Fields()), t)
    {
      searchType := t;
      searchText := "";
      selectedWarehouses := [];
      isFiltered := false;
      filteredTotalCount := None;
    }

    predicate HasActiveFilterNow()
      reads this
    {
      HasActiveFilter(Fields())
    }

    predicate IsSearchDisabledNow()
      reads this
    {
      IsSearchDisabled(Fields())
    }

    /** The two counts shown beside the bar. */
    method Counts() returns (displayCount: int, displayTotal: int)
      requires Valid()
      ensures displayCount == filteredCount.GetOr(0)
      ensures displayTotal == totalCount.GetOr(0)
    {
      displayCount := DisplayCount(filteredCount);
      displayTotal := DisplayTotal(Fields(), totalCount);
      DisplayTotalIsTotalCount(Fields(), totalCount);
    }
  }
}
