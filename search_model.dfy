/** The state both revisions of the search bar keep (`useSearch` and the older
    `Search` component), the `onSearch` call they make, and the derived values
    they compute the same way. The transitions on which they agree are defined
    here once; the revisions differ only in `handleReset` and in when the
    search button is disabled. */
module SearchModel {
  import opened Wrappers
  import opened Domain

  /** The second argument of `onSearch`: the typed text, or the selected warehouse ids. */
  datatype SearchValue = TextValue(text: string) | WarehouseIds(ids: seq<string>)

  /** One call of `onSearch(searchType, searchValue)`. */
  datatype SearchCall = SearchCall(searchType: SearchType, value: SearchValue)

  /** The React state of the search bar. */
  datatype SearchFields = SearchFields(
    searchType: SearchType,
    searchText: string,
    selectedWarehouses: seq<string>,
    isFiltered: bool,
    filteredTotalCount: Option<int>)

  /** The input the current type shows is non-empty: the text for an
      item-master search, the selection for a warehouse search. */
  predicate CurrentInputFilled(f: SearchFields) {
    match f.searchType
    case ItemMaster => f.searchText != ""
    case Warehouse => |f.selectedWarehouses| > 0
  }

  /** `hasActiveFilter`, which shows the reset button. */
  predicate HasActiveFilter(f: SearchFields) {
    f.isFiltered
    && ((f.searchType == ItemMaster && f.searchText != "")
        || (f.searchType == Warehouse && |f.selectedWarehouses| > 0))
  }

  lemma HasActiveFilterMeaning(f: SearchFields)
    ensures HasActiveFilter(f) <==> f.isFiltered && CurrentInputFilled(f)
  {
  }

  /** The call `handleSearch` makes: the warehouse selection for a warehouse
      search, the text otherwise. */
  function SubmittedCall(f: SearchFields): (c: SearchCall)
    ensures c.searchType == f.searchType
    ensures c.value.WarehouseIds? <==> f.searchType == Warehouse
    ensures c.value.WarehouseIds? ==> c.value.ids == f.selectedWarehouses
    ensures c.value.TextValue? ==> c.value.text == f.searchText
  {
    if f.searchType == Warehouse then SearchCall(Warehouse, WarehouseIds(f.selectedWarehouses))
    else SearchCall(f.searchType, TextValue(f.searchText))
  }

  /** The state after `handleSearch`: only `isFiltered` changes. */
  function Searched(f: SearchFields): SearchFields {
    f.(isFiltered := true)
  }

  /** Searching turns the filter on exactly when the shown input is filled. */
  lemma SearchActivatesIffFilled(f: SearchFields)
    ensures HasActiveFilter(Searched(f)) <==> CurrentInputFilled(f)
    ensures Searched(f).searchType == f.searchType
      && Searched(f).searchText == f.searchText
      && Searched(f).selectedWarehouses == f.selectedWarehouses
  {
  }

  /** Editing an input without searching never turns the filter on. */
  lemma TypingNeverActivates(f: SearchFields, text: string, selection: seq<string>)
    requires !f.isFiltered
    ensures !HasActiveFilter(f.(searchText := text))
    ensures !HasActiveFilter(f.(selectedWarehouses := selection))
  {
  }

  /** The state after `handleSearchTypeChange(t)`: the new type, both inputs
      cleared, the filter off. */
  function TypeChanged(f: SearchFields, t: SearchType): (g: SearchFields)
    ensures g.searchType == t && g.searchText == "" && g.selectedWarehouses == []
    ensures !g.isFiltered && g.filteredTotalCount == None
    ensures !HasActiveFilter(g)
  {
    SearchFields(t, "", [], false, None)
  }

  /** The call both revisions make on reset. */
  const ResetCall := SearchCall(ItemMaster, TextValue(""))

  /** `displayCount = filteredCount ?? 0`. */
  function DisplayCount(filteredCount: Option<int>): (n: int)
    ensures filteredCount.Some? ==> n == filteredCount.value
    ensures filteredCount.None? ==> n == 0
  {
    filteredCount.GetOr(0)
  }

  /** `displayTotal = filteredTotalCount ?? totalCount ?? 0`. */
  function DisplayTotal(f: SearchFields, totalCount: Option<int>): (n: int)
    ensures f.filteredTotalCount.Some? ==> n == f.filteredTotalCount.value
    ensures f.filteredTotalCount.None? ==> n == totalCount.GetOr(0)
  {
    f.filteredTotalCount.GetOr(totalCount.GetOr(0))
  }

  /** Nothing ever stores a number in `filteredTotalCount`: the initial value,
      reset and type change all set it to `undefined`, and no other transition
      touches it. */
  ghost predicate NoFilteredTotal(f: SearchFields) {
    f.filteredTotalCount == None
  }

  lemma TransitionsKeepNoFilteredTotal(f: SearchFields, t: SearchType, text: string, selection: seq<string>)
    requires NoFilteredTotal(f)
    ensures NoFilteredTotal(Searched(f))
    ensures NoFilteredTotal(TypeChanged(f, t))
    ensures NoFilteredTotal(f.(searchText := text)) && NoFilteredTotal(f.(selectedWarehouses := selection))
  {
  }

  /** Hence the total shown is always the parent's `totalCount ?? 0`. */
  lemma DisplayTotalIsTotalCount(f: SearchFields, totalCount: Option<int>)
    requires NoFilteredTotal(f)
    ensures DisplayTotal(f, totalCount) == totalCount.GetOr(0)
  {
  }
}
