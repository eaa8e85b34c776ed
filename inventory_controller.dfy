/** `useInventory`: the inventory page's controller. It holds the listing
    (rows and counts), the page, the page size, the search filter and the
    warehouse list, builds the `/items` query from them and applies each
    completed request. Every request is an outcome parameter; a fetch is
    one step, started and completed in the same call. */
module InventoryController {
  import opened Wrappers
  import opened Domain
  import opened Text
  import opened SearchModel
  import RefreshContext

  // ---------------------------------------------------------------- query

  /** The filter part of the `/items` query. */
  datatype QueryFilter = NameFilter(name: string) | WarehouseIdsFilter(warehouseIds: string)

  /** The `params` record of `GET /items`. */
  datatype ItemsQuery = ItemsQuery(page: int, pageSize: int, filter: QueryFilter)

  /** The value `handleSearch` stores has the shape its type calls for: the
      code casts it to `string` for an item-master search and to `string[]`
      for a warehouse search. */
  predicate ValueMatchesType(t: SearchType, v: SearchValue) {
    match t
    case ItemMaster => v.TextValue?
    case Warehouse => v.WarehouseIds?
  }

  /** Both revisions of the search bar only ever send matching values. */
  lemma SearchBarCallsMatchType(f: SearchFields)
    ensures ValueMatchesType(SubmittedCall(f).searchType, SubmittedCall(f).value)
    ensures ValueMatchesType(ResetCall.searchType, ResetCall.value)
  {
  }

  /** The params `fetchItems(page, size)` sends: the arguments when given, the
      state otherwise; `name` for an item-master search, the ids joined with
      "," for a warehouse search. */
  function BuildQuery(page: Option<int>, size: Option<int>, currentPage: int, pageSize: int,
                      t: SearchType, v: SearchValue): (q: ItemsQuery)
    requires ValueMatchesType(t, v)
    ensures q.page == page.GetOr(currentPage) && q.pageSize == size.GetOr(pageSize)
    ensures t == ItemMaster ==> q.filter == NameFilter(v.text)
    ensures t == Warehouse ==> q.filter == WarehouseIdsFilter(Join(v.ids, ','))
  {
    ItemsQuery(
      page.GetOr(currentPage),
      size.GetOr(pageSize),
      match t
      case ItemMaster => NameFilter(v.text)
      case Warehouse => WarehouseIdsFilter(Join(v.ids, ',')))
  }

  /** The selected warehouse values are numeric ids, rendered in decimal; the
      server can split the joined string on "," and get every id back, in order. */
  lemma WarehouseIdsRecoverable(ids: seq<nat>)
    requires |ids| >= 1
    ensures var names := seq(|ids|, i requires 0 <= i < |ids| => ToDecimal(ids[i]));
      Split(Join(names, ','), ',') == names
  {
    var names := seq(|ids|, i requires 0 <= i < |ids| => ToDecimal(ids[i]));
    forall k | 0 <= k < |names|
      ensures ',' !in names[k]
    {
      assert AllDigits(names[k]);
      assert forall j :: 0 <= j < |names[k]| ==> names[k][j] != ',';
    }
    SplitJoin(names, ',');
  }

  // ---------------------------------------------------------------- results

  /** How `GET /items` ended: a response with its status, `data` and
      `totalItems` (either may be absent), or a thrown request. */
  datatype ItemsOutcome =
    | ItemsResponse(status: int, data: Option<seq<Item>>, totalItems: Option<int>)
    | ItemsRequestFailed

  /** The part of the state a fetch writes. */
  datatype Listing = Listing(items: seq<Item>, filteredCount: Option<int>, totalCount: Option<int>)

  predicate IsSuccess(o: ItemsOutcome) {
    o.ItemsResponse? && o.status == 200
  }

  /** The listing after a completed fetch: status 200 replaces all three
      fields (`data.data || []`, its length, `totalItems`); anything else
      leaves them as they were. */
  function ApplyItems(l: Listing, o: ItemsOutcome): (r: Listing)
    ensures IsSuccess(o) ==>
      r.items == o.data.GetOr([]) && r.filteredCount == Some(|r.items|) && r.totalCount == o.totalItems
    ensures !IsSuccess(o) ==> r == l
  {
    if IsSuccess(o) then
      var result := o.data.GetOr([]);
      Listing(result, Some(|result|), o.totalItems)
    else l
  }

  /** After a success the listing no longer depends on what was shown before. */
  lemma SuccessForgetsPrevious(l1: Listing, l2: Listing, o: ItemsOutcome)
    requires IsSuccess(o)
    ensures ApplyItems(l1, o) == ApplyItems(l2, o)
  {
  }

  /** The last successful fetch decides the listing, and applying the same
      outcome twice is the same as once. */
  lemma LastSuccessWins(l: Listing, o1: ItemsOutcome, o2: ItemsOutcome)
    ensures IsSuccess(o2) ==> ApplyItems(ApplyItems(l, o1), o2) == ApplyItems(l, o2)
    ensures !IsSuccess(o2) ==> ApplyItems(ApplyItems(l, o1), o2) == ApplyItems(l, o1)
    ensures ApplyItems(ApplyItems(l, o1), o1) == ApplyItems(l, o1)
  {
  }

  /** The alert a failed fetch raises: one generic dialog for every failure. */
  function ItemsAlert(o: ItemsOutcome): (a: Option<Alert>)
    ensures a.None? <==> IsSuccess(o)
    ensures a.Some? ==> a.value == ErrorAlert("Something went wrong!", "Please try again later")
  {
    if IsSuccess(o) then None else Some(ErrorAlert("Something went wrong!", "Please try again later"))
  }

  /** How `GET /warehouses` ended. */
  datatype WarehousesOutcome =
    | WarehousesResponse(status: int, data: Option<seq<WarehouseRecord>>)
    | WarehousesRequestFailed

  /** The warehouse list after a completed fetch; failures are swallowed. */
  function ApplyWarehouses(ws: seq<WarehouseRecord>, o: WarehousesOutcome): (r: seq<WarehouseRecord>)
    ensures o.WarehousesResponse? && o.status == 200 ==> r == o.data.GetOr([])
    ensures !(o.WarehousesResponse? && o.status == 200) ==> r == ws
  {
    if o.WarehousesResponse? && o.status == 200 then o.data.GetOr([]) else ws
  }

  /** One entry of the warehouse select. */
  datatype SelectOption = SelectOption(value: int, caption: string)

  /** `warehouseOptions`: each warehouse, in order, as `{value: id, label: name}` (the label is `caption` here). */
  function WarehouseOptions(ws: seq<WarehouseRecord>): (opts: seq<SelectOption>)
    ensures |opts| == |ws|
    ensures forall i :: 0 <= i < |ws| ==> opts[i] == SelectOption(ws[i].id, ws[i].name)
  {
    seq(|ws|, i requires 0 <= i < |ws| => SelectOption(ws[i].id, ws[i].name))
  }

  /** How React sees the search value among the effect's dependencies: it
      compares them with `Object.is`, so a string by its text and an array by
      its identity, whatever ids it holds. */
  datatype ValueKey = TextKey(text: string) | ArrayKey(identity: nat)

  /** The key of a value `handleSearch` stored; `identity` names the array
      the search bar passed and is ignored for a string. */
  function KeyOf(v: SearchValue, identity: nat): (k: ValueKey)
    ensures v.TextValue? <==> k.TextKey?
    ensures v.TextValue? ==> k.text == v.text
    ensures v.WarehouseIds? ==> k.identity == identity
  {
    match v
    case TextValue(text) => TextKey(text)
    case WarehouseIds(_) => ArrayKey(identity)
  }

  /** What the items effect watches (`fetchItems` changes exactly when one of
      its own dependencies, a subset of these, does): a change of any of them
      refetches. */
  datatype EffectDeps = EffectDeps(searchType: SearchType, searchKey: ValueKey, page: int, pageSize: int)

  // ---------------------------------------------------------------- the hook

  class UseInventory {
    var items: seq<Item>
    var loadingItems: bool
    var loadingWarehouses: bool
    var filteredCount: Option<int>
    var totalCount: Option<int>
    var currentPage: int
    var pageSize: int
    var isCreateModalOpen: bool
    var warehouses: seq<WarehouseRecord>
    var searchType: SearchType
    var searchValue: SearchValue
    /** How the items effect compares `searchValue`. */
    var searchKey: ValueKey
    /** The dependencies the items effect last ran with; `None` before mount. */
    var itemsEffectDeps: Option<EffectDeps>
    /** Whether the warehouses effect, whose dependencies never change, has run. */
    var warehousesEffectRan: bool

    ghost predicate Valid()
      reads this
    {
      && ValueMatchesType(searchType, searchValue)
      && (searchValue.TextValue? ==> searchKey == TextKey(searchValue.text))
      && (searchValue.WarehouseIds? ==> searchKey.ArrayKey?)
    }

    function ListingNow(): Listing
      reads this
    {
      Listing(items, filteredCount, totalCount)
    }

    function Deps(): EffectDeps
      reads this
    {
      EffectDeps(searchType, searchKey, currentPage, pageSize)
    }

    /** The first render's state. */
    constructor ()
      ensures Valid()
      ensures items == [] && loadingItems && loadingWarehouses
      ensures filteredCount == Some(20) && totalCount == Some(21)
      ensures currentPage == 1 && pageSize == 20 && !isCreateModalOpen
      ensures warehouses == [] && searchType == ItemMaster && searchValue == TextValue("")
      ensures searchKey == TextKey("")
      ensures itemsEffectDeps == None && !warehousesEffectRan
    {
      items := [];
      loadingItems := true;
      loadingWarehouses := true;
      filteredCount := Some(20);
      totalCount := Some(21);
      currentPage := 1;
      pageSize := 20;
      isCreateModalOpen := false;
      warehouses := [];
      searchType := ItemMaster;
      searchValue := TextValue("");
      searchKey := TextKey("");
      itemsEffectDeps := None;
      warehousesEffectRan := false;
    }

    /** The start of `fetchItems(page, size)`: loading on, params built. */
    method StartFetchItems(page: Option<int>, size: Option<int>) returns (q: ItemsQuery)
      requires Valid()
      modifies this`loadingItems
      ensures loadingItems
      ensures q == BuildQuery(page, size, currentPage, pageSize, searchType, searchValue)
    {
      loadingItems := true;
      var filter: QueryFilter;
      if searchType == ItemMaster {
        filter := NameFilter(searchValue.text);
      } else {
        filter := WarehouseIdsFilter(Join(searchValue.ids, ','));
      }
      q := ItemsQuery(page.GetOr(currentPage), size.GetOr(pageSize), filter);
    }

    /** The end of `fetchItems`: apply the outcome, alert on failure, loading off. */
    method FinishFetchItems(o: ItemsOutcome) returns (alert: Option<Alert>)
      modifies this`items, this`filteredCount, this`totalCount, this`loadingItems
      ensures ListingNow() == ApplyItems(old(ListingNow()), o)
      ensures alert == ItemsAlert(o)
      ensures !loadingItems
    {
      if o.ItemsResponse? && o.status == 200 {
        var result := o.data.GetOr([]);
        filteredCount := Some(|result|);
        totalCount := o.totalItems;
        items := result;
        alert := None;
      } else {
        alert := Some(ErrorAlert("Something went wrong!", "Please try again later"));
      }
      loadingItems := false;
    }

    /** `fetchItems(page, size)` as one step. */
    method FetchItems(page: Option<int>, size: Option<int>, o: ItemsOutcome)
      returns (q: ItemsQuery, alert: Option<Alert>)
      requires Valid()
      modifies this`items, this`filteredCount, this`totalCount, this`loadingItems
      ensures q == BuildQuery(page, size, currentPage, pageSize, searchType, searchValue)
      ensures ListingNow() == ApplyItems(old(ListingNow()), o)
      ensures alert == ItemsAlert(o)
      ensures !loadingItems
    {
      q := StartFetchItems(page, size);
      alert := FinishFetchItems(o);
    }

    /** `fetchWarehouses`: a failure changes nothing but the loading flag. */
    method FetchWarehouses(o: WarehousesOutcome)
      modifies this`warehouses, this`loadingWarehouses
      ensures warehouses == ApplyWarehouses(old(warehouses), o)
      ensures !loadingWarehouses
    {
      loadingWarehouses := true;
      if o.WarehousesResponse? && o.status == 200 {
        warehouses := o.data.GetOr([]);
      }
      loadingWarehouses := false;
    }

    /** The effects after a render: the warehouses effect on mount only, then
        the items effect whenever its dependencies differ from the last run's,
        fetching with the current page and size. */
    method RunEffects(itemsOutcome: ItemsOutcome, warehousesOutcome: WarehousesOutcome)
      returns (warehousesFetched: bool, fetched: Option<ItemsQuery>, alert: Option<Alert>)
      requires Valid()
      modifies this
      ensures Valid()
      ensures warehousesFetched <==> !old(warehousesEffectRan)
      ensures warehousesEffectRan
      ensures warehouses == if warehousesFetched then ApplyWarehouses(old(warehouses), warehousesOutcome)
        else old(warehouses)
      ensures fetched.Some? <==> old(itemsEffectDeps) != Some(Deps())
      ensures fetched.Some? ==>
        fetched.value == BuildQuery(None, None, currentPage, pageSize, searchType, searchValue)
        && fetched.value.page == currentPage && fetched.value.pageSize == pageSize
        && ListingNow() == ApplyItems(old(ListingNow()), itemsOutcome)
        && alert == ItemsAlert(itemsOutcome)
      ensures fetched.None? ==> ListingNow() == old(ListingNow()) && alert == None
      ensures fetched.Some? ==> !loadingItems
      ensures fetched.None? ==> loadingItems == old(loadingItems)
      ensures warehousesFetched ==> !loadingWarehouses
      ensures !warehousesFetched ==> loadingWarehouses == old(loadingWarehouses)
      ensures itemsEffectDeps == Some(Deps())
      ensures Deps() == old(Deps()) && searchValue == old(searchValue)
      ensures isCreateModalOpen == old(isCreateModalOpen)
    {
      warehousesFetched := !warehousesEffectRan;
      if warehousesFetched {
        FetchWarehouses(warehousesOutcome);
        warehousesEffectRan := true;
      }
      if itemsEffectDeps != Some(Deps()) {
        var q;
        q, alert := FetchItems(Some(currentPage), Some(pageSize), itemsOutcome);
        fetched := Some(q);
        itemsEffectDeps := Some(Deps());
      } else {
        fetched := None;
        alert := None;
      }
    }

    /** `handlePaginationChange`: store both values and fetch with exactly them. */
    method HandlePaginationChange(page: int, size: int, o: ItemsOutcome)
      returns (q: ItemsQuery, alert: Option<Alert>)
      requires Valid()
      modifies this`currentPage, this`pageSize, this`items, this`filteredCount, this`totalCount,
        this`loadingItems
      ensures Valid() && currentPage == page && pageSize == size
      ensures q == BuildQuery(None, None, page, size, searchType, searchValue)
      ensures ListingNow() == ApplyItems(old(ListingNow()), o) && alert == ItemsAlert(o)
      ensures !loadingItems
    {
      currentPage := page;
      pageSize := size;
      q, alert := FetchItems(Some(page), Some(size), o);
    }

    /** `handlePageSizeChange`: the new size, back to page 1, and fetch `(1, size)`. */
    method HandlePageSizeChange(size: int, o: ItemsOutcome)
      returns (q: ItemsQuery, alert: Option<Alert>)
      requires Valid()
      modifies this`currentPage, this`pageSize, this`items, this`filteredCount, this`totalCount,
        this`loadingItems
      ensures Valid() && currentPage == 1 && pageSize == size
      ensures q.page == 1 && q.pageSize == size
      ensures q == BuildQuery(None, None, 1, size, searchType, searchValue)
      ensures ListingNow() == ApplyItems(old(ListingNow()), o) && alert == ItemsAlert(o)
      ensures !loadingItems
    {
      pageSize := size;
      currentPage := 1;
      q, alert := FetchItems(Some(1), Some(size), o);
    }

    /** `handleSearch(type, value)`: store the filter and go back to page 1;
        the items effect does the fetching. `identity` names the array passed
        for a warehouse search. */
    method HandleSearch(t: SearchType, v: SearchValue, identity: nat)
      requires ValueMatchesType(t, v)
      modifies this`searchType, this`searchValue, this`searchKey, this`currentPage
      ensures Valid() && searchType == t && searchValue == v && currentPage == 1
      ensures searchKey == KeyOf(v, identity)
    {
      searchType := t;
      searchValue := v;
      searchKey := KeyOf(v, identity);
      currentPage := 1;
    }

    /** `handleRefresh`: bump the shared counter, then refetch the items with
        the state's page and size, then the warehouses. */
    method HandleRefresh(refresh: RefreshContext.RefreshProvider, itemsOutcome: ItemsOutcome,
                         warehousesOutcome: WarehousesOutcome)
      returns (q: ItemsQuery, alert: Option<Alert>)
      requires Valid() && refresh.Valid()
      modifies this`items, this`filteredCount, this`totalCount, this`loadingItems,
        this`warehouses, this`loadingWarehouses, refresh
      ensures refresh.Valid() && refresh.refreshKey == old(refresh.refreshKey) + 1
      ensures q == BuildQuery(None, None, currentPage, pageSize, searchType, searchValue)
      ensures ListingNow() == ApplyItems(old(ListingNow()), itemsOutcome) && alert == ItemsAlert(itemsOutcome)
      ensures warehouses == ApplyWarehouses(old(warehouses), warehousesOutcome)
      ensures !loadingItems && !loadingWarehouses
    {
      refresh.Refresh();
      q, alert := FetchItems(None, None, itemsOutcome);
      FetchWarehouses(warehousesOutcome);
    }

    /** `handleCreateSuccess` and `handleFetchItems`: a plain `fetchItems()`. */
    method HandleCreateSuccess(o: ItemsOutcome) returns (q: ItemsQuery, alert: Option<Alert>)
      requires Valid()
      modifies this`items, this`filteredCount, this`totalCount, this`loadingItems
      ensures q == BuildQuery(None, None, currentPage, pageSize, searchType, searchValue)
      ensures ListingNow() == ApplyItems(old(ListingNow()), o) && alert == ItemsAlert(o)
      ensures !loadingItems
    {
      q, alert := FetchItems(None, None, o);
    }

    /** `handleCreate`. */
    method HandleCreate()
      modifies this`isCreateModalOpen
      ensures isCreateModalOpen
    {
      isCreateModalOpen := true;
    }

    /** `handleCloseCreateModal`. */
    method HandleCloseCreateModal()
      modifies this`isCreateModalOpen
      ensures !isCreateModalOpen
    {
      isCreateModalOpen := false;
    }

    function WarehouseOptionsNow(): seq<SelectOption>
      reads this
    {
      WarehouseOptions(warehouses)
    }
  }

  /** A pagination change fetches twice: directly, and again from the items
      effect on the next render, which sees the new page or size among its
      dependencies. Both requests carry the same params. */
  method PaginationChangeThenEffects(c: UseInventory, page: int, size: int,
                                     direct: ItemsOutcome, again: ItemsOutcome, ws: WarehousesOutcome)
    returns (first: ItemsQuery, second: Option<ItemsQuery>)
    requires c.Valid() && c.itemsEffectDeps == Some(c.Deps())
    requires page != c.currentPage || size != c.pageSize
    modifies c
    ensures second == Some(first)
    ensures first.page == page && first.pageSize == size
  {
    var alert;
    first, alert := c.HandlePaginationChange(page, size, direct);
    var warehousesFetched;
    warehousesFetched, second, alert := c.RunEffects(again, ws);
  }

  /** A search changes the effect's dependencies whenever the type, the text,
      the array or the page differs, so the new filter is fetched from page 1
      by the effect. */
  lemma SearchTriggersFetch(before: EffectDeps, t: SearchType, v: SearchValue, identity: nat)
    requires before.searchType != t || before.searchKey != KeyOf(v, identity) || before.page != 1
    ensures EffectDeps(t, KeyOf(v, identity), 1, before.pageSize) != before
  {
  }

  /** Searching again for the same text on page 1 fetches nothing; searching
      again for the same warehouses with a new array fetches again, even
      though the ids are the same. */
  lemma RepeatedSearch(t: SearchType, text: string, ids: seq<string>, old1: nat, new1: nat, size: int)
    requires old1 != new1
    ensures var before := EffectDeps(t, KeyOf(TextValue(text), old1), 1, size);
      EffectDeps(t, KeyOf(TextValue(text), new1), 1, size) == before
    ensures var before := EffectDeps(t, KeyOf(WarehouseIds(ids), old1), 1, size);
      EffectDeps(t, KeyOf(WarehouseIds(ids), new1), 1, size) != before
  {
  }
}
