/** The item table (`itemMaster/TableItems`): which rows are expanded, the
    per-SKU movement cache and loading flags, the item chosen for the
    add-movement and edit modals, the stock-status badge and the status
    column filter. */
module TableItems {
  import opened Wrappers
  import opened Domain

  // ---------------------------------------------------------------- pure parts

  /** The `status` of an antd `Badge`. */
  datatype BadgeStatus = BadgeSuccess | BadgeWarning | BadgeError

  datatype StatusConfig = StatusConfig(status: BadgeStatus, caption: string)

  /** `getStockStatusConfig`: the three known statuses get their own badge;
      anything else falls back to the in-stock badge. */
  function StockStatusConfig(s: StockStatus): (c: StatusConfig)
    ensures s == InStock ==> c == StatusConfig(BadgeSuccess, "In Stock")
    ensures s == LowStock ==> c == StatusConfig(BadgeWarning, "Low Stock")
    ensures s == OutOfStock ==> c == StatusConfig(BadgeError, "Out of Stock")
    ensures s.OtherStatus? ==> c == StatusConfig(BadgeSuccess, "In Stock")
  {
    match s
    case InStock => StatusConfig(BadgeSuccess, "In Stock")
    case LowStock => StatusConfig(BadgeWarning, "Low Stock")
    case OutOfStock => StatusConfig(BadgeError, "Out of Stock")
    case OtherStatus(_) => StatusConfig(BadgeSuccess, "In Stock")
  }

  /** Only an out-of-stock row shows the error badge, and only a low-stock row the warning. */
  lemma BadgeIdentifiesStatus(s: StockStatus)
    ensures StockStatusConfig(s).status == BadgeError <==> s == OutOfStock
    ensures StockStatusConfig(s).status == BadgeWarning <==> s == LowStock
  {
  }

  /** The status column's `onFilter` applied to every row: keep the rows whose
      `stock_status` equals the chosen value, in their order. */
  function FilterByStatus(items: seq<Item>, v: StockStatus): (r: seq<Item>)
    ensures |r| <= |items|
    ensures forall i :: 0 <= i < |r| ==> r[i].stockStatus == v
    ensures forall it :: multiset(r)[it] == if it.stockStatus == v then multiset(items)[it] else 0
  {
    if items == [] then []
    else
      var rest := FilterByStatus(items[1..], v);
      assert items == [items[0]] + items[1..];
      if items[0].stockStatus == v then [items[0]] + rest else rest
  }

  /** Filtering works row by row: the kept rows of a concatenation are the
      kept rows of each part, in order, so no row moves ahead of another. */
  lemma {:induction false} FilterAppend(a: seq<Item>, b: seq<Item>, v: StockStatus)
    ensures FilterByStatus(a + b, v) == FilterByStatus(a, v) + FilterByStatus(b, v)
  {
    if a == [] {
      assert a + b == b;
    } else {
      assert (a + b)[0] == a[0];
      assert (a + b)[1..] == a[1..] + b;
      FilterAppend(a[1..], b, v);
    }
  }

  /** A single row is kept exactly when its status is the chosen one. */
  lemma FilterSingle(it: Item, v: StockStatus)
    ensures FilterByStatus([it], v) == if it.stockStatus == v then [it] else []
  {
    assert [it][1..] == [];
  }

  /** Filtering twice by the same value changes nothing. */
  lemma {:induction false} FilterIdempotent(items: seq<Item>, v: StockStatus)
    ensures FilterByStatus(FilterByStatus(items, v), v) == FilterByStatus(items, v)
  {
    if items != [] {
      FilterIdempotent(items[1..], v);
    }
  }

  /** The row class: expanded rows keep the hover highlight. */
  function RowClassName(expandedRows: set<string>, sku: string): (c: string)
    ensures c == "ant-table-row-hover" <==> sku in expandedRows
    ensures sku !in expandedRows ==> c == ""
  {
    if sku in expandedRows then "ant-table-row-hover" else ""
  }

  /** The cache entry is truthy: present and holding an array (`data.data`
      can be absent in a 200 response, and is then stored as `undefined`). */
  predicate Cached(m: map<string, Option<seq<Movement>>>, sku: string) {
    sku in m && m[sku].Some?
  }

  /** How `GET /item/{sku}/movements` ended. */
  datatype MovementsOutcome =
    | MovementsResponse(status: int, data: Option<seq<Movement>>)
    | MovementsRequestFailed

  /** The cache after a completed fetch for `sku`: a 200 stores `data` under
      `sku`; anything else leaves the cache alone. */
  function ApplyMovements(m: map<string, Option<seq<Movement>>>, sku: string, o: MovementsOutcome)
    : (r: map<string, Option<seq<Movement>>>)
    ensures o.MovementsResponse? && o.status == 200 ==> sku in r && r[sku] == o.data
    ensures !(o.MovementsResponse? && o.status == 200) ==> r == m
    ensures forall k :: k != sku ==> (k in r <==> k in m) && (k in r ==> r[k] == m[k])
  {
    if o.MovementsResponse? && o.status == 200 then m[sku := o.data] else m
  }

  /** What an expanded row shows. */
  datatype RowView = LoadingMovementsView | MovementsView(movements: seq<Movement>)

  /** `expandedRowRender`: the loading text while the SKU's flag is on,
      otherwise its cached movements, or none. */
  function ExpandedRowView(m: map<string, Option<seq<Movement>>>, loading: map<string, bool>, sku: string)
    : (v: RowView)
    ensures v.LoadingMovementsView? <==> sku in loading && loading[sku]
    ensures v.MovementsView? ==> v.movements == if Cached(m, sku) then m[sku].value else []
  {
    if sku in loading && loading[sku] then LoadingMovementsView
    else MovementsView(if Cached(m, sku) then m[sku].value else [])
  }

  const MovementsFailureAlert := ErrorAlert("Something went wrong!", "Please try again later")

  /** The dialog a completed movements fetch raises: the fixed one, exactly
      when the request failed or the status was not 200. */
  function MovementsAlert(o: MovementsOutcome): (a: Option<Alert>)
    ensures a.None? <==> o.MovementsResponse? && o.status == 200
    ensures a.Some? ==> a.value == MovementsFailureAlert
  {
    if o.MovementsResponse? && o.status == 200 then None else Some(MovementsFailureAlert)
  }

  // ---------------------------------------------------------------- the component

  class TableItemsState {
    var expandedRows: set<string>
    var movementsData: map<string, Option<seq<Movement>>>
    var loadingMovements: map<string, bool>
    var addMovementModalOpen: bool
    var selectedItem: Option<Item>
    var editInventoryModalOpen: bool

    constructor ()
      ensures expandedRows == {} && movementsData == map[] && loadingMovements == map[]
      ensures !addMovementModalOpen && selectedItem == None && !editInventoryModalOpen
    {
      expandedRows := {};
      movementsData := map[];
      loadingMovements := map[];
      addMovementModalOpen := false;
      selectedItem := None;
      editInventoryModalOpen := false;
    }

    /** `fetchMovements(sku, forceRefresh)`: nothing at all when the SKU is
        cached and the call is not forced; otherwise the loading flag is on
        while the request runs and off after it. */
    method FetchMovements(sku: string, forceRefresh: bool, o: MovementsOutcome)
      returns (fetched: bool, alert: Option<Alert>)
      modifies this`movementsData, this`loadingMovements
      ensures fetched <==> !(Cached(old(movementsData), sku) && !forceRefresh)
      ensures !fetched ==>
        movementsData == old(movementsData) && loadingMovements == old(loadingMovements) && alert == None
      ensures fetched ==>
        movementsData == ApplyMovements(old(movementsData), sku, o)
        && loadingMovements == old(loadingMovements)[sku := false]
        && alert == MovementsAlert(o)
    {
      if Cached(movementsData, sku) && !forceRefresh {
        return false, None;
      }
      fetched := true;
      loadingMovements := loadingMovements[sku := true];
      assert loadingMovements[sku := false] == old(loadingMovements)[sku := false];
      if o.MovementsResponse? && o.status == 200 {
        movementsData := movementsData[sku := o.data];
        alert := None;
      } else {
        alert := Some(MovementsFailureAlert);
      }
      loadingMovements := loadingMovements[sku := false];
    }

    /** `handleExpand`: expanding adds the SKU and force-refetches its
        movements; collapsing removes that SKU only. */
    method HandleExpand(expanded: bool, record: Item, o: MovementsOutcome)
      returns (fetched: bool, alert: Option<Alert>)
      modifies this`expandedRows, this`movementsData, this`loadingMovements
      ensures expanded ==> expandedRows == old(expandedRows) + {record.sku}
      ensures !expanded ==> expandedRows == old(expandedRows) - {record.sku}
      ensures fetched <==> expanded
      ensures fetched ==>
        movementsData == ApplyMovements(old(movementsData), record.sku, o)
        && loadingMovements == old(loadingMovements)[record.sku := false]
        && alert == MovementsAlert(o)
      ensures !fetched ==>
        movementsData == old(movementsData) && loadingMovements == old(loadingMovements) && alert == None
    {
      if expanded {
        expandedRows := expandedRows + {record.sku};
        fetched, alert := FetchMovements(record.sku, true, o);
      } else {
        expandedRows := expandedRows - {record.sku};
        fetched, alert := false, None;
      }
    }

    /** `handleAddMovement`. */
    method HandleAddMovement(record: Item)
      modifies this`selectedItem, this`addMovementModalOpen
      ensures selectedItem == Some(record) && addMovementModalOpen
    {
      selectedItem := Some(record);
      addMovementModalOpen := true;
    }

    /** `handleEdit`. */
    method HandleEdit(record: Item)
      modifies this`selectedItem, this`editInventoryModalOpen
      ensures selectedItem == Some(record) && editInventoryModalOpen
    {
      selectedItem := Some(record);
      editInventoryModalOpen := true;
    }

    /** `handleAddMovementSuccess(sku)`: force-refetch that SKU, then call
        `onFetchItems` when it was given. */
    method HandleAddMovementSuccess(sku: string, o: MovementsOutcome, hasOnFetchItems: bool)
      returns (alert: Option<Alert>, fetchItemsCalled: bool)
      modifies this`movementsData, this`loadingMovements
      ensures movementsData == ApplyMovements(old(movementsData), sku, o)
      ensures loadingMovements == old(loadingMovements)[sku := false]
      ensures alert == MovementsAlert(o)
      ensures fetchItemsCalled == hasOnFetchItems
    {
      var fetched;
      fetched, alert := FetchMovements(sku, true, o);
      fetchItemsCalled := hasOnFetchItems;
    }

    /** The add-movement modal's `onCancel`. */
    method AddMovementCancel()
      modifies this`addMovementModalOpen, this`selectedItem
      ensures !addMovementModalOpen && selectedItem == None
    {
      addMovementModalOpen := false;
      selectedItem := None;
    }

    /** The add-movement modal after a 201: it calls `onCancel` and then
        `onSuccess`, both closures of the same render, so `onSuccess` still
        sees the item selected before `onCancel` cleared it. */
    method AddMovementSubmitted(o: MovementsOutcome, hasOnFetchItems: bool)
      returns (refetchedSku: Option<string>, alert: Option<Alert>, fetchItemsCalled: bool)
      modifies this`addMovementModalOpen, this`selectedItem, this`movementsData, this`loadingMovements
      ensures refetchedSku == if old(selectedItem).Some? then Some(old(selectedItem).value.sku) else None
      ensures refetchedSku.Some? ==>
        movementsData == ApplyMovements(old(movementsData), refetchedSku.value, o)
        && loadingMovements == old(loadingMovements)[refetchedSku.value := false]
        && alert == MovementsAlert(o)
      ensures refetchedSku.None? ==>
        movementsData == old(movementsData) && loadingMovements == old(loadingMovements)
        && alert == None && !fetchItemsCalled
      ensures refetchedSku.Some? ==> fetchItemsCalled == hasOnFetchItems
      ensures !addMovementModalOpen && selectedItem == None
    {
      var captured := selectedItem;
      AddMovementCancel();
      if captured.Some? {
        refetchedSku := Some(captured.value.sku);
        alert, fetchItemsCalled := HandleAddMovementSuccess(captured.value.sku, o, hasOnFetchItems);
      } else {
        refetchedSku, alert, fetchItemsCalled := None, None, false;
      }
      AddMovementCancel();
    }

    /** The edit modal's `onCancel`. */
    method EditCancel()
      modifies this`editInventoryModalOpen, this`selectedItem
      ensures !editInventoryModalOpen && selectedItem == None
    {
      editInventoryModalOpen := false;
      selectedItem := None;
    }

    /** The edit modal after a 200, with the same closure capture as above:
        `onFetchItems` runs when an item was selected and the prop is given. */
    method EditSubmitted(hasOnFetchItems: bool) returns (fetchItemsCalled: bool)
      modifies this`editInventoryModalOpen, this`selectedItem
      ensures fetchItemsCalled <==> old(selectedItem).Some? && hasOnFetchItems
      ensures !editInventoryModalOpen && selectedItem == None
    {
      var captured := selectedItem;
      EditCancel();
      fetchItemsCalled := captured.Some? && hasOnFetchItems;
      EditCancel();
    }

    function RowClass(sku: string): string
      reads this
    {
      RowClassName(expandedRows, sku)
    }

    function ExpandedRow(sku: string): RowView
      reads this
    {
      ExpandedRowView(movementsData, loadingMovements, sku)
    }
  }

  /** Once cached, a SKU stays cached through every later fetch, except a
      200 response without `data`, which stores `undefined` and makes the
      next unforced fetch go to the network again. */
  lemma CacheSurvivesFetches(m: map<string, Option<seq<Movement>>>, sku: string, o: MovementsOutcome)
    requires Cached(m, sku)
    ensures Cached(ApplyMovements(m, sku, o), sku) <==> !(o.MovementsResponse? && o.status == 200 && o.data.None?)
  {
  }
}
