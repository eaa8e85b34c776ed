# Inventory web front end: a Dafny model of its client-side logic

This project models the client-side state logic of the ProFlow Labs
inventory web site, a Next.js front end. The model covers:

- **Access control.** The edge `middleware`, the `isValidToken` and
  `clearAuthData` helpers, and the `AuthProvider` context (session restore,
  login, logout and the route guard).
- **The application shell.** The `AppLayout` menu and breadcrumb.
- **The inventory page.** This is the `useInventory` controller and what it
  drives:
  - the search bar, in both revisions (`useSearch` and the older `Search`);
  - the pagination control, in both revisions (`useInventoryPagination` and
    the older `InventoryPagination`);
  - the item table with its movement cache and movement chart;
  - the three modals, which add a stock movement, create an item master (two
    revisions) and rename an item master.
- **The dashboard.** The `useDashboard` hook and the shared `RefreshContext`
  counter.

Components whose state React updates in place become Dafny classes. Their
fields are the component's state and props. Each handler is a method with a
`modifies` frame, and its `ensures` ties the new state to a pure function of
the old state. The pure functions carry the properties the code promises,
and the lemmas relate them: round trips, invariants, and agreement between
the two revisions of a component or between the client guard and the
middleware.

Effects outside the browser's JavaScript are parameters:

- Each HTTP request is an *outcome* argument, a datatype listing the ways
  the request can end. Every fetch is taken as one atomic step.
- Each `Swal.fire` dialog is a returned `Alert` value.
- Each prop callback is a returned `ModalCallback` or call record.
- Each `router.push` is a returned `Option<string>` path.

JavaScript semantics the code relies on are written out:

- truthiness;
- `a || b` defaults (`Text.OrDefault`);
- the `TypeError` thrown by reading a field of `undefined`;
- `"[object Object]"` as an object's text;
- the string comparison in a key filter;
- `Math.floor` over a `Math.random()` draw, which is an input here.

Modules, by source file:

- `Pagination`, `PaginationHook`, `PaginationView`: the page list and the
  navigation guards.
- `SearchModel`, `SearchHook`, `SearchLegacy`: the search bar.
- `InventoryController`: `useInventory`.
- `RefreshContext`, `DashboardHook`: the refresh counter and the dashboard.
- `TableItems`, `MovementChart`: the item table and its chart.
- `FormRules`: what the modals share.
- `AddMovementModal`, `CreateInventoryModal`, `CreateInventoryLegacy`,
  `EditInventoryModal`: the modals.
- `Middleware`, `AuthUtils`, `AuthContext`: access control.
- `AppLayout`: the shell.
- `Wrappers`, `Text`, `Domain`: an option/result type, the JavaScript string
  builtins the code uses, and the domain records (item, movement, warehouse,
  alert).

## Model

| member | source | states |
|---|---|---|
| Pagination.TotalPages | app/inventory/components/pagination/hooks/useInventoryPagination.tsx:19 | `Math.ceil(total / pageSize)` is the least page count whose pages hold every row, and it is 0 exactly for an empty listing |
| Pagination.Range | app/inventory/components/pagination/hooks/useInventoryPagination.tsx:69-73 | the counting loop yields the pages lo..hi in order, and none when hi < lo |
| Pagination.GetPageNumbers | app/inventory/components/pagination/hooks/useInventoryPagination.tsx:65-98 | the push loops of `getPageNumbers` build exactly the page window, whose shape the Window lemmas give |
| Pagination.RangeHasNoEllipsis | app/inventory/components/pagination/hooks/useInventoryPagination.tsx:69-73 | a run of consecutive pages contains no ellipsis |
| Pagination.WindowSize | app/inventory/components/pagination/hooks/useInventoryPagination.tsx:65-98 | the list has at most 7 entries and at most 2 ellipses, and it has an ellipsis exactly when there are more than 5 pages |
| Pagination.WindowEnds | app/inventory/components/pagination/hooks/useInventoryPagination.tsx:65-98 | the list is empty iff there are no pages; otherwise it starts at page 1 and ends at the last page |
| Pagination.WindowEntries | app/inventory/components/pagination/hooks/useInventoryPagination.tsx:65-98 | the list entry by entry for each of the four cases (all pages, near the start, near the end, in the middle) |
| Pagination.WindowIncreasing | app/inventory/components/pagination/hooks/useInventoryPagination.tsx:65-98 | page numbers strictly increase from left to right |
| Pagination.WindowWithin | app/inventory/components/pagination/hooks/useInventoryPagination.tsx:65-98 | every listed page exists, in [1, totalPages] |
| Pagination.WindowGapsMarked | app/inventory/components/pagination/hooks/useInventoryPagination.tsx:65-98 | adjacent buttons are adjacent pages, and each ellipsis sits between two buttons and hides at least one page |
| Pagination.CurrentPageVisible | app/inventory/components/pagination/hooks/useInventoryPagination.tsx:65-98 | whichever existing page is current, its button is in the list |
| Pagination.Prev | app/inventory/components/pagination/hooks/useInventoryPagination.tsx:49-53 | `handlePrev` emits (current - 1, pageSize) iff current > 1, and nothing otherwise |
| Pagination.Next | app/inventory/components/pagination/hooks/useInventoryPagination.tsx:55-59 | `handleNext` emits (current + 1, pageSize) iff current < totalPages, and nothing otherwise |
| Pagination.GoToTarget | app/inventory/components/pagination/hooks/useInventoryPagination.tsx:35-41 | the typed text yields a page only when `parseInt` gives a number in [1, totalPages]; a non-numeral or an out-of-range number yields nothing |
| Pagination.PageSizeChangeCalls | app/inventory/components/pagination/hooks/useInventoryPagination.tsx:28-33 | the optional `onPageSizeChange(value)` comes first, then always `onChange(1, value)` |
| Pagination.ButtonsMatchHandlers | app/inventory/components/pagination/hooks/useInventoryPagination.tsx:49-101 | on an existing page, Prev and Next are enabled exactly when their handlers move, and they never leave [1, totalPages] |
| Pagination.EmptyListingNextEnabledButInert | app/inventory/components/pagination/hooks/useInventoryPagination.tsx:55-101 | with no rows there are 0 pages; on page 1 the Next button is enabled (1 !== 0) but its handler does nothing |
| Pagination.GoToTypedPage | app/inventory/components/pagination/hooks/useInventoryPagination.tsx:35-102 | typing an existing page's numeral and pressing Go reaches that page; an empty box (Go disabled) reaches nothing |
| PaginationHook.UseInventoryPagination.constructor | app/inventory/components/pagination/hooks/useInventoryPagination.tsx:18 | the hook starts from its props, with an empty go-to box |
| PaginationHook.UseInventoryPagination.Rerender | app/inventory/components/pagination/hooks/useInventoryPagination.tsx:12-18 | new props replace the old ones, and the go-to text survives |
| PaginationHook.UseInventoryPagination.SetGoToPage | app/inventory/components/pagination/hooks/useInventoryPagination.tsx:18 | the input stores the typed text |
| PaginationHook.UseInventoryPagination.HandleGoToPage | app/inventory/components/pagination/hooks/useInventoryPagination.tsx:35-41 | it emits a change iff the text names an existing page, and only then clears the box |
| PaginationHook.UseInventoryPagination.HandleKeyPress | app/inventory/components/pagination/hooks/useInventoryPagination.tsx:43-47 | Enter acts as the Go button; any other key changes nothing |
| PaginationHook.UseInventoryPagination.HandlePrev | app/inventory/components/pagination/hooks/useInventoryPagination.tsx:49-53 | the previous page with the current size, only after page 1 |
| PaginationHook.UseInventoryPagination.HandleNext | app/inventory/components/pagination/hooks/useInventoryPagination.tsx:55-59 | the next page with the current size, only before the last page |
| PaginationHook.UseInventoryPagination.HandlePageClick | app/inventory/components/pagination/hooks/useInventoryPagination.tsx:61-63 | a page button emits its own page with the current size |
| PaginationHook.UseInventoryPagination.HandlePageSizeChange | app/inventory/components/pagination/hooks/useInventoryPagination.tsx:28-33 | a size change always ends with `onChange(1, size)` |
| PaginationHook.UseInventoryPagination.PageNumbers | app/inventory/components/pagination/hooks/useInventoryPagination.tsx:65-98 | the page list for the current props, which shows the current page whenever that page exists |
| PaginationView.RenderPages | app/inventory/components/InventoryPagination.tsx:143-162 | one button per page, a marker per ellipsis, and a button is `primary` iff it is the current page |
| PaginationView.ExactlyCurrentIsPrimary | app/inventory/components/InventoryPagination.tsx:62-95 | on an existing page exactly one button is primary, and it carries the current page |
| PaginationView.NoPrimaryOutsideRange | app/inventory/components/InventoryPagination.tsx:62-95 | with the current page out of range, no button is primary |
| PaginationView.InventoryPagination.constructor | app/inventory/components/InventoryPagination.tsx:22 | the component starts from its props, with an empty go-to box |
| PaginationView.InventoryPagination.SetGoToPage | app/inventory/components/InventoryPagination.tsx:119 | the input stores the typed text |
| PaginationView.InventoryPagination.HandleGoToPage | app/inventory/components/InventoryPagination.tsx:32-38 | same as the hook: only a page in range is emitted, and only then is the box cleared |
| PaginationView.InventoryPagination.Render | app/inventory/components/InventoryPagination.tsx:62-95 | the rendered buttons for the current props, with a primary button whenever the current page exists |
| SearchModel.HasActiveFilterMeaning | app/inventory/components/search/hooks/useSearch.tsx:83-86 | the reset button shows iff a search was made and the input of the current type is filled |
| SearchModel.SubmittedCall | app/inventory/components/search/hooks/useSearch.tsx:47-56 | `onSearch` gets the current type, with the warehouse selection for a warehouse search and the text otherwise |
| SearchModel.SearchActivatesIffFilled | app/inventory/components/search/hooks/useSearch.tsx:47-86 | searching turns the active filter on exactly when the shown input is filled, and it keeps every input |
| SearchModel.TypingNeverActivates | app/inventory/components/search/hooks/useSearch.tsx:18-86 | editing an input without searching never shows the reset button |
| SearchModel.TypeChanged | app/inventory/components/search/hooks/useSearch.tsx:75-81 | a type change clears both inputs, turns the filter off and hides the reset button |
| SearchModel.DisplayCount | app/inventory/components/search/hooks/useSearch.tsx:89 | `filteredCount ?? 0` |
| SearchModel.DisplayTotal | app/inventory/components/search/hooks/useSearch.tsx:90 | `filteredTotalCount ?? totalCount ?? 0` |
| SearchModel.TransitionsKeepNoFilteredTotal | app/inventory/components/search/hooks/useSearch.tsx:21-81 | no transition ever stores a number in `filteredTotalCount` |
| SearchModel.DisplayTotalIsTotalCount | app/inventory/components/search/hooks/useSearch.tsx:90 | so the total shown is always the parent's `totalCount ?? 0` |
| SearchHook.Initial | app/inventory/components/search/hooks/useSearch.tsx:15-23 | the first render searches item masters, with empty inputs and no filter |
| SearchHook.Reset | app/inventory/components/search/hooks/useSearch.tsx:58-63 | reset restores the whole initial state, the type included |
| SearchHook.ItemMasterSearchAlwaysEnabled | app/inventory/components/search/hooks/useSearch.tsx:92-94 | the hook never disables an item-master search, even with empty text |
| SearchHook.ResetClearsFilter | app/inventory/components/search/hooks/useSearch.tsx:58-90 | after a reset the reset button disappears and the parent's total is shown |
| SearchHook.UseSearch.constructor | app/inventory/components/search/hooks/useSearch.tsx:14-23 | the hook's state starts at the initial state |
| SearchHook.UseSearch.SetSearchText | app/inventory/components/search/Search.tsx:58 | typing changes only the text |
| SearchHook.UseSearch.SetSelectedWarehouses | app/inventory/components/search/Search.tsx:70 | selecting changes only the selection |
| SearchHook.UseSearch.HandleSearch | app/inventory/components/search/hooks/useSearch.tsx:47-56 | the filter is marked on, and `onSearch` (when given) receives the submitted call |
| SearchHook.UseSearch.HandleReset | app/inventory/components/search/hooks/useSearch.tsx:58-67 | back to the initial state, then `onSearch(ITEM_MASTER, "")` when given |
| SearchHook.UseSearch.HandleKeyDown | app/inventory/components/search/hooks/useSearch.tsx:69-73 | Enter searches; any other key changes nothing and calls nothing |
| SearchHook.UseSearch.HandleSearchTypeChange | app/inventory/components/search/hooks/useSearch.tsx:75-81 | the new type with both inputs cleared and the filter off |
| SearchHook.UseSearch.Counts | app/inventory/components/search/hooks/useSearch.tsx:88-90 | the shown counts are `filteredCount ?? 0` and `totalCount ?? 0` |
| SearchLegacy.Reset | app/inventory/components/Search.tsx:75-80 | the older reset clears the inputs and the filter but keeps the search type |
| SearchLegacy.ButtonDisabledIffEmpty | app/inventory/components/Search.tsx:146-151 | the older button is disabled exactly when the shown input is empty |
| SearchLegacy.ResetsDifferOnlyInType | app/inventory/components/Search.tsx:75-83 | the two resets agree except on the type, which only the hook sets back to item master |
| SearchLegacy.LegacyButtonStricter | app/inventory/components/Search.tsx:146-151 | the older button is disabled whenever the hook's is, and also for an empty item-master text |
| SearchLegacy.SearchComponent.constructor | app/inventory/components/Search.tsx:28-37 | the older component starts at the same initial state as the hook |
| SearchLegacy.SearchComponent.SetSearchText | app/inventory/components/Search.tsx:125 | typing changes only the text |
| SearchLegacy.SearchComponent.SetSelectedWarehouses | app/inventory/components/Search.tsx:136 | selecting changes only the selection |
| SearchLegacy.SearchComponent.HandleSearch | app/inventory/components/Search.tsx:62-73 | the same transition and call as the hook |
| SearchLegacy.SearchComponent.HandleReset | app/inventory/components/Search.tsx:75-83 | the type stays, yet the call still says `ITEM_MASTER` with "" |
| SearchLegacy.SearchComponent.HandleKeyDown | app/inventory/components/Search.tsx:85-89 | Enter searches without consulting the button's `disabled` expression |
| SearchLegacy.SearchComponent.HandleSearchTypeChange | app/inventory/components/Search.tsx:91-97 | the new type with both inputs cleared and the filter off |
| SearchLegacy.SearchComponent.ShowCountNow | app/inventory/components/Search.tsx:105-107 | the count line shows iff `filteredCount ?? 0` or `totalCount ?? 0` is positive |
| SearchLegacy.EnterBypassesDisabledButton | app/inventory/components/Search.tsx:85-151 | Enter in an empty item-master box still searches with "", although the button is disabled |
| InventoryController.SearchBarCallsMatchType | app/inventory/hooks/useInventory.tsx:59-63 | both search bars only send a text for an item-master search and an id list for a warehouse search, the shapes the casts assume |
| InventoryController.BuildQuery | app/inventory/hooks/useInventory.tsx:55-63 | page and size come from the arguments, else from the state; `name` is sent for an item-master search, and the ids joined by "," for a warehouse search |
| InventoryController.WarehouseIdsRecoverable | app/inventory/hooks/useInventory.tsx:62 | decimal warehouse ids joined with "," split back into the same ids, in order |
| InventoryController.ApplyItems | app/inventory/hooks/useInventory.tsx:72-79 | a 200 replaces the rows (`data.data \|\| []`), sets the filtered count to their number and sets the total to `totalItems`; any other outcome keeps the listing |
| InventoryController.SuccessForgetsPrevious | app/inventory/hooks/useInventory.tsx:72-79 | after a success, the listing does not depend on what was shown before |
| InventoryController.LastSuccessWins | app/inventory/hooks/useInventory.tsx:72-89 | the last successful fetch decides the listing, and applying one outcome twice is the same as once |
| InventoryController.ItemsAlert | app/inventory/hooks/useInventory.tsx:80-86 | every failure, and only a failure, raises the one generic dialog |
| InventoryController.ApplyWarehouses | app/inventory/hooks/useInventory.tsx:100-107 | a 200 replaces the warehouse list with `data.data \|\| []`; a failure is swallowed and keeps the list |
| InventoryController.WarehouseOptions | app/inventory/hooks/useInventory.tsx:128-133 | one option per warehouse, in order, with its id as value and its name as label |
| InventoryController.UseInventory.constructor | app/inventory/hooks/useInventory.tsx:10-26 | the first render: no rows, both loading flags on, counts 20 and 21, page 1 of size 20, item-master search for "" |
| InventoryController.UseInventory.StartFetchItems | app/inventory/hooks/useInventory.tsx:53-63 | loading on, and the params built from the arguments and the state |
| InventoryController.UseInventory.FinishFetchItems | app/inventory/hooks/useInventory.tsx:72-89 | the listing becomes `ApplyItems` of the outcome, a failure alerts, and loading goes off |
| InventoryController.UseInventory.FetchItems | app/inventory/hooks/useInventory.tsx:50-92 | `fetchItems` sends the built params, applies the outcome and clears loading |
| InventoryController.UseInventory.FetchWarehouses | app/inventory/hooks/useInventory.tsx:94-111 | the list becomes `ApplyWarehouses` of the outcome, and loading goes off |
| InventoryController.UseInventory.RunEffects | app/inventory/hooks/useInventory.tsx:147-153 | warehouses load on mount only; the items fetch runs iff its dependencies (a warehouse selection compared by array identity) changed since the last run, with the state's page and size; each loading flag ends off when its fetch ran and is untouched otherwise |
| InventoryController.UseInventory.HandlePaginationChange | app/inventory/hooks/useInventory.tsx:38-42 | it stores the page and size and fetches with exactly them; items are no longer loading afterwards |
| InventoryController.UseInventory.HandlePageSizeChange | app/inventory/hooks/useInventory.tsx:44-48 | it stores the new size, goes back to page 1 and fetches (1, size); items are no longer loading afterwards |
| InventoryController.UseInventory.HandleSearch | app/inventory/hooks/useInventory.tsx:113-120 | it stores the filter, keyed as the effect compares it (a string by text, an array by identity), and goes back to page 1; the effect does the fetching |
| InventoryController.UseInventory.HandleRefresh | app/inventory/hooks/useInventory.tsx:122-126 | it bumps the shared refresh counter by one, then refetches the items from the state and then the warehouses; neither is loading afterwards |
| InventoryController.UseInventory.HandleCreateSuccess | app/inventory/hooks/useInventory.tsx:135-141 | a plain `fetchItems()` with the state's page, size and filter; items are no longer loading afterwards |
| InventoryController.UseInventory.HandleCreate | app/inventory/hooks/useInventory.tsx:30-32 | the create modal opens |
| InventoryController.UseInventory.HandleCloseCreateModal | app/inventory/hooks/useInventory.tsx:143-145 | the create modal closes |
| InventoryController.PaginationChangeThenEffects | app/inventory/hooks/useInventory.tsx:38-153 | from a settled state, a pagination change fetches directly and the effect on the next render fetches again, with the same params |
| InventoryController.SearchTriggersFetch | app/inventory/hooks/useInventory.tsx:113-153 | a search that changes the type, the text, the array or the page changes the effect's dependencies, so the effect refetches from page 1 |
| InventoryController.RepeatedSearch | app/inventory/hooks/useInventory.tsx:113-153 | searching again for the same text on page 1 fetches nothing, while the same warehouse ids in a new array fetch again |
| InventoryController.KeyOf | app/inventory/hooks/useInventory.tsx:151-153 | a string dependency is compared by its text, an array by its identity alone |
| RefreshContext.RefreshProvider.constructor | app/contexts/RefreshContext.tsx:19 | the counter starts at 0 |
| RefreshContext.RefreshProvider.Refresh | app/contexts/RefreshContext.tsx:21-23 | each `refresh` adds exactly one, so the key counts the refreshes |
| RefreshContext.UseRefresh | app/contexts/RefreshContext.tsx:32-38 | the provider's value inside a provider; outside one, the error with its fixed message |
| DashboardHook.RunResult | app/inventory/components/dashboard/hooks/useDashboard.tsx:15-46 | a run always ends with loading off. A 200 stores the data and clears the error. A 401 from the client is silent and keeps the data. Any other failure keeps the data, stores the error text and raises the dialog |
| DashboardHook.FailureKeepsData | app/inventory/components/dashboard/hooks/useDashboard.tsx:29-43 | a failure never clears data that an earlier run loaded |
| DashboardHook.UnauthorizedResponseIsReported | app/inventory/components/dashboard/hooks/useDashboard.tsx:23-35 | only the client's 401 is silent; a 401 that arrives as a response is rethrown and reported |
| DashboardHook.ErrorClearedBySuccess | app/inventory/components/dashboard/hooks/useDashboard.tsx:17-18 | the next run clears an earlier error unless it fails too |
| DashboardHook.UseDashboard.constructor | app/inventory/components/dashboard/hooks/useDashboard.tsx:9-11 | no data, loading, no error, and the effect not yet run |
| DashboardHook.UseDashboard.FetchDashboardData | app/inventory/components/dashboard/hooks/useDashboard.tsx:15-47 | the state and the dialog after one run are those `RunResult` gives |
| DashboardHook.UseDashboard.OnRender | app/inventory/components/dashboard/hooks/useDashboard.tsx:14-50 | the effect runs on mount and whenever `refreshKey` changes, and otherwise leaves the state alone |
| TableItems.StockStatusConfig | app/inventory/components/itemMaster/TableItems.tsx:102-117 | each known status gets its own badge and caption; an unknown one falls back to "In Stock" |
| TableItems.BadgeIdentifiesStatus | app/inventory/components/itemMaster/TableItems.tsx:102-117 | only out-of-stock rows show the error badge, and only low-stock rows the warning badge |
| TableItems.FilterByStatus | app/inventory/components/itemMaster/TableItems.tsx:187 | it keeps exactly the rows with the chosen status, each as often as before; FilterAppend and FilterSingle give the order |
| TableItems.FilterAppend | app/inventory/components/itemMaster/TableItems.tsx:187 | the kept rows of a concatenation are the kept rows of each part, in order |
| TableItems.FilterSingle | app/inventory/components/itemMaster/TableItems.tsx:187 | a single row is kept exactly when its status is the chosen one |
| TableItems.FilterIdempotent | app/inventory/components/itemMaster/TableItems.tsx:187 | filtering twice by one status is the same as filtering once |
| TableItems.RowClassName | app/inventory/components/itemMaster/TableItems.tsx:295-298 | a row keeps the hover highlight iff it is expanded |
| TableItems.ApplyMovements | app/inventory/components/itemMaster/TableItems.tsx:49-59 | a 200 caches `data` under the SKU; anything else keeps the cache; other SKUs never change |
| TableItems.MovementsAlert | app/inventory/components/itemMaster/TableItems.tsx:55-66 | the fixed dialog, exactly when the request failed or the status was not 200 |
| TableItems.ExpandedRowView | app/inventory/components/itemMaster/TableItems.tsx:241-276 | the loading text while the SKU's flag is on; otherwise its cached movements, or none |
| TableItems.TableItemsState.constructor | app/inventory/components/itemMaster/TableItems.tsx:34-44 | nothing is expanded, cached or selected, and both modals are closed |
| TableItems.TableItemsState.FetchMovements | app/inventory/components/itemMaster/TableItems.tsx:46-70 | a cached SKU without force does nothing; otherwise the fetch applies the outcome, alerts on failure and clears that SKU's loading flag |
| TableItems.TableItemsState.HandleExpand | app/inventory/components/itemMaster/TableItems.tsx:72-83 | expanding adds the SKU and force-refetches it, with that SKU's loading flag off and the failure dialog as `MovementsAlert`; collapsing removes only that SKU and fetches nothing |
| TableItems.TableItemsState.HandleAddMovement | app/inventory/components/itemMaster/TableItems.tsx:85-88 | it selects the row and opens the add-movement modal |
| TableItems.TableItemsState.HandleEdit | app/inventory/components/itemMaster/TableItems.tsx:97-100 | it selects the row and opens the edit modal |
| TableItems.TableItemsState.HandleAddMovementSuccess | app/inventory/components/itemMaster/TableItems.tsx:90-95 | it force-refetches that SKU (loading flag off, dialog as `MovementsAlert`), then calls `onFetchItems` when given |
| TableItems.TableItemsState.AddMovementCancel | app/inventory/components/itemMaster/TableItems.tsx:304-307 | the add-movement modal closes and the selection clears |
| TableItems.TableItemsState.AddMovementSubmitted | app/inventory/components/itemMaster/TableItems.tsx:304-315 | after a 201 the SKU selected before `onCancel` ran is refetched (closure capture, loading flag off, dialog as `MovementsAlert`), and the modal closes with the selection cleared; with nothing selected nothing is fetched |
| TableItems.TableItemsState.EditCancel | app/inventory/components/itemMaster/TableItems.tsx:319-322 | the edit modal closes and the selection clears |
| TableItems.TableItemsState.EditSubmitted | app/inventory/components/itemMaster/TableItems.tsx:319-329 | `onFetchItems` runs iff an item was selected and the prop is given; the modal closes |
| TableItems.CacheSurvivesFetches | app/inventory/components/itemMaster/TableItems.tsx:46-59 | a cached SKU stays cached through every later fetch, except a 200 without `data`, which stores `undefined` |
| MovementChart.PointQty | app/inventory/components/itemMaster/ItemMovementChart.tsx:65-70 | an outbound point shows `current_qty - qty`; any other shows `current_qty + qty` |
| MovementChart.ChartData | app/inventory/components/itemMaster/ItemMovementChart.tsx:61-76 | the first seven movements in reverse order, each with its adjusted quantity and its position as index |
| MovementChart.NewestIsLast | app/inventory/components/itemMaster/ItemMovementChart.tsx:61-63 | the newest movement is drawn last, and the oldest of the seven first |
| MovementChart.MaxQty | app/inventory/components/itemMaster/ItemMovementChart.tsx:80 | `Math.max(...qtys, 0)` bounds every quantity, is at least 0 and is attained unless it is 0 |
| MovementChart.YAxisMax | app/inventory/components/itemMaster/ItemMovementChart.tsx:81 | the axis top is at least 1, above every bar, and is either 1 or an actual quantity |
| MovementChart.YAxisTight | app/inventory/components/itemMaster/ItemMovementChart.tsx:80-81 | with a positive quantity, the axis ends exactly at the largest one |
| MovementChart.MouseMoveUpdate | app/inventory/components/itemMaster/ItemMovementChart.tsx:83-93 | no state or no index leaves the hover alone; a number index is stored; a string index clears it |
| MovementChart.AtMostOneHighlighted | app/inventory/components/itemMaster/ItemMovementChart.tsx:109-116 | at most one bar is highlighted, and none when nothing is hovered or the index is past the last bar |
| MovementChart.ChartHover.constructor | app/inventory/components/itemMaster/ItemMovementChart.tsx:59 | nothing is hovered at first |
| MovementChart.ChartHover.HandleMouseMove | app/inventory/components/itemMaster/ItemMovementChart.tsx:83-93 | the hover index changes exactly as `MouseMoveUpdate` says |
| MovementChart.ChartHover.HandleMouseLeave | app/inventory/components/itemMaster/ItemMovementChart.tsx:102 | leaving the chart clears the hover |
| FormRules.NonBlankMeaning | app/inventory/components/modals/CreateInventoryModal.tsx:197-211 | the item-master validator accepts exactly a value with some non-whitespace character |
| FormRules.FilterOptionProperties | app/inventory/components/modals/CreateInventoryModal.tsx:228-234 | a non-string label never matches; empty input, or the label's own text, always matches |
| FormRules.FilterOptionIgnoresCase | app/inventory/components/modals/CreateInventoryModal.tsx:228-234 | upper- or lower-casing the input never changes which options match |
| FormRules.SuccessCallbacks | app/inventory/components/modals/CreateInventoryModal.tsx:134-138 | a success closes through `onCancel` first, and calls `onSuccess` iff it was given |
| FormRules.NestedMessageField | app/inventory/components/EditInventoryModal.tsx:50-54 | `data.message.message` throws iff there is no message; a string message has no such field |
| FormRules.NestedMessageOr | app/inventory/components/EditInventoryModal.tsx:50-54 | the dialog text fails iff there is no message, and a plain string message shows the fallback |
| AddMovementModal.StockLimit | app/inventory/components/AddMovementModal.tsx:220 | `item?.qty \|\| 0`: the item's stock, or 0 without an item |
| AddMovementModal.QtyRulesMeaning | app/inventory/components/AddMovementModal.tsx:199-231 | the quantity passes iff it is present, a whole number, at least 1 and, for an outbound movement, at most the stock |
| AddMovementModal.NoOutboundWithoutStock | app/inventory/components/AddMovementModal.tsx:218-227 | without an item, or with no stock, every outbound quantity is refused |
| AddMovementModal.NoteRuleMeaning | app/inventory/components/AddMovementModal.tsx:270-285 | a note passes iff it is absent or at most 50 characters once trimmed |
| AddMovementModal.NoteCount | app/inventory/components/AddMovementModal.tsx:123 | the counter never exceeds the text's length, and it is 0 iff the text is all whitespace |
| AddMovementModal.CounterText | app/inventory/components/AddMovementModal.tsx:292-294 | the counter ends in "/50" and the digits before it read back as the note's count; it shows "0/50" exactly when the note is blank |
| AddMovementModal.NoteChangeKeepsCountAndRule | app/inventory/components/AddMovementModal.tsx:43-49 | stripping leading whitespace on input changes neither the counter nor the validator's verdict |
| AddMovementModal.PostedNote | app/inventory/components/AddMovementModal.tsx:57-63 | the posted note is the trimmed note, or null when it trims to nothing; it never starts or ends with whitespace |
| AddMovementModal.RemoveCommas | app/inventory/components/AddMovementModal.tsx:240-243 | the parser side of the formatter: the result holds no "," |
| AddMovementModal.RemoveCommasAppend | app/inventory/components/AddMovementModal.tsx:240-243 | removing separators distributes over concatenation |
| AddMovementModal.InsertCommasRemoved | app/inventory/components/AddMovementModal.tsx:240-243 | removing the inserted separators gives back the suffix that was formatted |
| AddMovementModal.FormatQtyRoundTrip | app/inventory/components/AddMovementModal.tsx:240-243 | formatting a comma-free value and then removing the commas gives back the value |
| AddMovementModal.CommaPositionsOfNumeral | app/inventory/components/AddMovementModal.tsx:240-243 | on a numeral the regex puts a separator before every third digit from the right, never before the first |
| AddMovementModal.NumberKeyMeaning | app/inventory/components/AddMovementModal.tsx:244-262 | the string comparison admits exactly the single digits, plus longer keys starting with 0 to 8 |
| AddMovementModal.LettersBlocked | app/inventory/components/AddMovementModal.tsx:244-262 | letters, "-", "." and "e" are blocked unless Ctrl or Meta is held |
| AddMovementModal.BuildPayload | app/inventory/components/AddMovementModal.tsx:57-65 | the body carries the item's SKU and warehouse id (absent without an item), the activity, the quantity and the posted note |
| AddMovementModal.SubmitResult | app/inventory/components/AddMovementModal.tsx:51-109 | the form resets and the callbacks run iff the form is valid and the status is 201. Every other outcome shows an error dialog and makes no callback. An invalid form shows the generic dialog |
| AddMovementModal.RefusalShowsFixedText | app/inventory/components/AddMovementModal.tsx:68-75 | a refusal with a string message always shows "Failed to add movement", never the server's text |
| AddMovementModal.AddMovementForm.constructor | app/inventory/components/AddMovementModal.tsx:33-35 | every field is empty and nothing is being submitted |
| AddMovementModal.AddMovementForm.SetActivity | app/inventory/components/AddMovementModal.tsx:183 | choosing an activity stores it |
| AddMovementModal.AddMovementForm.SetQty | app/inventory/components/AddMovementModal.tsx:199-231 | typing a quantity stores it |
| AddMovementModal.NoteInput | app/inventory/components/AddMovementModal.tsx:291 | the note input passes on at most 100 characters, a prefix of what was typed |
| AddMovementModal.AddMovementForm.HandleNoteChange | app/inventory/components/AddMovementModal.tsx:43-49 | both the field and the counter get the (at most 100-character) text without its leading whitespace |
| AddMovementModal.AddMovementForm.HandleCancel | app/inventory/components/AddMovementModal.tsx:37-41 | every field and the counter reset, then `onCancel` |
| AddMovementModal.AddMovementForm.HandleSubmit | app/inventory/components/AddMovementModal.tsx:51-109 | it posts iff every rule passes, with the built payload. Its effects are `SubmitResult`. The form resets only on success, and `submitting` ends off |
| CreateInventoryModal.ImageUrl | app/inventory/components/modals/CreateInventoryModal.tsx:21-85 | each placeholder URL starts with the placeholder host and carries its colour as both background (after the host) and text colour (at the end) |
| CreateInventoryModal.ImageUrlInjective | app/inventory/components/modals/CreateInventoryModal.tsx:21-85 | different colours give different URLs |
| CreateInventoryModal.Images | app/inventory/components/modals/CreateInventoryModal.tsx:21-85 | 21 placeholder images, one per listed colour, in order |
| CreateInventoryModal.ImageIndex | app/inventory/components/modals/CreateInventoryModal.tsx:105-106 | `Math.floor(r * 21)` is a valid index into the images |
| CreateInventoryModal.EveryImageReachable | app/inventory/components/modals/CreateInventoryModal.tsx:105-106 | every image is picked by some draw |
| CreateInventoryModal.MessageOr | app/inventory/components/modals/CreateInventoryModal.tsx:119-139 | `data.message \|\| fallback`, where an object message shows as "[object Object]" |
| CreateInventoryModal.SubmitResult | app/inventory/components/modals/CreateInventoryModal.tsx:101-162 | an invalid form does nothing visible. The form resets and the callbacks run iff the status is 201. Every other outcome shows an error dialog |
| CreateInventoryModal.RefusalShowsServerText | app/inventory/components/modals/CreateInventoryModal.tsx:119-139 | a refusal with a non-empty string message shows the server's text |
| CreateInventoryModal.CreateInventoryForm.constructor | app/inventory/components/modals/CreateInventoryModal.tsx:93-94 | both fields are empty and nothing is being submitted |
| CreateInventoryModal.CreateInventoryForm.SetItemMaster | app/inventory/components/modals/CreateInventoryModal.tsx:197-211 | typing stores the name |
| CreateInventoryModal.CreateInventoryForm.SetWarehouse | app/inventory/components/modals/CreateInventoryModal.tsx:222 | choosing stores the warehouse |
| CreateInventoryModal.CreateInventoryForm.HandleCancel | app/inventory/components/modals/CreateInventoryModal.tsx:96-99 | the form resets, then `onCancel` |
| CreateInventoryModal.CreateInventoryForm.HandleSubmit | app/inventory/components/modals/CreateInventoryModal.tsx:101-162 | it posts iff the form validates, with the name, the drawn image and the warehouse. Its effects are `SubmitResult`, and the form resets only on success |
| CreateInventoryLegacy.DecimalBelowThousand | app/inventory/components/CreateInventoryModal.tsx:33-35 | a number below 1000 has at most three decimal digits |
| CreateInventoryLegacy.ColorCodeShape | app/inventory/components/CreateInventoryModal.tsx:33-35 | the colour is always three decimal digits and reads back as the drawn number |
| CreateInventoryLegacy.DrawnNumber | app/inventory/components/CreateInventoryModal.tsx:33 | `Math.floor(r * 1000)` lies below 1000 |
| CreateInventoryLegacy.ImageUrl | app/inventory/components/CreateInventoryModal.tsx:36 | the placeholder host, then the colour, then white text, labelled with the name's first character as the last character |
| CreateInventoryLegacy.PictureReadsBack | app/inventory/components/CreateInventoryModal.tsx:33-36 | the picture has three digits after the host that read back as the drawn number, and ends with the name's first character |
| CreateInventoryLegacy.SubmitResult | app/inventory/components/CreateInventoryModal.tsx:29-79 | the same resets and callbacks as the newer modal, but every failure dialog is titled "Error!" |
| CreateInventoryLegacy.ClientErrorTextHidden | app/inventory/components/CreateInventoryModal.tsx:66-75 | a client error always shows the fixed text, where the newer modal shows the server's message |
| CreateInventoryLegacy.AgreesWithNewerModal | app/inventory/components/CreateInventoryModal.tsx:29-79 | the two revisions agree on resets, callbacks and whether a dialog shows |
| CreateInventoryLegacy.LegacyCreateInventoryForm.constructor | app/inventory/components/CreateInventoryModal.tsx:21-22 | both fields are empty and nothing is being submitted |
| CreateInventoryLegacy.LegacyCreateInventoryForm.HandleCancel | app/inventory/components/CreateInventoryModal.tsx:24-27 | the form resets, then `onCancel` |
| CreateInventoryLegacy.LegacyCreateInventoryForm.HandleSubmit | app/inventory/components/CreateInventoryModal.tsx:29-79 | it posts iff the form validates, with the coloured, labelled placeholder. Its effects are `SubmitResult`, and the form resets only on success |
| EditInventoryModal.EditPath | app/inventory/components/EditInventoryModal.tsx:44-46 | `/items/<sku>`, or "/items/undefined" without an item |
| EditInventoryModal.RequestFor | app/inventory/components/EditInventoryModal.tsx:39-46 | a PATCH is sent iff the name is not blank, to the item's path with that name |
| EditInventoryModal.SubmitResult | app/inventory/components/EditInventoryModal.tsx:39-92 | the form resets and the callbacks run iff the status is 200. Every other outcome shows an error dialog, the generic one for a refusal without a message |
| EditInventoryModal.EditInventoryForm.constructor | app/inventory/components/EditInventoryModal.tsx:23-24 | the name is empty and nothing is being submitted |
| EditInventoryModal.EditInventoryForm.SetItemMaster | app/inventory/components/EditInventoryModal.tsx:153 | the input keeps at most the first 100 characters |
| EditInventoryModal.EditInventoryForm.OnOpenOrItemChange | app/inventory/components/EditInventoryModal.tsx:26-32 | opening on an item fills in its name; otherwise the field is left alone |
| EditInventoryModal.EditInventoryForm.HandleCancel | app/inventory/components/EditInventoryModal.tsx:34-37 | the form resets, then `onCancel` |
| EditInventoryModal.EditInventoryForm.HandleSubmit | app/inventory/components/EditInventoryModal.tsx:39-92 | the request is `RequestFor` of the current name. Its effects are `SubmitResult`, and the name resets only on success |
| EditInventoryModal.UntouchedSubmitResendsName | app/inventory/components/EditInventoryModal.tsx:26-46 | opening on an item and confirming at once sends its current name to its path, unless that name is blank |
| Middleware.Decide | middleware.ts:4-24 | API routes and files pass. Without a token every page but /login goes to /login. With a token, /login goes to /inventory. Every other request passes |
| Middleware.NoSelfRedirect | middleware.ts:14-21 | a redirect never points at the requested path |
| Middleware.TargetsAreProtectedPages | middleware.ts:9-11 | /login and /inventory are pages, not pass-through paths |
| Middleware.RedirectTargetsSettle | middleware.ts:4-24 | following a redirect with the same cookie is let through: there are no redirect loops |
| Middleware.OnlyPresenceMatters | middleware.ts:6-21 | the decision depends only on whether the token is truthy, not on its value |
| Middleware.ProtectedPagesNeedToken | middleware.ts:14-23 | a protected page is served iff the request carries a token |
| AuthUtils.IsValidToken | app/shared/utils/auth.ts:7-28 | valid iff the token has three dot-separated parts, the middle one decodes to a non-null value, and it is not expired; a valid token has exactly two dots |
| AuthUtils.ExpiryAtCurrentSecondAccepted | app/shared/utils/auth.ts:17-22 | a token whose `exp` is the current second still passes, and one second later it fails |
| AuthUtils.NoExpiryNeverExpires | app/shared/utils/auth.ts:17-22 | a token without a truthy `exp` stays valid forever |
| AuthUtils.ValidityIsMonotone | app/shared/utils/auth.ts:17-22 | a token valid now was valid at every earlier time |
| AuthUtils.ThreePartsMeansTwoDots | app/shared/utils/auth.ts:9-12 | three parts means exactly two dots, and any other number of dots is rejected |
| AuthUtils.BrowserState.constructor | app/shared/utils/auth.ts:1-5 | the browser starts with the given storage and cookies |
| AuthUtils.BrowserState.ClearAuthData | app/shared/utils/auth.ts:1-5 | both storage keys and the token cookie are removed, and nothing else changes |
| AuthUtils.BrowserState.SetItem | app/contexts/AuthContext.tsx:90-100 | `localStorage.setItem` writes one key |
| AuthUtils.BrowserState.RemoveItem | app/contexts/AuthContext.tsx:50-51 | `localStorage.removeItem` removes one key |
| AuthUtils.BrowserState.SetCookie | app/contexts/AuthContext.tsx:91 | writing the cookie sets one name |
| AuthContext.IsAuthenticatedMatchesCookieTest | app/contexts/AuthContext.tsx:126 | `!!token` is the middleware's cookie test, so an empty token counts as logged out |
| AuthContext.GuardNavigation | app/contexts/AuthContext.tsx:58-69 | nothing while loading. Once loaded, a visitor goes to /login from any other page, a signed-in user goes from /login to /inventory, and no push targets the current page |
| AuthContext.GuardAgreesWithMiddleware | app/contexts/AuthContext.tsx:58-69 | when the state token and the cookie agree, the client guard sends every page request where the middleware does |
| AuthContext.LoginLanding | app/contexts/AuthContext.tsx:58-91 | a login that stored an empty token lands on /inventory and is sent straight back to /login |
| AuthContext.RestoreFromStorage | app/contexts/AuthContext.tsx:41-55 | a session is restored iff both keys hold non-empty values. A user that fails to parse clears both keys but keeps the token in state |
| AuthContext.ParseFailureSessionLastsOneLoad | app/contexts/AuthContext.tsx:41-55 | a stored user that does not parse leaves a session that is authenticated now but gone after the next reload |
| AuthContext.RestoreIsStable | app/contexts/AuthContext.tsx:41-55 | a good session restores to the same state on every reload |
| AuthContext.RefusalMessage | app/contexts/AuthContext.tsx:81-85 | a refusal throws the server's error text, or "Login failed" when it is absent or empty |
| AuthContext.AuthProvider.constructor | app/contexts/AuthContext.tsx:34-36 | no user, no token, loading |
| AuthContext.AuthProvider.RestoreOnMount | app/contexts/AuthContext.tsx:41-55 | the state and the storage after mount are those `RestoreFromStorage` gives, and loading is off |
| AuthContext.AuthProvider.Guard | app/contexts/AuthContext.tsx:58-69 | the guard pushes what `GuardNavigation` says for the current state |
| AuthContext.AuthProvider.Login | app/contexts/AuthContext.tsx:71-109 | a failed or refused login throws and changes nothing. On 200 the token goes to state, storage and cookie; then, when it has a payload part, the decoded user goes to state and storage. A 200 with a token succeeds and pushes /inventory exactly when the payload decodes (or there is none), and only a full success pushes. A payload that does not decode throws its error after the token was stored, leaving the user unchanged. A missing token is stored as "undefined" before a TypeError |
| AuthContext.AuthProvider.Logout | app/contexts/AuthContext.tsx:111-118 | the state is cleared, storage and cookie are cleared as `clearAuthData` does, and the page goes to /login |
| AuthContext.UseAuth | app/contexts/AuthContext.tsx:137-143 | the provider's value inside a provider; outside one, the error with its fixed message |
| AuthContext.LoggedOutStorageRestoresNothing | app/contexts/AuthContext.tsx:41-118 | after a logout, a reload restores no session |
| AppLayout.FlattenAppend | app/components/AppLayout.tsx:68-72 | the flattening works item by item: each item is followed by its own children |
| AppLayout.FlattenSingle | app/components/AppLayout.tsx:68-72 | a single item flattens to itself followed by its children |
| AppLayout.AllMenuItems | app/components/AppLayout.tsx:28-72 | the flat list is Dashboard, Inventory Management, Warehouse, Inventory |
| AppLayout.FirstIndex | app/components/AppLayout.tsx:74-106 | `findIndex` gives the first position that satisfies the test, or none when no position does |
| AppLayout.CurrentItem | app/components/AppLayout.tsx:74-78 | the current entry is the first one whose path is the pathname, and Dashboard when no entry has it |
| AppLayout.CurrentItemOfPath | app/components/AppLayout.tsx:74-81 | /inventory selects Inventory, /warehouse selects Warehouse, and every other path selects Dashboard |
| AppLayout.Breadcrumb | app/components/AppLayout.tsx:83-96 | "Dashboard" alone for the dashboard; otherwise "Inventory Management" followed by the page title |
| AppLayout.BreadcrumbOfPath | app/components/AppLayout.tsx:74-96 | the breadcrumb is "Inventory Management / Inventory" on /inventory, "Inventory Management / Warehouse" on /warehouse, and "Dashboard" on any page outside the menu |
| AppLayout.MenuClickTarget | app/components/AppLayout.tsx:98-106 | a click navigates only to an existing, enabled entry's own path |
| AppLayout.OnlyInventoryNavigates | app/components/AppLayout.tsx:28-106 | with this menu, only the Inventory entry navigates, to /inventory |
| AppLayout.Email | app/components/AppLayout.tsx:63 | the user's email, or "" without a user or an email |
| AppLayout.Avatar | app/components/AppLayout.tsx:112-114 | the email's first character upper-cased, or "" for an empty email |
| AppLayout.ShellOnlyWithSession | app/components/AppLayout.tsx:65-119 | once the guard settles, the shell shows exactly when someone is signed in; the bare login page would otherwise be titled Dashboard |
| AppLayout.LayoutState.constructor | app/components/AppLayout.tsx:59 | the menu starts expanded |
| AppLayout.LayoutState.Toggle | app/components/AppLayout.tsx:151 | the collapse button flips the state |
| AppLayout.LayoutState.Expand | app/components/AppLayout.tsx:86-92 | a breadcrumb or avatar click expands the menu |

## Left out

- HTTP requests (axios and its interceptors) are not executed. Each request is an outcome parameter, and a fetch is one atomic step. Overlapping requests, their completion order and stale responses are not modelled; the code has no guard against them.
- Dialogs (`Swal.fire`) are returned values. Awaiting them, and the button colours, are not modelled.
- Rendering, JSX, icons, CSS classes, tooltips and date formatting (`date-fns`, `toLocaleString`) are left out. So is the chart's label text; a point keeps the raw timestamp.
- `Math.random()` is an input in [0, 1), and `Date.now()` is a millisecond argument.
- `atob`, `JSON.parse` and `JSON.stringify` are opaque decoder and encoder parameters. A `JSON.parse` of the stored user that yields `null` is not modelled.
- AuthUtils.IsValidToken: `exp` is an integer; a fractional or non-numeric `exp` is not modelled.
- Case mapping in the option filter and the avatar covers ASCII letters only.
- The `config.matcher` of the middleware, which decides where Next.js runs it at all, is not modelled; the function's own tests on the pathname are.
- `handleExport` only writes to the console and is left out.
- `app/inventory/components/TableItems.tsx`, the older table, is not part of this model; the table under `itemMaster/` is.
- The item-master maximum length of the create modals comes from a constants file that is not part of this model, so that limit is not modelled. The edit modal's literal 100 is modelled.
- The page-size option list of the pagination control, and the antd `Select`/`Input` internals, are not modelled.
- AddMovementModal.QtyRulesPass: the quantity is a real number; the `InputNumber` parser's handling of text other than digits and commas is not modelled.
- AddMovementModal.NoteInput: the browser's `maxLength` counts UTF-16 code units, the model counts characters (Unicode scalar values), so a note with characters outside the Basic Multilingual Plane is cut later in the model than in the browser.
- EditInventoryModal.EditInventoryForm.SetItemMaster: the 100-character cut counts characters, not UTF-16 code units, as above.
- CreateInventoryLegacy.ImageUrl: `itemMaster[0]` is a whole character in the model; in JavaScript it is the first UTF-16 code unit, half of a surrogate pair when the name starts outside the Basic Multilingual Plane.
- Lengths shown to the user (the note counter and the trimmed-length rule) count characters, where JavaScript's `length` counts UTF-16 code units.
- AuthContext.AuthProvider.RestoreOnMount requires the provider's freshly mounted state (no token, no user). The effect runs only once, on mount.
