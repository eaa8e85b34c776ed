/** The records the inventory API exchanges with the front end
    (the files under app/inventory/types) and the three string enums the code imports
    from files outside this model, as small datatypes. Dates stay opaque strings. */
module Domain {

  /** `SearchType`: search by item-master name or by a set of warehouses. */
  datatype SearchType = ItemMaster | Warehouse

  /** `ActivityType` of a stock movement. */
  datatype ActivityType = Inbound | Outbound

  /** `StockStatus` as received: one of the three known values, or any other string. */
  datatype StockStatus = InStock | LowStock | OutOfStock | OtherStatus(raw: string)

  /** `IItemMaster`: one row of the inventory listing. */
  datatype Item = Item(
    sku: string,
    name: string,
    warehouse: string,
    qty: int,
    reserveQty: int,
    stockStatus: StockStatus,
    updatedAt: string,
    isShow: bool,
    image: string,
    warehouseId: int)

  /** `IMovement`: one stock movement of an item. */
  datatype Movement = Movement(
    id: int,
    itemMasterId: int,
    activityType: ActivityType,
    qty: int,
    currentQty: int,
    createdAt: string,
    note: string)

  /** `IWarehouse`. */
  datatype WarehouseRecord = WarehouseRecord(id: int, name: string, createdAt: string)

  /** `IDashboard`: the summary counters, replaced wholesale on every load. */
  datatype Dashboard = Dashboard(
    totalItems: int,
    totalQuantity: int,
    lowStock: int,
    outOfStock: int,
    lastUpdated: string)

  /** What a `Swal.fire` dialog shows: its kind, title and text. */
  datatype Alert = SuccessAlert(successText: string) | ErrorAlert(title: string, text: string)
}
