/** The stock classification of the inventory list. */
module InventoryList {

  import opened Wrappers
  import opened Types

  datatype StockStatus = LowStock | NormalStock | HighStock

  /** `getStockStatus`: at or below the minimum is low, otherwise at or above the
      maximum is high. */
  function GetStockStatus(item: InventoryItem): StockStatus
  {
    if item.currentStock <= item.minStock then LowStock
    else if item.currentStock >= item.maxStock then HighStock
    else NormalStock
  }

  /** The status is determined by where the stock lies between the two thresholds,
      and low wins when both thresholds hold (a minimum at or above the maximum). */
  lemma StockStatusRules(item: InventoryItem)
    ensures GetStockStatus(item) == LowStock <==> item.currentStock <= item.minStock
    ensures GetStockStatus(item) == HighStock <==> item.minStock < item.currentStock && item.currentStock >= item.maxStock
    ensures GetStockStatus(item) == NormalStock <==> item.minStock < item.currentStock < item.maxStock
    ensures item.minStock >= item.maxStock ==> GetStockStatus(item) != NormalStock
  {
  }

  /** Raising the stock never moves the status toward low. */
  lemma StockStatusMonotone(item: InventoryItem, more: real)
    requires more >= item.currentStock
    ensures var after := GetStockStatus(item.(currentStock := more));
      (GetStockStatus(item) == HighStock ==> after == HighStock)
      && (GetStockStatus(item) == NormalStock ==> after != LowStock)
  {
  }

  function StatusColor(status: StockStatus): string
  {
    match status
    case LowStock => "#dc2626"
    case HighStock => "#059669"
    case NormalStock => "#666"
  }

  datatype Icon = AlertTriangle | TrendingUp | Package

  function StatusIcon(status: StockStatus): Icon
  {
    match status
    case LowStock => AlertTriangle
    case HighStock => TrendingUp
    case NormalStock => Package
  }

  /** The low-stock banner under an item card. */
  predicate ShowsLowStockBanner(item: InventoryItem)
  {
    GetStockStatus(item) == LowStock
  }

  /** The supplier line: the supplier, or "No supplier" when it is absent or empty. */
  function SupplierLabel(item: InventoryItem): string
  {
    if Truthy(item.supplier) then item.supplier.value else "No supplier"
  }

  /** Each status has its own colour and icon; the banner shows exactly for low
      stock, and exactly when the card carries the red alert icon; the supplier line
      is never empty, and shows the supplier whenever one is given. */
  lemma PresentationRules(item: InventoryItem, a: StockStatus, b: StockStatus)
    ensures StatusColor(a) == StatusColor(b) <==> a == b
    ensures StatusIcon(a) == StatusIcon(b) <==> a == b
    ensures ShowsLowStockBanner(item) <==> item.currentStock <= item.minStock
    ensures ShowsLowStockBanner(item) <==> StatusIcon(GetStockStatus(item)) == AlertTriangle
    ensures SupplierLabel(item) != ""
    ensures Truthy(item.supplier) ==> SupplierLabel(item) == item.supplier.value
  {
  }
}
