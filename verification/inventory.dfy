/** The inventory screen: stock classification, the alert lists, quick stock updates,
    the reaction to a pushed inventory message, and the bulk-edit list
    (src/pages/admin/AdminInventory.jsx). */
module Inventory {
  import opened JsValue
  import opened Text
  import opened Lists

  /** One row of `/inventory`. */
  datatype InventoryItem = InventoryItem(
    id: int,
    productId: string,
    sku: string,
    currentStock: int,
    lowStockThreshold: int,
    reorderPoint: int,
    location: string)

  /** One entry of `/inventory/low-stock`. */
  datatype LowStockEntry = LowStockEntry(productId: string, quantity: int)

  // ---------------------------------------------------------------------------
  // Stock classification

  datatype StockStatus = OutOfStock | LowStock | InStock

  /** The status a table row shows. */
  function Status(item: InventoryItem): (s: StockStatus)
    ensures s == OutOfStock <==> item.currentStock == 0
    ensures s == LowStock <==> item.currentStock != 0 && item.currentStock <= item.lowStockThreshold
    ensures s == InStock <==> item.currentStock != 0 && item.currentStock > item.lowStockThreshold
  {
    if item.currentStock == 0 then OutOfStock
    else if item.currentStock <= item.lowStockThreshold then LowStock
    else InStock
  }

  function Label(s: StockStatus): string {
    match s
    case OutOfStock => "Out of Stock"
    case LowStock => "Low Stock"
    case InStock => "In Stock"
  }

  /** The `className` ternary on the table row. */
  function RowClass(item: InventoryItem): string {
    if item.currentStock == 0 then "table-danger"
    else if item.currentStock <= item.lowStockThreshold then "table-warning"
    else "table-default"
  }

  /** The `bg` ternary on the status badge. */
  function BadgeVariant(item: InventoryItem): string {
    if item.currentStock == 0 then "danger"
    else if item.currentStock <= item.lowStockThreshold then "warning"
    else "success"
  }

  /** The text ternary inside the status badge. */
  function BadgeLabel(item: InventoryItem): string {
    if item.currentStock == 0 then "Out of Stock"
    else if item.currentStock <= item.lowStockThreshold then "Low Stock"
    else "In Stock"
  }

  /** The three ternaries of a row agree: each shows the row's one status. */
  lemma RowAndBadgeAgree(item: InventoryItem)
    ensures BadgeLabel(item) == Label(Status(item))
    ensures RowClass(item) == "table-danger" <==> Status(item) == OutOfStock
    ensures RowClass(item) == "table-warning" <==> Status(item) == LowStock
    ensures RowClass(item) == "table-default" <==> Status(item) == InStock
    ensures BadgeVariant(item) == "danger" <==> Status(item) == OutOfStock
    ensures BadgeVariant(item) == "warning" <==> Status(item) == LowStock
    ensures BadgeVariant(item) == "success" <==> Status(item) == InStock
  {
  }

  // ---------------------------------------------------------------------------
  // Alert lists

  predicate IsLowAlert(item: InventoryItem) {
    item.currentStock > 0 && item.currentStock <= item.lowStockThreshold
  }

  predicate IsOutAlert(item: InventoryItem) {
    item.currentStock == 0
  }

  /** The "Low Stock Alert" panel. */
  function LowStockAlerts(inventory: seq<InventoryItem>): seq<InventoryItem> {
    Filter(inventory, IsLowAlert)
  }

  /** The "Out of Stock" panel. */
  function OutOfStockAlerts(inventory: seq<InventoryItem>): seq<InventoryItem> {
    Filter(inventory, IsOutAlert)
  }

  /** The two panels list disjoint items, each in inventory order. */
  lemma AlertsDisjoint(inventory: seq<InventoryItem>)
    ensures forall x :: x in LowStockAlerts(inventory) ==> x !in OutOfStockAlerts(inventory)
    ensures IsSubsequence(LowStockAlerts(inventory), inventory)
    ensures IsSubsequence(OutOfStockAlerts(inventory), inventory)
  {
    forall x | x in LowStockAlerts(inventory) ensures x !in OutOfStockAlerts(inventory) {
      FilterMember(inventory, IsLowAlert, x);
      FilterMember(inventory, IsOutAlert, x);
    }
    FilterIsSubsequence(inventory, IsLowAlert);
    FilterIsSubsequence(inventory, IsOutAlert);
  }

  /** With no negative stock, the panels list exactly the rows whose status is Low Stock
      and Out of Stock. */
  lemma AlertsMatchStatus(inventory: seq<InventoryItem>, x: InventoryItem)
    requires forall i :: 0 <= i < |inventory| ==> inventory[i].currentStock >= 0
    ensures x in LowStockAlerts(inventory) <==> x in inventory && Status(x) == LowStock
    ensures x in OutOfStockAlerts(inventory) <==> x in inventory && Status(x) == OutOfStock
  {
    FilterMember(inventory, IsLowAlert, x);
    FilterMember(inventory, IsOutAlert, x);
  }

  predicate IsLowEntry(e: LowStockEntry) {
    e.quantity > 0 && e.quantity <= 5
  }

  predicate IsOutEntry(e: LowStockEntry) {
    e.quantity == 0
  }

  /** The low-stock and out-of-stock lists built from `/inventory/low-stock` share no entry. */
  lemma EntryListsDisjoint(data: seq<LowStockEntry>, e: LowStockEntry)
    ensures !(e in Filter(data, IsLowEntry) && e in Filter(data, IsOutEntry))
  {
    FilterMember(data, IsLowEntry, e);
    FilterMember(data, IsOutEntry, e);
  }

  // ---------------------------------------------------------------------------
  // Quick updates

  datatype QuickAction = Restock | PlusOne | MinusOne

  /** The quantity a quick-update button requests. */
  function QuickQuantity(item: InventoryItem, action: QuickAction): (q: int)
    ensures action == Restock ==> q == item.reorderPoint
    ensures action == PlusOne ==> q == item.currentStock + 1
    ensures action == MinusOne ==> q >= 0 && (item.currentStock > 0 ==> q == item.currentStock - 1)
    ensures action == MinusOne && item.currentStock <= 0 ==> q == 0
  {
    match action
    case Restock => item.reorderPoint
    case PlusOne => item.currentStock + 1
    case MinusOne => if 0 > item.currentStock - 1 then 0 else item.currentStock - 1
  }

  /** The "-1" button is disabled at zero stock; the others never are. */
  predicate QuickDisabled(item: InventoryItem, action: QuickAction) {
    action == MinusOne && item.currentStock == 0
  }

  /** The "-1" button is disabled exactly when it would post the stock unchanged; "+1"
      and "Restock" are never disabled. */
  lemma MinusOneDisabledWhenNoChange(item: InventoryItem)
    ensures QuickDisabled(item, MinusOne) <==> QuickQuantity(item, MinusOne) == item.currentStock
    ensures !QuickDisabled(item, PlusOne) && !QuickDisabled(item, Restock)
  {
  }

  /** "+1" after "-1" restores a positive stock. */
  lemma MinusThenPlus(item: InventoryItem)
    requires item.currentStock > 0
    ensures QuickQuantity(item.(currentStock := QuickQuantity(item, MinusOne)), PlusOne) == item.currentStock
  {
  }

  /** `inventory.find(i => i.productId === productId)`. */
  function Find(inventory: seq<InventoryItem>, productId: string): (r: Option<InventoryItem>)
    ensures r.None? <==> forall i :: 0 <= i < |inventory| ==> inventory[i].productId != productId
    ensures r.Some? ==> exists i :: 0 <= i < |inventory| && inventory[i] == r.value
                          && inventory[i].productId == productId
                          && forall j :: 0 <= j < i ==> inventory[j].productId != productId
  {
    if inventory == [] then None
    else if inventory[0].productId == productId then Some(inventory[0])
    else
      var r := Find(inventory[1..], productId);
      if r.Some? then
        var i :| 0 <= i < |inventory[1..]| && inventory[1..][i] == r.value
                 && inventory[1..][i].productId == productId
                 && forall j :: 0 <= j < i ==> inventory[1..][j].productId != productId;
        assert inventory[i + 1] == r.value;
        r
      else r
  }

  /** The text of the low-stock toast after a quick update. */
  function LowStockWarning(item: InventoryItem, productId: string, newQuantity: int): string {
    "Low stock alert for " + (if item.sku != "" then item.sku else productId)
      + "! Current stock: " + IntToString(newQuantity)
  }

  /** What a pushed `/topic/inventory-updates` message triggers: a reload, and a
      warning for a stock update flagged as low. */
  function OnInventoryMessage(kind: string, isLowStock: Value): (r: (bool, bool))
    ensures r.0 <==> kind == "STOCK_UPDATE" || kind == "PRODUCT_ADDED"
    ensures r.1 <==> kind == "STOCK_UPDATE" && Truthy(isLowStock)
    ensures r.1 ==> r.0
  {
    if kind == "STOCK_UPDATE" || kind == "PRODUCT_ADDED" then
      (true, kind == "STOCK_UPDATE" && Truthy(isLowStock))
    else (false, false)
  }

  // ---------------------------------------------------------------------------
  // The bulk-edit list

  /** A quantity input holds the number 0 until the user types, then the typed text. */
  datatype Quantity = Count(n: int) | Typed(text: string)

  datatype BulkItem = BulkItem(productId: string, quantity: Quantity)

  datatype BulkField = ProductIdField | QuantityField

  /** `parseInt(item.quantity)`; None is NaN, which the request body carries as null. */
  function ParsedQuantity(q: Quantity): Option<int> {
    match q
    case Count(n) => Some(n)
    case Typed(t) => ParseInt(t)
  }

  /** The two parallel arrays posted to `/inventory/bulk-update`. */
  function BulkPayload(items: seq<BulkItem>): (r: (seq<string>, seq<Option<int>>))
    ensures |r.0| == |items| && |r.1| == |items|
    ensures forall i :: 0 <= i < |items| ==> r.0[i] == items[i].productId && r.1[i] == ParsedQuantity(items[i].quantity)
  {
    (seq(|items|, i requires 0 <= i < |items| => items[i].productId),
     seq(|items|, i requires 0 <= i < |items| => ParsedQuantity(items[i].quantity)))
  }

  /** A quantity typed as digits reaches the server as that number. */
  lemma TypedQuantityPosted(items: seq<BulkItem>, i: nat, n: int)
    requires i < |items| && items[i].quantity == Typed(IntToString(n))
    ensures BulkPayload(items).1[i] == Some(n)
  {
    ParseIntRoundTrip(n);
  }

  const NewBulkItem := BulkItem("", Count(0))

  /** `updated[index][field] = value`: the named field of one item takes the typed text. */
  function WithField(item: BulkItem, field: BulkField, value: string): BulkItem {
    match field
    case ProductIdField => item.(productId := value)
    case QuantityField => item.(quantity := Typed(value))
  }

  /** The bulk list with the element at `index` dropped, the others kept in order. */
  function RemovedAt(items: seq<BulkItem>, index: nat): (r: seq<BulkItem>)
    requires index < |items|
    ensures |r| == |items| - 1
    ensures forall i :: 0 <= i < index ==> r[i] == items[i]
    ensures forall i :: index <= i < |r| ==> r[i] == items[i + 1]
  {
    items[..index] + items[index + 1..]
  }

  /** Removing the item just added gives back the list it was added to. */
  lemma AddThenRemove(items: seq<BulkItem>)
    ensures RemovedAt(items + [NewBulkItem], |items|) == items
  {
  }

  /** The screen state the handlers update. */
  class InventoryScreen {
    var inventory: seq<InventoryItem>
    var lowStockItems: seq<LowStockEntry>
    var outOfStockItems: seq<LowStockEntry>
    var loading: bool
    var bulkUpdateMode: bool
    var bulkItems: seq<BulkItem>

    /** The two lists from `/inventory/low-stock` never share an entry. */
    predicate Valid()
      reads this
    {
      forall e :: e in lowStockItems ==> e !in outOfStockItems
    }

    constructor ()
      ensures Valid()
      ensures inventory == [] && lowStockItems == [] && outOfStockItems == []
      ensures loading && !bulkUpdateMode && bulkItems == []
    {
      inventory := [];
      lowStockItems := [];
      outOfStockItems := [];
      loading := true;
      bulkUpdateMode := false;
      bulkItems := [];
    }

    /** `fetchInventory`, given how the two parallel requests settle. */
    method FetchInventory(reply: Reply<(seq<InventoryItem>, seq<LowStockEntry>)>)
      requires Valid()
      modifies this
      ensures Valid()
      ensures !loading
      ensures bulkUpdateMode == old(bulkUpdateMode) && bulkItems == old(bulkItems)
      ensures reply.Ok? ==> inventory == reply.body.0
                            && lowStockItems == Filter(reply.body.1, IsLowEntry)
                            && outOfStockItems == Filter(reply.body.1, IsOutEntry)
      ensures reply.Failed? ==> inventory == old(inventory) && lowStockItems == old(lowStockItems)
                                && outOfStockItems == old(outOfStockItems)
    {
      if reply.Ok? {
        var data := reply.body.1;
        inventory := reply.body.0;
        lowStockItems := Filter(data, IsLowEntry);
        outOfStockItems := Filter(data, IsOutEntry);
        forall e | e in lowStockItems ensures e !in outOfStockItems {
          EntryListsDisjoint(data, e);
        }
      }
      loading := false;
    }

    /** `handleQuickUpdate` after the PATCH settles: whether the inventory is reloaded and
        the warning shown, if any. */
    method QuickUpdate(productId: string, newQuantity: int, patchOk: bool)
      returns (reload: bool, warning: Option<string>)
      ensures reload == patchOk
      ensures warning.Some? <==> patchOk && Find(inventory, productId).Some?
                                 && newQuantity <= Find(inventory, productId).value.lowStockThreshold
      ensures warning.Some? ==> warning.value == LowStockWarning(Find(inventory, productId).value, productId, newQuantity)
    {
      reload := patchOk;
      warning := None;
      if patchOk {
        var item := Find(inventory, productId);
        if item.Some? && newQuantity <= item.value.lowStockThreshold {
          warning := Some(LowStockWarning(item.value, productId, newQuantity));
        }
      }
    }

    /** The "Bulk Update" / "Cancel Bulk Update" button. */
    method ToggleBulkMode()
      modifies this
      ensures bulkUpdateMode == !old(bulkUpdateMode)
      ensures bulkItems == old(bulkItems) && inventory == old(inventory)
      ensures lowStockItems == old(lowStockItems) && outOfStockItems == old(outOfStockItems)
      ensures loading == old(loading)
    {
      bulkUpdateMode := !bulkUpdateMode;
    }

    /** `addBulkItem`. */
    method AddBulkItem()
      modifies this
      ensures bulkItems == old(bulkItems) + [NewBulkItem]
      ensures !UpdateAllDisabled()
      ensures bulkUpdateMode == old(bulkUpdateMode) && inventory == old(inventory)
      ensures lowStockItems == old(lowStockItems) && outOfStockItems == old(outOfStockItems)
      ensures loading == old(loading)
    {
      bulkItems := bulkItems + [NewBulkItem];
    }

    /** `updateBulkItem`: only the named field of the item at `index` changes. */
    method UpdateBulkItem(index: nat, field: BulkField, value: string)
      requires index < |bulkItems|
      modifies this
      ensures |bulkItems| == |old(bulkItems)|
      ensures bulkItems[index] == WithField(old(bulkItems)[index], field, value)
      ensures forall i :: 0 <= i < |bulkItems| && i != index ==> bulkItems[i] == old(bulkItems)[i]
      ensures bulkUpdateMode == old(bulkUpdateMode) && inventory == old(inventory)
      ensures lowStockItems == old(lowStockItems) && outOfStockItems == old(outOfStockItems)
      ensures loading == old(loading)
    {
      var updated := bulkItems;
      updated := updated[index := WithField(updated[index], field, value)];
      bulkItems := updated;
    }

    /** The "Remove" button of the item at `index`. */
    method RemoveBulkItem(index: nat)
      requires index < |bulkItems|
      modifies this
      ensures bulkItems == RemovedAt(old(bulkItems), index)
      ensures bulkUpdateMode == old(bulkUpdateMode) && inventory == old(inventory)
      ensures lowStockItems == old(lowStockItems) && outOfStockItems == old(outOfStockItems)
      ensures loading == old(loading)
    {
      bulkItems := RemovedAt(bulkItems, index);
    }

    /** `handleBulkUpdate`: posts the payload; on success leaves bulk mode with an empty
        list and asks for a reload. */
    method BulkUpdate(postOk: bool) returns (payload: (seq<string>, seq<Option<int>>), reload: bool)
      modifies this
      ensures payload == BulkPayload(old(bulkItems))
      ensures reload == postOk
      ensures postOk ==> !bulkUpdateMode && bulkItems == [] && UpdateAllDisabled()
      ensures !postOk ==> bulkUpdateMode == old(bulkUpdateMode) && bulkItems == old(bulkItems)
      ensures inventory == old(inventory) && loading == old(loading)
      ensures lowStockItems == old(lowStockItems) && outOfStockItems == old(outOfStockItems)
    {
      payload := BulkPayload(bulkItems);
      reload := postOk;
      if postOk {
        bulkUpdateMode := false;
        bulkItems := [];
      }
    }

    /** "Update All" is disabled while the bulk list is empty. */
    predicate UpdateAllDisabled()
      reads this
    {
      |bulkItems| == 0
    }
  }
}
