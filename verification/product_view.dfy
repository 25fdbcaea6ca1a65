/** One product row of the admin product table: its background, the stock change sent
    by the quick stock dialog, and the quantity badges
    (src/components/admin/SingleProductView.jsx). */
module ProductView {
  import opened JsValue
  import opened Text

  /** `getBackgroundForProduct`, on the truthiness of `product.live` and `product.stock`.
      None stands for the `undefined` of the empty final branch, which no input reaches. */
  function Background(live: Value, stock: Value): (r: Option<string>)
    ensures r.Some?
    ensures Truthy(live) && Truthy(stock) ==> r.value == "table-success"
    ensures !Truthy(live) ==> r.value == "table-danger"
    ensures Truthy(live) && !Truthy(stock) ==> r.value == "table-warning"
  {
    if Truthy(live) && Truthy(stock) then Some("table-success")
    else if !Truthy(live) then Some("table-danger")
    else if !Truthy(stock) then Some("table-warning")
    else None
  }

  /** The options of the operation select. */
  datatype StockOperation = SetTo | Add | Remove

  /** The `quantity` sent by `preConfirm`, from the parsed input (None is NaN) and the
      product's current quantity. */
  function StockDelta(op: StockOperation, newQuantity: Option<int>, current: int): (delta: Option<int>)
    ensures newQuantity.None? <==> delta.None?
    ensures op == SetTo && newQuantity.Some? ==> current + delta.value == newQuantity.value
    ensures op == Add ==> delta == newQuantity
    ensures op == Remove && newQuantity.Some? ==> delta.value + newQuantity.value == 0
  {
    match newQuantity
    case None => None
    case Some(n) =>
      match op
      case SetTo => Some(n - current)
      case Add => Some(n)
      case Remove => Some(-n)
  }

  /** Typing the decimal form of `n` and choosing "Set to" moves the stock to `n`; "Add"
      and "Remove" of the same typed amount cancel out. */
  lemma TypedStockDelta(n: int, current: int)
    ensures var moved := StockDelta(SetTo, ParseInt(IntToString(n)), current);
            moved.Some? && current + moved.value == n
    ensures var add, remove := StockDelta(Add, ParseInt(IntToString(n)), current),
                               StockDelta(Remove, ParseInt(IntToString(n)), current);
            add.Some? && remove.Some? && add.value + remove.value == 0
  {
    ParseIntRoundTrip(n);
  }

  /** The colour of the quantity badge. */
  function QuantityBadge(quantity: int): (bg: string)
    ensures bg == "success" <==> quantity > 10
    ensures bg == "warning" <==> 0 < quantity <= 10
    ensures bg == "danger" <==> quantity <= 0
  {
    if quantity > 10 then "success" else if quantity > 0 then "warning" else "danger"
  }

  /** The extra "Low Stock" badge. */
  predicate ShowsLowStock(quantity: int) {
    quantity <= 5 && quantity > 0
  }

  /** The extra "Out of Stock" badge. */
  predicate ShowsOutOfStock(quantity: int) {
    quantity == 0
  }

  /** The two extra badges never appear together, and each agrees with the colour of the
      quantity badge. */
  lemma ExtraBadges(quantity: int)
    ensures !(ShowsLowStock(quantity) && ShowsOutOfStock(quantity))
    ensures ShowsLowStock(quantity) ==> QuantityBadge(quantity) == "warning"
    ensures ShowsOutOfStock(quantity) ==> QuantityBadge(quantity) == "danger"
  {
  }

  /** `product.lowStockThreshold || 10` in the dialog. */
  function ShownThreshold(threshold: Option<int>): (r: int)
    ensures r != 0
    ensures threshold.Some? && threshold.value != 0 ==> r == threshold.value
    ensures threshold.None? || threshold.value == 0 ==> r == 10
  {
    IntOr(threshold, 10)
  }

  /** `product.reorderPoint || 20` in the dialog. */
  function ShownReorderPoint(reorderPoint: Option<int>): (r: int)
    ensures r != 0
    ensures reorderPoint.Some? && reorderPoint.value != 0 ==> r == reorderPoint.value
    ensures reorderPoint.None? || reorderPoint.value == 0 ==> r == 20
  {
    IntOr(reorderPoint, 20)
  }
}
