/** The order cart of the edit-order screen (`src/components/EditOrder.tsx`):
    the load mapping and its snapshot, the row handlers (which keep a stored
    `subtotal` per row), the totals, the calls `handleUpdateCheckout` makes,
    and the guard of `handleStatusChange`. `EditOrderScreen` holds the
    screen's state. Where the two order screens differ, lemmas at the end
    state the difference against `CreateOrder`. */
module EditOrder {
  import opened Common
  import CreateOrder

  /** `item_type` as the server sends it; `Item` is the legacy name of `Flower`. */
  datatype ServerItemType = ServerFlower | ServerBouquet | ServerService | ServerItem

  /** `item_type` of a row. */
  datatype RowType = Flower | Bouquet | Service

  /** `OrderItem` as loaded with the order. */
  datatype OrderItem = OrderItem(
    id: Option<string>,
    itemId: string,
    itemType: ServerItemType,
    itemName: string,
    quantity: int,
    unitPrice: real,
    standardUnitPrice: Option<real>,
    subtotal: Option<real>)

  /** `tempId`: the saved id, or a fresh value made up on the client. */
  datatype TempId = SavedId(id: string) | Fresh(stamp: nat)

  /** `OrderItemRow` (pictures and bouquet details are display data and left out). */
  datatype OrderItemRow = OrderItemRow(
    id: Option<string>,
    tempId: TempId,
    itemId: string,
    itemType: RowType,
    itemName: string,
    quantity: int,
    standardPrice: real,
    actualPrice: real,
    subtotal: real,
    markupPercentage: Option<real>,
    availableQty: Option<int>)

  /** A row is saved on the server when its `id` is truthy. */
  predicate HasId(row: OrderItemRow)
  {
    row.id.Some? && row.id.value != ""
  }

  /** The stored subtotal agrees with the row's quantity and price. */
  predicate Consistent(row: OrderItemRow)
  {
    row.subtotal == row.quantity as real * row.actualPrice
  }

  /** `x || y` for numbers: 0 and a missing value fall through. */
  function OrNumber(x: Option<real>, y: real): (r: real)
    ensures x.Some? && x.value != 0.0 ==> r == x.value
    ensures x.None? || x.value == 0.0 ==> r == y
  {
    if x.Some? && x.value != 0.0 then x.value else y
  }

  // ---------------------------------------------------------------------------
  // Loading
  // ---------------------------------------------------------------------------

  function ToRowType(t: ServerItemType): RowType
  {
    match t
    case ServerFlower => Flower
    case ServerItem => Flower
    case ServerBouquet => Bouquet
    case ServerService => Service
  }

  /** The row `loadOrder` makes of one server item; `stamp` is the fresh
      temp id used when the item has no id. */
  function LoadRow(item: OrderItem, stamp: nat): (r: OrderItemRow)
    ensures r.id == item.id && r.itemId == item.itemId && r.quantity == item.quantity
    ensures item.itemType == ServerItem ==> r.itemType == Flower
    ensures HasId(r) ==> r.tempId == SavedId(item.id.value)
    ensures !HasId(r) ==> r.tempId == Fresh(stamp)
    ensures item.standardUnitPrice.Some? && item.standardUnitPrice.value != 0.0 ==>
      r.standardPrice == item.standardUnitPrice.value
    ensures item.standardUnitPrice.None? || item.standardUnitPrice.value == 0.0 ==>
      r.standardPrice == item.unitPrice
    ensures r.actualPrice == item.unitPrice && r.markupPercentage.None?
    ensures item.subtotal.None? || item.subtotal.value == 0.0 ==> Consistent(r)
  {
    OrderItemRow(
      item.id,
      if item.id.Some? && item.id.value != "" then SavedId(item.id.value) else Fresh(stamp),
      item.itemId,
      ToRowType(item.itemType),
      item.itemName,
      item.quantity,
      OrNumber(item.standardUnitPrice, item.unitPrice),
      item.unitPrice,
      OrNumber(item.subtotal, item.quantity as real * item.unitPrice),
      None,
      None)
  }

  /** What `loadOrder` stores: the rows, and the snapshot taken of them. */
  datatype Loaded = Loaded(rows: seq<OrderItemRow>, snapshot: seq<OrderItemRow>)

  /** `loadOrder`'s item mapping. Rows follow the server's order; item `i`
      without an id gets the fresh temp id `firstStamp + i`. The snapshot is a
      deep copy, so it equals the rows. */
  function LoadOrder(items: seq<OrderItem>, firstStamp: nat): (r: Loaded)
    ensures |r.rows| == |items|
    ensures forall i :: 0 <= i < |items| ==> r.rows[i] == LoadRow(items[i], firstStamp + i)
    ensures r.snapshot == r.rows
  {
    var rows := seq(|items|, i requires 0 <= i < |items| => LoadRow(items[i], firstStamp + i));
    Loaded(rows, rows)
  }

  // ---------------------------------------------------------------------------
  // Adding through the quantity picker
  // ---------------------------------------------------------------------------

  /** The catalog `Item` of the screen, as far as the handlers read it. */
  datatype CatalogItem = CatalogItem(
    id: string,
    itemName: Option<string>,
    productName: Option<string>,
    color: Option<string>,
    standardPrice: Option<real>,
    availableQty: Option<int>)

  /** `BouquetInstance`: a bouquet in stock. */
  datatype BouquetInstance = BouquetInstance(
    transactionId: string,
    bouquetItemName: Option<string>,
    calculatedPrice: Option<real>)

  datatype ModalItemType = ModalFlower | ModalBouquet

  /** `s || fallback` for an optional string. */
  function StringOr(s: Option<string>, fallback: string): (r: string)
    ensures s.Some? && s.value != "" ==> r == s.value
    ensures s.None? || s.value == "" ==> r == fallback
  {
    if s.Some? && s.value != "" then s.value else fallback
  }

  /** The name of a picked flower: the base name, with " (color)" after it
      when the flower has a color. */
  function FlowerRowName(item: CatalogItem): (r: string)
    ensures var baseName := StringOr(item.itemName, StringOr(item.productName, "Unknown Flower"));
            (item.color.Some? && item.color.value != "" ==> r == baseName + " (" + item.color.value + ")")
            && (item.color.None? || item.color.value == "" ==> r == baseName)
  {
    var baseName := StringOr(item.itemName, StringOr(item.productName, "Unknown Flower"));
    if item.color.Some? && item.color.value != "" then baseName + " (" + item.color.value + ")" else baseName
  }

  datatype Outcome = Failed(error: string) | Rows(rows: seq<OrderItemRow>)

  /** `handleQuantityPickerConfirm(quantity)`: appends one new row (no
      de-duplication) with the picked item at its standard price, or sets an
      error when nothing is picked. `stamp` is the fresh temp id. */
  function QuantityPickerConfirm(rows: seq<OrderItemRow>, modalItemType: ModalItemType,
                                 selectedItem: Option<CatalogItem>, selectedBouquet: Option<BouquetInstance>,
                                 quantity: int, stamp: nat): (r: Outcome)
    ensures modalItemType == ModalFlower && selectedItem.None? ==> r == Failed("Please select a flower to add")
    ensures modalItemType == ModalBouquet && selectedBouquet.None? ==> r == Failed("Please select a bouquet to add")
    ensures r.Rows? <==> (modalItemType == ModalFlower && selectedItem.Some?)
                         || (modalItemType == ModalBouquet && selectedBouquet.Some?)
    ensures r.Rows? ==>
      |r.rows| == |rows| + 1 && r.rows[..|rows|] == rows
      && var row := r.rows[|rows|];
      && !HasId(row) && row.tempId == Fresh(stamp) && row.quantity == quantity
      && row.actualPrice == row.standardPrice && row.markupPercentage.None? && Consistent(row)
    ensures r.Rows? && modalItemType == ModalFlower ==>
      var row := r.rows[|rows|];
      row.itemType == Flower && row.itemId == selectedItem.value.id
      && row.itemName == FlowerRowName(selectedItem.value)
      && row.availableQty == selectedItem.value.availableQty
      && row.standardPrice == (if selectedItem.value.standardPrice.Some? then selectedItem.value.standardPrice.value else 0.0)
    ensures r.Rows? && modalItemType == ModalBouquet ==>
      var row := r.rows[|rows|];
      row.itemType == Bouquet && row.itemId == selectedBouquet.value.transactionId
      && row.itemName == StringOr(selectedBouquet.value.bouquetItemName, "Unknown Bouquet")
      && row.availableQty.None?
      && row.standardPrice == (if selectedBouquet.value.calculatedPrice.Some?
                               then selectedBouquet.value.calculatedPrice.value else 0.0)
  {
    match modalItemType
    case ModalFlower =>
      if selectedItem.None? then Failed("Please select a flower to add")
      else
        var item := selectedItem.value;
        var standardPrice := if item.standardPrice.Some? then item.standardPrice.value else 0.0;
        Rows(rows + [OrderItemRow(None, Fresh(stamp), item.id, Flower, FlowerRowName(item), quantity,
                                  standardPrice, standardPrice, quantity as real * standardPrice, None,
                                  item.availableQty)])
    case ModalBouquet =>
      if selectedBouquet.None? then Failed("Please select a bouquet to add")
      else
        var b := selectedBouquet.value;
        var price := if b.calculatedPrice.Some? then b.calculatedPrice.value else 0.0;
        Rows(rows + [OrderItemRow(None, Fresh(stamp), b.transactionId, Bouquet,
                                  StringOr(b.bouquetItemName, "Unknown Bouquet"), quantity,
                                  price, price, quantity as real * price, None, None)])
  }

  // ---------------------------------------------------------------------------
  // Row handlers
  // ---------------------------------------------------------------------------

  function TempIdIsNot(tempId: TempId): OrderItemRow -> bool
  {
    (x: OrderItemRow) => x.tempId != tempId
  }

  /** The local part of `handleRemoveItem(item)`: the rows with the item's
      temp id go. A saved row is removed only once the server delete
      succeeded (`deleted`); otherwise the error is shown. */
  function RemoveItem(rows: seq<OrderItemRow>, item: OrderItemRow, deleted: bool, detail: string): (r: Outcome)
    ensures HasId(item) && !deleted ==> r == Failed("Failed to remove item: " + detail)
    ensures !HasId(item) || deleted ==>
      r.Rows? && (forall x :: x in r.rows <==> x in rows && x.tempId != item.tempId) && IsSubseq(r.rows, rows)
      && (forall x :: multiset(r.rows)[x] == if x.tempId != item.tempId then multiset(rows)[x] else 0)
  {
    if HasId(item) && !deleted then Failed("Failed to remove item: " + detail)
    else
      FilterMembers(rows, TempIdIsNot(item.tempId));
      FilterIsSubseq(rows, TempIdIsNot(item.tempId));
      FilterCounts(rows, TempIdIsNot(item.tempId));
      Rows(Filter(rows, TempIdIsNot(item.tempId)))
  }

  /** `items.find(i => i.id === id)`. */
  function FindCatalogItem(catalog: seq<CatalogItem>, id: string): (r: Option<CatalogItem>)
    ensures r.Some? ==> r.value in catalog && r.value.id == id
    ensures r.None? ==> forall j :: 0 <= j < |catalog| ==> catalog[j].id != id
    decreases |catalog|
  {
    if catalog == [] then None
    else if catalog[0].id == id then Some(catalog[0])
    else FindCatalogItem(catalog[1..], id)
  }

  /** `currentItem?.availableQty ?? item.availableQty ?? 0`. */
  function AvailableQty(row: OrderItemRow, catalog: seq<CatalogItem>): int
  {
    var currentItem := FindCatalogItem(catalog, row.itemId);
    if currentItem.Some? && currentItem.value.availableQty.Some? then currentItem.value.availableQty.value
    else if row.availableQty.Some? then row.availableQty.value
    else 0
  }

  /** The quantity `handleQuantityChange` stores: at least 1; for a Flower at
      most the available stock, or 1 when none is available. */
  function GuardedQuantity(row: OrderItemRow, newQuantity: int, catalog: seq<CatalogItem>): (q: int)
    ensures q >= 1
    ensures row.itemType != Flower ==> q == Max(1, newQuantity)
    ensures row.itemType == Flower && AvailableQty(row, catalog) > 0 ==>
      q == Min(Max(1, newQuantity), AvailableQty(row, catalog))
    ensures row.itemType == Flower && AvailableQty(row, catalog) <= 0 ==> q == 1
  {
    var quantity := Max(1, newQuantity);
    if row.itemType == Flower then
      var availableQty := AvailableQty(row, catalog);
      if availableQty > 0 then Min(quantity, availableQty) else 1
    else quantity
  }

  /** `handleQuantityChange(tempId, newQuantity)`: only rows with that temp id change. */
  function QuantityChange(rows: seq<OrderItemRow>, tempId: TempId, newQuantity: int, catalog: seq<CatalogItem>): (r: seq<OrderItemRow>)
    ensures |r| == |rows|
    ensures forall j :: 0 <= j < |rows| && rows[j].tempId == tempId ==>
      var q := GuardedQuantity(rows[j], newQuantity, catalog);
      r[j] == rows[j].(quantity := q, subtotal := q as real * rows[j].actualPrice)
      && r[j].quantity >= 1 && Consistent(r[j])
    ensures forall j :: 0 <= j < |rows| && rows[j].tempId != tempId ==> r[j] == rows[j]
  {
    seq(|rows|, j requires 0 <= j < |rows| =>
      if rows[j].tempId == tempId then
        var q := GuardedQuantity(rows[j], newQuantity, catalog);
        rows[j].(quantity := q, subtotal := q as real * rows[j].actualPrice)
      else rows[j])
  }

  /** `handleActualPriceChange(tempId, newPrice)`. */
  function ActualPriceChange(rows: seq<OrderItemRow>, tempId: TempId, newPrice: real): (r: seq<OrderItemRow>)
    ensures |r| == |rows|
    ensures forall j :: 0 <= j < |rows| && rows[j].tempId == tempId ==>
      r[j].actualPrice == RMax(0.0, newPrice) && r[j].markupPercentage.None? && Consistent(r[j])
      && r[j] == rows[j].(actualPrice := r[j].actualPrice, subtotal := r[j].subtotal, markupPercentage := None)
    ensures forall j :: 0 <= j < |rows| && rows[j].tempId != tempId ==> r[j] == rows[j]
  {
    seq(|rows|, j requires 0 <= j < |rows| =>
      if rows[j].tempId == tempId then
        var actualPrice := RMax(0.0, newPrice);
        rows[j].(actualPrice := actualPrice, subtotal := rows[j].quantity as real * actualPrice, markupPercentage := None)
      else rows[j])
  }

  /** The price a markup gives in the edit flow: no floor at 0. */
  function EditMarkedUpPrice(standardPrice: real, m: real): real
  {
    standardPrice * (1.0 + m / 100.0)
  }

  /** `handleMarkupChange(tempId, markup)`. */
  function MarkupChange(rows: seq<OrderItemRow>, tempId: TempId, markup: Option<real>): (r: seq<OrderItemRow>)
    ensures |r| == |rows|
    ensures forall j :: 0 <= j < |rows| && rows[j].tempId == tempId ==>
      r[j].markupPercentage == markup && Consistent(r[j])
      && r[j] == rows[j].(actualPrice := r[j].actualPrice, subtotal := r[j].subtotal, markupPercentage := markup)
    ensures forall j :: 0 <= j < |rows| && rows[j].tempId == tempId && markup.None? ==>
      r[j].actualPrice == rows[j].standardPrice
    ensures forall j :: 0 <= j < |rows| && rows[j].tempId == tempId && markup.Some? ==>
      r[j].actualPrice == EditMarkedUpPrice(rows[j].standardPrice, markup.value)
    ensures forall j :: 0 <= j < |rows| && rows[j].tempId != tempId ==> r[j] == rows[j]
  {
    seq(|rows|, j requires 0 <= j < |rows| =>
      if rows[j].tempId != tempId then rows[j]
      else if markup.None? then
        rows[j].(markupPercentage := None, actualPrice := rows[j].standardPrice,
                 subtotal := rows[j].quantity as real * rows[j].standardPrice)
      else
        var newPrice := EditMarkedUpPrice(rows[j].standardPrice, markup.value);
        rows[j].(markupPercentage := markup, actualPrice := newPrice, subtotal := rows[j].quantity as real * newPrice))
  }

  /** The line-price field: `max(0, parseFloat(value) || 0)`. */
  function PriceInput(text: string): (r: real)
    ensures r >= 0.0
    ensures ParseFloat(text).None? ==> r == 0.0
    ensures ParseFloat(text).Some? && ParseFloat(text).value >= 0.0 ==> r == ParseFloat(text).value
  {
    var v := ParseFloat(text);
    RMax(0.0, if v.Some? then v.value else 0.0)
  }

  /** The delivery-fee field: "" and unreadable text give 0, negatives are floored at 0. */
  function DeliveryInput(text: string): (r: real)
    ensures r >= 0.0
    ensures text == "" || ParseFloat(text).None? ==> r == 0.0
    ensures text != "" && ParseFloat(text).Some? && ParseFloat(text).value >= 0.0 ==> r == ParseFloat(text).value
  {
    var value := if text == "" then Some(0.0) else ParseFloat(text);
    RMax(0.0, if value.Some? then value.value else 0.0)
  }

  // ---------------------------------------------------------------------------
  // Totals
  // ---------------------------------------------------------------------------

  datatype EditTotals = EditTotals(subtotal: real, discountAmount: real, totalPrice: real)

  function RowSubtotal(x: OrderItemRow): real { x.subtotal }

  function RowAmount(x: OrderItemRow): real { x.quantity as real * x.actualPrice }

  /** `calculateTotals`: the sum of the stored subtotals. */
  function Totals(rows: seq<OrderItemRow>, discountPercentage: real, deliveryPrice: real): (r: EditTotals)
    ensures r.subtotal == SumReal(rows, RowSubtotal)
    ensures r.discountAmount == r.subtotal * (discountPercentage / 100.0)
    ensures r.totalPrice == r.subtotal - r.discountAmount + deliveryPrice
  {
    var subtotal := SumReal(rows, RowSubtotal);
    var discountAmount := subtotal * (discountPercentage / 100.0);
    EditTotals(subtotal, discountAmount, subtotal - discountAmount + deliveryPrice)
  }

  /** When every stored subtotal is consistent, the edit subtotal is the
      sum of quantity times actual price, as in the create flow. */
  lemma ConsistentTotals(rows: seq<OrderItemRow>, d: real, delivery: real)
    requires forall j :: 0 <= j < |rows| ==> Consistent(rows[j])
    ensures Totals(rows, d, delivery).subtotal == SumReal(rows, RowAmount)
  {
    SumRealCongruent(rows, RowSubtotal, rows, RowAmount);
  }

  /** The row handlers keep every stored subtotal consistent. */
  lemma {:induction false} HandlersKeepConsistent(rows: seq<OrderItemRow>, tempId: TempId, newQuantity: int,
                                                  catalog: seq<CatalogItem>, newPrice: real, markup: Option<real>)
    requires forall j :: 0 <= j < |rows| ==> Consistent(rows[j])
    ensures forall j :: 0 <= j < |rows| ==> Consistent(QuantityChange(rows, tempId, newQuantity, catalog)[j])
    ensures forall j :: 0 <= j < |rows| ==> Consistent(ActualPriceChange(rows, tempId, newPrice)[j])
    ensures forall j :: 0 <= j < |rows| ==> Consistent(MarkupChange(rows, tempId, markup)[j])
  {
    var a := QuantityChange(rows, tempId, newQuantity, catalog);
    var b := ActualPriceChange(rows, tempId, newPrice);
    var c := MarkupChange(rows, tempId, markup);
    forall j | 0 <= j < |rows| ensures Consistent(a[j]) && Consistent(b[j]) && Consistent(c[j]) {
      if rows[j].tempId != tempId {
        assert a[j] == rows[j] && b[j] == rows[j] && c[j] == rows[j];
      }
    }
  }

  // ---------------------------------------------------------------------------
  // Saving
  // ---------------------------------------------------------------------------

  function NotSaved(x: OrderItemRow): bool { !HasId(x) }

  /** The rows to create: `orderItems.filter(item => !item.id)`. */
  function NewRows(rows: seq<OrderItemRow>): (r: seq<OrderItemRow>)
    ensures forall x :: x in r <==> x in rows && !HasId(x)
  {
    FilterMembers(rows, NotSaved);
    Filter(rows, NotSaved)
  }

  /** The rows to update: `orderItems.filter(item => item.id)`. */
  function ExistingRows(rows: seq<OrderItemRow>): (r: seq<OrderItemRow>)
    ensures forall x :: x in r <==> x in rows && HasId(x)
  {
    FilterMembers(rows, HasId);
    Filter(rows, HasId)
  }

  /** Every row is either created or updated, never both, and the two
      lists together are as long as the cart. */
  lemma SavePartition(rows: seq<OrderItemRow>)
    ensures |NewRows(rows)| + |ExistingRows(rows)| == |rows|
    ensures forall x :: x in rows ==> (x in NewRows(rows) <==> x !in ExistingRows(rows))
  {
    FilterPartition(rows, NotSaved, HasId);
  }

  datatype ItemToCreate = ItemToCreate(itemId: string, itemType: RowType, quantity: int, unitPrice: real)

  /** An entry of `previous_items`. */
  datatype PreviousItem = PreviousItem(itemId: string, itemName: string, itemType: RowType,
                                       quantity: int, unitPrice: real, subtotal: real)

  /** The body of `updateOrder`; `None` is an absent (undefined) field. */
  datatype CheckoutUpdate = CheckoutUpdate(
    clientId: Option<string>,
    deliveryType: CreateOrder.DeliveryType,
    deliveryAddress: Option<string>,
    deliveryDateTime: Option<string>,
    notes: Option<string>,
    paymentStatus: string,
    paymentMethod: Option<string>,
    discountPercentage: real,
    discountAmount: real,
    deliveryPrice: real,
    subtotal: real,
    totalPrice: real,
    previousItems: seq<PreviousItem>)

  /** A request `handleUpdateCheckout` sends, in the order it sends them. */
  datatype ApiCall =
    | AddOrderItems(items: seq<ItemToCreate>)
    | UpdateOrderItem(itemRecordId: string, quantity: int, unitPrice: real)
    | UpdateOrder(update: CheckoutUpdate)

  /** The information and checkout tabs. */
  datatype EditForm = EditForm(
    client: Option<string>,
    deliveryType: CreateOrder.DeliveryType,
    deliveryAddress: string,
    deliveryDateTime: string,
    notes: string,
    paymentStatus: string,
    paymentMethod: string,
    discountPercentage: real,
    deliveryPrice: real)

  function ItemsToCreate(newRows: seq<OrderItemRow>): (r: seq<ItemToCreate>)
    ensures |r| == |newRows|
    ensures forall j :: 0 <= j < |newRows| ==>
      r[j] == ItemToCreate(newRows[j].itemId, newRows[j].itemType, newRows[j].quantity, newRows[j].actualPrice)
  {
    seq(|newRows|, j requires 0 <= j < |newRows| =>
      ItemToCreate(newRows[j].itemId, newRows[j].itemType, newRows[j].quantity, newRows[j].actualPrice))
  }

  /** `previous_items`: the snapshot, entry by entry, priced at its actual price. */
  function PreviousItems(snapshot: seq<OrderItemRow>): (r: seq<PreviousItem>)
    ensures |r| == |snapshot|
    ensures forall j :: 0 <= j < |snapshot| ==>
      r[j].itemId == snapshot[j].itemId && r[j].itemName == snapshot[j].itemName
      && r[j].itemType == snapshot[j].itemType && r[j].quantity == snapshot[j].quantity
      && r[j].unitPrice == snapshot[j].actualPrice && r[j].subtotal == snapshot[j].subtotal
  {
    seq(|snapshot|, j requires 0 <= j < |snapshot| =>
      var x := snapshot[j];
      PreviousItem(x.itemId, x.itemName, x.itemType, x.quantity, x.actualPrice, x.subtotal))
  }

  /** The order-level update: the form, the totals of the current rows, and
      the load-time snapshot as `previous_items`. */
  function CheckoutPayload(rows: seq<OrderItemRow>, snapshot: seq<OrderItemRow>, form: EditForm): (r: CheckoutUpdate)
    ensures r.previousItems == PreviousItems(snapshot)
    ensures r.clientId == form.client && r.deliveryType == form.deliveryType
    ensures r.deliveryAddress.Some? <==> form.deliveryType == CreateOrder.Delivery
    ensures r.deliveryAddress.Some? ==> r.deliveryAddress.value == form.deliveryAddress
    ensures r.deliveryDateTime.None? <==> form.deliveryDateTime == ""
    ensures r.deliveryDateTime.Some? ==> r.deliveryDateTime.value == form.deliveryDateTime
    ensures r.notes.None? <==> form.notes == ""
    ensures r.notes.Some? ==> r.notes.value == form.notes
    ensures r.paymentStatus == form.paymentStatus
    ensures r.paymentMethod.None? <==> form.paymentMethod == ""
    ensures r.paymentMethod.Some? ==> r.paymentMethod.value == form.paymentMethod
    ensures r.discountPercentage == form.discountPercentage && r.deliveryPrice == form.deliveryPrice
    ensures r.subtotal == Totals(rows, form.discountPercentage, form.deliveryPrice).subtotal
    ensures r.discountAmount == Totals(rows, form.discountPercentage, form.deliveryPrice).discountAmount
    ensures r.totalPrice == Totals(rows, form.discountPercentage, form.deliveryPrice).totalPrice
  {
    var t := Totals(rows, form.discountPercentage, form.deliveryPrice);
    CheckoutUpdate(
      form.client,
      form.deliveryType,
      if form.deliveryType == CreateOrder.Delivery then Some(form.deliveryAddress) else None,
      NonEmpty(form.deliveryDateTime),
      NonEmpty(form.notes),
      form.paymentStatus,
      NonEmpty(form.paymentMethod),
      form.discountPercentage,
      t.discountAmount,
      form.deliveryPrice,
      t.subtotal,
      t.totalPrice,
      PreviousItems(snapshot))
  }

  function UpdateCallOf(row: OrderItemRow): ApiCall
  {
    UpdateOrderItem(if row.id.Some? then row.id.value else "", row.quantity, row.actualPrice)
  }

  /** One item update per saved row, in cart order. */
  function UpdateCalls(existing: seq<OrderItemRow>): (r: seq<ApiCall>)
    ensures |r| == |existing|
    ensures forall j :: 0 <= j < |existing| ==> r[j] == UpdateCallOf(existing[j])
  {
    seq(|existing|, j requires 0 <= j < |existing| => UpdateCallOf(existing[j]))
  }

  /** The calls `handleUpdateCheckout` makes when each one succeeds: one
      create for all new rows (none when there are none), one update per
      saved row in cart order, then the order-level update. */
  function CheckoutCalls(rows: seq<OrderItemRow>, snapshot: seq<OrderItemRow>, form: EditForm): (r: seq<ApiCall>)
    ensures var n := if |NewRows(rows)| > 0 then 1 else 0;
            |r| == n + |ExistingRows(rows)| + 1
            && (n == 1 ==> r[0] == AddOrderItems(ItemsToCreate(NewRows(rows))))
            && r[n..n + |ExistingRows(rows)|] == UpdateCalls(ExistingRows(rows))
            && r[|r| - 1] == UpdateOrder(CheckoutPayload(rows, snapshot, form))
  {
    var newRows := NewRows(rows);
    var head := if |newRows| > 0 then [AddOrderItems(ItemsToCreate(newRows))] else [];
    var updates := UpdateCalls(ExistingRows(rows));
    var last := UpdateOrder(CheckoutPayload(rows, snapshot, form));
    assert (head + updates + [last])[|head|..|head| + |updates|] == updates;
    head + updates + [last]
  }

  /** Step 2 of `handleUpdateCheckout`: one item update per saved row, in
      order (the `if (item.id)` inside the loop always holds). */
  method UpdateExisting(existingItems: seq<OrderItemRow>) returns (calls: seq<ApiCall>)
    requires forall j :: 0 <= j < |existingItems| ==> HasId(existingItems[j])
    ensures calls == UpdateCalls(existingItems)
  {
    calls := [];
    var i := 0;
    while i < |existingItems|
      invariant 0 <= i <= |existingItems|
      invariant |calls| == i
      invariant forall j :: 0 <= j < i ==> calls[j] == UpdateCallOf(existingItems[j])
    {
      var item := existingItems[i];
      if HasId(item) {
        calls := calls + [UpdateOrderItem(item.id.value, item.quantity, item.actualPrice)];
      }
      i := i + 1;
    }
  }

  /** `handleUpdateCheckout`: the create call, the updates of the saved
      rows, then the order update. */
  method UpdateCheckout(rows: seq<OrderItemRow>, snapshot: seq<OrderItemRow>, form: EditForm)
    returns (calls: seq<ApiCall>)
    ensures calls == CheckoutCalls(rows, snapshot, form)
  {
    calls := [];
    var newItems := NewRows(rows);
    if |newItems| > 0 {
      calls := [AddOrderItems(ItemsToCreate(newItems))];
    }
    var existingItems := ExistingRows(rows);
    assert forall j :: 0 <= j < |existingItems| ==> existingItems[j] in existingItems;
    var updates := UpdateExisting(existingItems);
    calls := calls + updates + [UpdateOrder(CheckoutPayload(rows, snapshot, form))];
  }

  /** A save after any edits reports the rows as loaded. */
  lemma PreviousItemsAreLoaded(items: seq<OrderItem>, firstStamp: nat, edited: seq<OrderItemRow>, form: EditForm)
    ensures var loaded := LoadOrder(items, firstStamp);
            CheckoutPayload(edited, loaded.snapshot, form).previousItems == PreviousItems(loaded.rows)
  {
  }

  // ---------------------------------------------------------------------------
  // Status change
  // ---------------------------------------------------------------------------

  datatype StatusOutcome = StatusError(error: string) | Declined | SendStatus(newStatus: string)

  /** The guard of `handleStatusChange`: no order or no status chosen, then
      the same status, each an error; Draft to Confirmed needs the user's
      confirmation (`confirmed`), and a refusal ends silently. */
  function StatusChange(orderLoaded: bool, orderStatus: string, newStatus: string, confirmed: bool): (r: StatusOutcome)
    ensures !orderLoaded || newStatus == "" ==> r == StatusError("Please select a new status")
    ensures orderLoaded && newStatus != "" && newStatus == orderStatus ==>
      r == StatusError("New status is the same as current status")
    ensures r.SendStatus? <==>
      orderLoaded && newStatus != "" && newStatus != orderStatus
      && (orderStatus == "Draft" && newStatus == "Confirmed" ==> confirmed)
    ensures r.SendStatus? ==> r.newStatus == newStatus
  {
    if !orderLoaded || newStatus == "" then StatusError("Please select a new status")
    else if newStatus == orderStatus then StatusError("New status is the same as current status")
    else if orderStatus == "Draft" && newStatus == "Confirmed" && !confirmed then Declined
    else SendStatus(newStatus)
  }

  /** `ORDER_STATUSES`. */
  const OrderStatuses: seq<string> := ["Draft", "Created", "Confirmed", "In progress", "In delivery", "Delivered", "Cancelled"]

  // ---------------------------------------------------------------------------
  // The two order screens compared
  // ---------------------------------------------------------------------------

  /** A stock-limited increase: the create flow refuses it and keeps the
      quantity; the edit flow accepts it cut down to the available stock. */
  lemma CreateRejectsEditTruncates(line: CreateOrder.CartItem, flower: CreateOrder.FlowerItem,
                                   row: OrderItemRow, item: CatalogItem, delta: int, available: int)
    requires line.itemType == CreateOrder.Flower && line.itemId == flower.flowerItemRecordId
    requires flower.currentBalance == available
    requires row.itemType == Flower && row.itemId == item.id && row.quantity == line.quantity
    requires item.availableQty == Some(available)
    requires line.quantity >= 1 && delta > 0 && 0 < available < line.quantity + delta
    ensures CreateOrder.UpdateCartQuantity([line], line.itemId, delta, [flower])[0].quantity == line.quantity
    ensures QuantityChange([row], row.tempId, row.quantity + delta, [item])[0].quantity == available
  {
    var u := CreateOrder.UpdateCartQuantity([line], line.itemId, delta, [flower]);
    assert CreateOrder.FindFlower([flower], line.itemId) == Some(flower);
    assert CreateOrder.ExceedsStock(line, delta, [flower]);
    assert u[0] == CreateOrder.UpdateLine(line, line.itemId, delta, [flower]);
    assert FindCatalogItem([item], row.itemId) == Some(item);
  }

  /** For a non-negative standard price and a markup of at least -100%,
      both screens price a markup alike; below that the edit flow goes
      negative where the create flow stops at 0. */
  lemma MarkupFlowsAgree(standardPrice: real, m: real)
    ensures standardPrice >= 0.0 && m >= -100.0 ==>
      EditMarkedUpPrice(standardPrice, m) == CreateOrder.MarkedUpPrice(standardPrice, m)
    ensures standardPrice > 0.0 && m < -100.0 ==>
      EditMarkedUpPrice(standardPrice, m) < 0.0 && CreateOrder.MarkedUpPrice(standardPrice, m) == 0.0
  {
    if standardPrice >= 0.0 && m >= -100.0 {
      CreateOrder.MarkupFloorInactive(standardPrice, m);
    }
    if standardPrice > 0.0 && m < -100.0 {
      NegProduct(standardPrice, 1.0 + m / 100.0);
    }
  }

  lemma NegProduct(a: real, b: real)
    requires a > 0.0 && b < 0.0
    ensures a * b < 0.0
  {
  }

  // ---------------------------------------------------------------------------
  // The screen
  // ---------------------------------------------------------------------------

  /** The state of the edit-order screen that the handlers change. */
  class EditOrderScreen {
    var orderItems: seq<OrderItemRow>
    var initialOrderItems: seq<OrderItemRow>
    var discountPercentage: real
    var deliveryPrice: real
    var orderStatus: string
    var error: Option<string>

    constructor ()
      ensures orderItems == [] && initialOrderItems == [] && error.None?
      ensures discountPercentage == 0.0 && deliveryPrice == 0.0 && orderStatus == "Draft"
    {
      orderItems := [];
      initialOrderItems := [];
      discountPercentage := 0.0;
      deliveryPrice := 0.0;
      orderStatus := "Draft";
      error := None;
    }

    /** `loadOrder` once the order has arrived: the rows and their snapshot,
        and the status, discount and delivery fee as stored, with the
        source's `||` defaults. */
    method HandleLoadOrder(items: seq<OrderItem>, firstStamp: nat, status: Option<string>,
                           discount: Option<real>, delivery: Option<real>)
      modifies this
      ensures orderItems == LoadOrder(items, firstStamp).rows && initialOrderItems == orderItems
      ensures orderStatus == StringOr(status, "Draft")
      ensures discountPercentage == OrNumber(discount, 0.0) && deliveryPrice == OrNumber(delivery, 0.0)
      ensures error == old(error)
    {
      var loaded := LoadOrder(items, firstStamp);
      orderItems := loaded.rows;
      initialOrderItems := loaded.snapshot;
      orderStatus := StringOr(status, "Draft");
      discountPercentage := OrNumber(discount, 0.0);
      deliveryPrice := OrNumber(delivery, 0.0);
    }

    /** `handleQuantityPickerConfirm(quantity)`. */
    method HandleQuantityPickerConfirm(modalItemType: ModalItemType, selectedItem: Option<CatalogItem>,
                                       selectedBouquet: Option<BouquetInstance>, quantity: int, stamp: nat)
      modifies this
      ensures initialOrderItems == old(initialOrderItems)
      ensures discountPercentage == old(discountPercentage) && deliveryPrice == old(deliveryPrice) && orderStatus == old(orderStatus)
      ensures var r := QuantityPickerConfirm(old(orderItems), modalItemType, selectedItem, selectedBouquet, quantity, stamp);
              (r.Failed? ==> error == Some(r.error) && orderItems == old(orderItems))
              && (r.Rows? ==> orderItems == r.rows && error == old(error))
    {
      var r := QuantityPickerConfirm(orderItems, modalItemType, selectedItem, selectedBouquet, quantity, stamp);
      match r {
        case Failed(e) => error := Some(e);
        case Rows(rows) => orderItems := rows;
      }
    }

    /** `handleRemoveItem(item)`; `deleted` is whether the server delete succeeded. */
    method HandleRemoveItem(item: OrderItemRow, deleted: bool, detail: string)
      modifies this
      ensures initialOrderItems == old(initialOrderItems)
      ensures discountPercentage == old(discountPercentage) && deliveryPrice == old(deliveryPrice) && orderStatus == old(orderStatus)
      ensures var r := RemoveItem(old(orderItems), item, deleted, detail);
              (r.Failed? ==> error == Some(r.error) && orderItems == old(orderItems))
              && (r.Rows? ==> orderItems == r.rows && error == old(error))
    {
      var r := RemoveItem(orderItems, item, deleted, detail);
      match r {
        case Failed(e) => error := Some(e);
        case Rows(rows) => orderItems := rows;
      }
    }

    /** `handleQuantityChange(tempId, newQuantity)` against the loaded catalog. */
    method HandleQuantityChange(tempId: TempId, newQuantity: int, catalog: seq<CatalogItem>)
      modifies this
      ensures initialOrderItems == old(initialOrderItems)
      ensures orderItems == QuantityChange(old(orderItems), tempId, newQuantity, catalog)
      ensures discountPercentage == old(discountPercentage) && deliveryPrice == old(deliveryPrice)
      ensures orderStatus == old(orderStatus) && error == old(error)
    {
      orderItems := QuantityChange(orderItems, tempId, newQuantity, catalog);
    }

    /** `handleActualPriceChange(tempId, newPrice)`. */
    method HandleActualPriceChange(tempId: TempId, newPrice: real)
      modifies this
      ensures initialOrderItems == old(initialOrderItems)
      ensures orderItems == ActualPriceChange(old(orderItems), tempId, newPrice)
      ensures discountPercentage == old(discountPercentage) && deliveryPrice == old(deliveryPrice)
      ensures orderStatus == old(orderStatus) && error == old(error)
    {
      orderItems := ActualPriceChange(orderItems, tempId, newPrice);
    }

    /** `handleMarkupChange(tempId, markup)`. */
    method HandleMarkupChange(tempId: TempId, markup: Option<real>)
      modifies this
      ensures initialOrderItems == old(initialOrderItems)
      ensures orderItems == MarkupChange(old(orderItems), tempId, markup)
      ensures discountPercentage == old(discountPercentage) && deliveryPrice == old(deliveryPrice)
      ensures orderStatus == old(orderStatus) && error == old(error)
    {
      orderItems := MarkupChange(orderItems, tempId, markup);
    }

    /** The delivery-fee field's change event; the discount is untouched. */
    method HandleDeliveryField(text: string)
      modifies this
      ensures deliveryPrice == DeliveryInput(text) && discountPercentage == old(discountPercentage)
      ensures initialOrderItems == old(initialOrderItems) && orderItems == old(orderItems)
      ensures orderStatus == old(orderStatus) && error == old(error)
    {
      deliveryPrice := DeliveryInput(text);
    }

    /** The discount field's change event; the delivery fee is untouched. */
    method HandleDiscountField(text: string)
      modifies this
      ensures discountPercentage == CreateOrder.DiscountInput(text) && deliveryPrice == old(deliveryPrice)
      ensures initialOrderItems == old(initialOrderItems) && orderItems == old(orderItems)
      ensures orderStatus == old(orderStatus) && error == old(error)
    {
      discountPercentage := CreateOrder.DiscountInput(text);
    }

    /** `handleUpdateCheckout`; nothing is sent without an order id (an
        empty id counts as none). The information and checkout tabs other
        than the discount and the delivery price come in `tabs`; those two
        are the screen's own, sent as they stand. */
    method HandleUpdateCheckout(orderId: Option<string>, tabs: EditForm) returns (calls: seq<ApiCall>)
      modifies this
      ensures orderItems == old(orderItems) && initialOrderItems == old(initialOrderItems)
      ensures discountPercentage == old(discountPercentage) && deliveryPrice == old(deliveryPrice)
      ensures orderStatus == old(orderStatus)
      ensures orderId.None? || orderId.value == "" ==> calls == [] && error == old(error)
      ensures orderId.Some? && orderId.value != "" ==>
        error.None?
        && calls == CheckoutCalls(orderItems, initialOrderItems,
                                  tabs.(discountPercentage := discountPercentage, deliveryPrice := deliveryPrice))
        && calls != [] && calls[|calls| - 1].UpdateOrder?
        && calls[|calls| - 1].update.discountPercentage == discountPercentage
        && calls[|calls| - 1].update.deliveryPrice == deliveryPrice
    {
      if orderId.None? || orderId.value == "" {
        return [];
      }
      error := None;
      var form := tabs.(discountPercentage := discountPercentage, deliveryPrice := deliveryPrice);
      calls := UpdateCheckout(orderItems, initialOrderItems, form);
    }

    /** `handleStatusChange`; `serverOk` is whether the status update
        succeeded, and `failure` the server's detail or the exception's
        message when it did not ("" when it has neither). */
    method HandleStatusChange(orderLoaded: bool, newStatus: string, confirmed: bool, serverOk: bool, failure: string)
      returns (sent: bool)
      modifies this
      ensures orderItems == old(orderItems) && initialOrderItems == old(initialOrderItems)
      ensures discountPercentage == old(discountPercentage) && deliveryPrice == old(deliveryPrice)
      ensures var r := StatusChange(orderLoaded, old(orderStatus), newStatus, confirmed);
              sent == r.SendStatus?
              && (r.StatusError? ==> error == Some(r.error) && orderStatus == old(orderStatus))
              && (r.Declined? ==> orderStatus == old(orderStatus) && error == old(error))
              && (r.SendStatus? && serverOk ==> orderStatus == newStatus && error.None?)
              && (r.SendStatus? && !serverOk ==>
                    orderStatus == old(orderStatus)
                    && error == Some(if failure != "" then failure else "Failed to update order status"))
    {
      var r := StatusChange(orderLoaded, orderStatus, newStatus, confirmed);
      match r {
        case StatusError(e) =>
          error := Some(e);
          sent := false;
        case Declined =>
          sent := false;
        case SendStatus(s) =>
          sent := true;
          error := None;
          if serverOk {
            orderStatus := s;
          } else {
            error := Some(if failure != "" then failure else "Failed to update order status");
          }
      }
    }
  }
}
