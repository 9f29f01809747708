/** The order cart of the create-order screen (`src/components/CreateOrder.tsx`):
    the cart reducers, the markup and price handlers, the totals, the input
    clamps, the validation chain and the request built by `handleCreateOrder`.
    Each handler is a pure function of the old cart; `CreateOrderScreen` holds
    the screen's state and applies them. */
module CreateOrder {
  import opened Common

  datatype ItemType = Flower | Bouquet

  /** `FlowerComposition`: one flower of a bouquet's composition. */
  datatype FlowerComposition = FlowerComposition(itemName: string, color: string, quantity: int, itemPicture: Option<string>)

  /** `BouquetDetails`, as stored on a bouquet line. */
  datatype BouquetDetails = BouquetDetails(
    transactionId: string,
    createdDate: string,
    description: string,
    composition: seq<FlowerComposition>,
    totalFlowersUsed: int)

  /** What `getBouquetDetails` resolves to; the list and the count may be missing. */
  datatype FetchedDetails = FetchedDetails(
    transactionId: string,
    createdDate: string,
    description: string,
    composition: Option<seq<FlowerComposition>>,
    totalFlowersUsed: Option<int>)

  /** `FlowerItem` (and `BouquetItem`, which has the same shape): a catalog entry. */
  datatype FlowerItem = FlowerItem(
    recordId: string,
    itemId: string,
    itemName: string,
    color: string,
    currentBalance: int,
    flowerItemRecordId: string,
    itemPicture: Option<string>,
    standardPrice: Option<real>)

  /** `CartItem`. `markupPercentage` is `None` for null. */
  datatype CartItem = CartItem(
    itemId: string,
    itemType: ItemType,
    itemName: string,
    quantity: int,
    standardPrice: real,
    actualPrice: real,
    markupPercentage: Option<real>,
    color: string,
    picture: Option<string>,
    bouquetDetails: Option<BouquetDetails>)

  function ItemIdOf(x: CartItem): string { x.itemId }

  /** No two cart lines share an `item_id`. */
  ghost predicate UniqueIds(cart: seq<CartItem>)
  {
    KeysUnique(cart, ItemIdOf)
  }

  /** `standard_price || 0`. */
  function PriceOrZero(p: Option<real>): real
  {
    if p.Some? then p.value else 0.0
  }

  // ---------------------------------------------------------------------------
  // Lookups
  // ---------------------------------------------------------------------------

  /** `cart.findIndex(item => item.item_id === id)`: the first line with that id, or -1. */
  function FindIndex(cart: seq<CartItem>, id: string): (r: int)
    ensures -1 <= r < |cart|
    ensures r >= 0 ==> cart[r].itemId == id && forall j :: 0 <= j < r ==> cart[j].itemId != id
    ensures r == -1 ==> forall j :: 0 <= j < |cart| ==> cart[j].itemId != id
    decreases |cart|
  {
    if cart == [] then -1
    else if cart[0].itemId == id then 0
    else
      var k := FindIndex(cart[1..], id);
      if k < 0 then -1 else k + 1
  }

  /** `flowers.find(f => f.flower_item_record_id === id)`. */
  function FindFlower(flowers: seq<FlowerItem>, id: string): (r: Option<FlowerItem>)
    ensures r.Some? ==> r.value in flowers && r.value.flowerItemRecordId == id
    ensures r.None? ==> forall j :: 0 <= j < |flowers| ==> flowers[j].flowerItemRecordId != id
    decreases |flowers|
  {
    if flowers == [] then None
    else if flowers[0].flowerItemRecordId == id then Some(flowers[0])
    else FindFlower(flowers[1..], id)
  }

  /** `getFlowerCartQuantity`: the quantity of the first line with that id, or 0. */
  function FlowerCartQuantity(cart: seq<CartItem>, flowerId: string): (r: int)
    ensures FindIndex(cart, flowerId) >= 0 ==> r == cart[FindIndex(cart, flowerId)].quantity
    ensures (forall j :: 0 <= j < |cart| ==> cart[j].itemId != flowerId) ==> r == 0
  {
    var k := FindIndex(cart, flowerId);
    if k >= 0 then cart[k].quantity else 0
  }

  /** `isBouquetInCart`: some line has that id. */
  function IsBouquetInCart(cart: seq<CartItem>, bouquetId: string): (r: bool)
    ensures r <==> exists j :: 0 <= j < |cart| && cart[j].itemId == bouquetId
  {
    FindIndex(cart, bouquetId) >= 0
  }

  // ---------------------------------------------------------------------------
  // Cart reducers
  // ---------------------------------------------------------------------------

  /** The line `handleNumberPadSave` appends for a flower not yet in the cart. */
  function NewFlowerLine(flower: FlowerItem, quantity: int): (r: CartItem)
    ensures r.itemId == flower.flowerItemRecordId && r.itemType == Flower && r.quantity == quantity
    ensures r.actualPrice == r.standardPrice && r.markupPercentage.None?
    ensures flower.standardPrice.Some? ==> r.standardPrice == flower.standardPrice.value
    ensures flower.standardPrice.None? ==> r.standardPrice == 0.0
  {
    var standardPrice := PriceOrZero(flower.standardPrice);
    CartItem(flower.flowerItemRecordId, Flower, flower.itemName, quantity,
             standardPrice, standardPrice, None, flower.color, flower.itemPicture, None)
  }

  /** `handleNumberPadSave(quantity)` with `selectedFlower`: nothing without a
      selection; the first line with the flower's id gets the new quantity;
      otherwise one new line is appended. */
  function NumberPadSave(cart: seq<CartItem>, selectedFlower: Option<FlowerItem>, quantity: int): (r: seq<CartItem>)
    ensures selectedFlower.None? ==> r == cart
    ensures selectedFlower.Some? && FindIndex(cart, selectedFlower.value.flowerItemRecordId) >= 0 ==>
      var k := FindIndex(cart, selectedFlower.value.flowerItemRecordId);
      |r| == |cart| && r[k] == cart[k].(quantity := quantity)
      && forall j :: 0 <= j < |cart| && j != k ==> r[j] == cart[j]
    ensures selectedFlower.Some? && FindIndex(cart, selectedFlower.value.flowerItemRecordId) < 0 ==>
      |r| == |cart| + 1 && r[..|cart|] == cart && r[|cart|] == NewFlowerLine(selectedFlower.value, quantity)
  {
    if selectedFlower.None? then cart
    else
      var flower := selectedFlower.value;
      var existingIndex := FindIndex(cart, flower.flowerItemRecordId);
      if existingIndex >= 0 then cart[existingIndex := cart[existingIndex].(quantity := quantity)]
      else cart + [NewFlowerLine(flower, quantity)]
  }

  /** `details.composition || []`, `details.total_flowers_used || 0`. */
  function ToBouquetDetails(d: FetchedDetails): (r: BouquetDetails)
    ensures d.composition.None? ==> r.composition == []
    ensures d.composition.Some? ==> r.composition == d.composition.value
    ensures d.totalFlowersUsed.None? ==> r.totalFlowersUsed == 0
    ensures d.totalFlowersUsed.Some? ==> r.totalFlowersUsed == d.totalFlowersUsed.value
  {
    BouquetDetails(d.transactionId, d.createdDate, d.description,
                   if d.composition.Some? then d.composition.value else [],
                   if d.totalFlowersUsed.Some? then d.totalFlowersUsed.value else 0)
  }

  /** The line `handleAddBouquet` appends; `fetched` is `None` when the details request failed. */
  function NewBouquetLine(bouquet: FlowerItem, fetched: Option<FetchedDetails>): (r: CartItem)
    ensures r.itemId == bouquet.flowerItemRecordId && r.itemType == Bouquet && r.quantity == 1
    ensures r.actualPrice == r.standardPrice == PriceOrZero(bouquet.standardPrice) && r.markupPercentage.None?
    ensures r.bouquetDetails.Some? <==> fetched.Some?
  {
    var standardPrice := PriceOrZero(bouquet.standardPrice);
    CartItem(bouquet.flowerItemRecordId, Bouquet, bouquet.itemName, 1, standardPrice, standardPrice, None,
             bouquet.color, bouquet.itemPicture,
             if fetched.Some? then Some(ToBouquetDetails(fetched.value)) else None)
  }

  function IdIsNot(id: string): CartItem -> bool
  {
    (x: CartItem) => x.itemId != id
  }

  /** `removeFromCart(itemId)`: every line with that id goes, the rest keep their order. */
  function RemoveFromCart(cart: seq<CartItem>, itemId: string): (r: seq<CartItem>)
    ensures forall x :: x in r <==> x in cart && x.itemId != itemId
    ensures IsSubseq(r, cart)
    ensures forall x :: multiset(r)[x] == if x.itemId != itemId then multiset(cart)[x] else 0
  {
    FilterMembers(cart, IdIsNot(itemId));
    FilterCounts(cart, IdIsNot(itemId));
    FilterIsSubseq(cart, IdIsNot(itemId));
    Filter(cart, IdIsNot(itemId))
  }

  /** `handleAddBouquet(bouquet)`: a toggle. A bouquet already in the cart is
      removed; otherwise it is appended at quantity 1. */
  function AddBouquet(cart: seq<CartItem>, bouquet: FlowerItem, fetched: Option<FetchedDetails>): (r: seq<CartItem>)
    ensures IsBouquetInCart(cart, bouquet.flowerItemRecordId) ==>
      r == RemoveFromCart(cart, bouquet.flowerItemRecordId)
    ensures !IsBouquetInCart(cart, bouquet.flowerItemRecordId) ==>
      r == cart + [NewBouquetLine(bouquet, fetched)]
  {
    if IsBouquetInCart(cart, bouquet.flowerItemRecordId) then RemoveFromCart(cart, bouquet.flowerItemRecordId)
    else cart + [NewBouquetLine(bouquet, fetched)]
  }

  /** The quantity `updateCartQuantity` asks for. */
  function RequestedQuantity(item: CartItem, delta: int): int
  {
    Max(1, item.quantity + delta)
  }

  /** The stock guard: a Flower increase past the catalog balance (when the
      flower is in the catalog). */
  predicate ExceedsStock(item: CartItem, delta: int, flowers: seq<FlowerItem>)
  {
    var flowerData := FindFlower(flowers, item.itemId);
    item.itemType == Flower && delta > 0 && flowerData.Some?
    && RequestedQuantity(item, delta) > flowerData.value.currentBalance
  }

  /** One line under `updateCartQuantity(itemId, delta)`. */
  function UpdateLine(item: CartItem, itemId: string, delta: int, flowers: seq<FlowerItem>): (r: CartItem)
    ensures item.itemId != itemId || item.itemType == Bouquet || ExceedsStock(item, delta, flowers) ==> r == item
    ensures item.itemId == itemId && item.itemType == Flower && !ExceedsStock(item, delta, flowers) ==>
      r == item.(quantity := RequestedQuantity(item, delta)) && r.quantity >= 1
  {
    if item.itemId != itemId then item
    else if ExceedsStock(item, delta, flowers) then item
    else if item.itemType == Bouquet then item
    else item.(quantity := RequestedQuantity(item, delta))
  }

  /** `updateCartQuantity(itemId, delta)`: lines keep their positions; only
      Flower lines with that id change, to `max(1, quantity + delta)`, and not
      when that would pass the flower's balance on an increase. */
  function UpdateCartQuantity(cart: seq<CartItem>, itemId: string, delta: int, flowers: seq<FlowerItem>): (r: seq<CartItem>)
    ensures |r| == |cart|
    ensures forall j :: 0 <= j < |cart| ==> r[j] == UpdateLine(cart[j], itemId, delta, flowers)
    ensures forall j :: 0 <= j < |cart| && (cart[j].itemId != itemId || cart[j].itemType == Bouquet) ==> r[j] == cart[j]
    ensures forall j :: 0 <= j < |cart| && r[j] != cart[j] ==> r[j].quantity >= 1 && r[j] == cart[j].(quantity := r[j].quantity)
  {
    seq(|cart|, j requires 0 <= j < |cart| => UpdateLine(cart[j], itemId, delta, flowers))
  }

  /** `handleActualPriceChange(itemId, newPrice)`: the price is floored at 0 and the markup cleared. */
  function ActualPriceChange(cart: seq<CartItem>, itemId: string, newPrice: real): (r: seq<CartItem>)
    ensures |r| == |cart|
    ensures forall j :: 0 <= j < |cart| && cart[j].itemId == itemId ==>
      r[j] == cart[j].(actualPrice := RMax(0.0, newPrice), markupPercentage := None)
    ensures forall j :: 0 <= j < |cart| && cart[j].itemId != itemId ==> r[j] == cart[j]
  {
    seq(|cart|, j requires 0 <= j < |cart| =>
      if cart[j].itemId == itemId then cart[j].(actualPrice := RMax(0.0, newPrice), markupPercentage := None)
      else cart[j])
  }

  /** The price a markup of `m` percent gives in the create flow. */
  function MarkedUpPrice(standardPrice: real, m: real): (r: real)
    ensures r >= 0.0
    ensures standardPrice * (1.0 + m / 100.0) >= 0.0 ==> r == standardPrice * (1.0 + m / 100.0)
  {
    RMax(0.0, standardPrice * (1.0 + m / 100.0))
  }

  /** `handleMarkupChange(itemId, m)`: null resets the price to the standard
      price; a markup sets it from the standard price, never from the
      previous actual price. */
  function MarkupChange(cart: seq<CartItem>, itemId: string, markup: Option<real>): (r: seq<CartItem>)
    ensures |r| == |cart|
    ensures forall j :: 0 <= j < |cart| && cart[j].itemId == itemId && markup.None? ==>
      r[j] == cart[j].(markupPercentage := None, actualPrice := cart[j].standardPrice)
    ensures forall j :: 0 <= j < |cart| && cart[j].itemId == itemId && markup.Some? ==>
      r[j] == cart[j].(markupPercentage := markup, actualPrice := MarkedUpPrice(cart[j].standardPrice, markup.value))
    ensures forall j :: 0 <= j < |cart| && cart[j].itemId != itemId ==> r[j] == cart[j]
  {
    seq(|cart|, j requires 0 <= j < |cart| =>
      if cart[j].itemId != itemId then cart[j]
      else if markup.None? then cart[j].(markupPercentage := None, actualPrice := cart[j].standardPrice)
      else cart[j].(markupPercentage := markup, actualPrice := MarkedUpPrice(cart[j].standardPrice, markup.value)))
  }

  // ---------------------------------------------------------------------------
  // Input clamps
  // ---------------------------------------------------------------------------

  /** The preset markup buttons. */
  const MarkupPresets: seq<int> := [5, 10, 25, 50]

  /** The preset discount buttons. */
  const DiscountPresets: seq<int> := [5, 10, 15, 20, 25]

  /** The custom markup field: "" clears the markup, a number is truncated
      by `parseInt` and clamped to [-100, 100]. `None` is a value `parseInt`
      cannot read (NaN). */
  function CustomMarkupInput(text: string): (r: Option<Option<real>>)
    ensures text == "" <==> r == Some(None)
    ensures text != "" && ParseInt(text).None? ==> r.None?
    ensures text != "" && ParseInt(text).Some? ==>
      var v := ParseInt(text).value;
      r.Some? && r.value.Some? && -100.0 <= r.value.value <= 100.0
      && (-100 <= v <= 100 ==> r.value.value == v as real)
      && (v > 100 ==> r.value.value == 100.0)
      && (v < -100 ==> r.value.value == -100.0)
  {
    if text == "" then Some(None)
    else
      match ParseInt(text)
      case None => None
      case Some(v) => Some(Some(Max(-100, Min(100, v)) as real))
  }

  /** The discount field: "" and unreadable text give 0, a number is clamped to [0, 100]. */
  function DiscountInput(text: string): (r: real)
    ensures 0.0 <= r <= 100.0
    ensures text == "" || ParseFloat(text).None? ==> r == 0.0
    ensures text != "" && ParseFloat(text).Some? && 0.0 <= ParseFloat(text).value <= 100.0 ==>
      r == ParseFloat(text).value
    ensures text != "" && ParseFloat(text).Some? && ParseFloat(text).value > 100.0 ==> r == 100.0
    ensures text != "" && ParseFloat(text).Some? && ParseFloat(text).value < 0.0 ==> r == 0.0
  {
    var value := if text == "" then Some(0.0) else ParseFloat(text);
    var v := if value.Some? then value.value else 0.0;
    RMax(0.0, RMin(100.0, v))
  }

  // ---------------------------------------------------------------------------
  // Totals
  // ---------------------------------------------------------------------------

  datatype OrderTotals = OrderTotals(
    subtotal: real,
    discountAmount: real,
    deliveryPrice: real,
    totalPrice: real,
    approximateSubtotal: real,
    approximateTotal: real)

  function LineAmount(x: CartItem): real { x.quantity as real * x.actualPrice }

  function LineStandardAmount(x: CartItem): real { x.quantity as real * x.standardPrice }

  /** `calculateTotals`. */
  function Totals(cart: seq<CartItem>, discountPercentage: real, deliveryPrice: real): (r: OrderTotals)
    ensures r.subtotal == SumReal(cart, LineAmount)
    ensures r.approximateSubtotal == r.approximateTotal == SumReal(cart, LineStandardAmount)
    ensures r.discountAmount == r.subtotal * (discountPercentage / 100.0)
    ensures r.totalPrice == r.subtotal + deliveryPrice - r.discountAmount
    ensures r.deliveryPrice == deliveryPrice
  {
    var subtotal := SumReal(cart, LineAmount);
    var discountAmount := subtotal * (discountPercentage / 100.0);
    var approximateSubtotal := SumReal(cart, LineStandardAmount);
    OrderTotals(subtotal, discountAmount, deliveryPrice, subtotal + deliveryPrice - discountAmount,
                approximateSubtotal, approximateSubtotal)
  }

  /** Appending a line adds its amount to the subtotal. */
  lemma TotalsAppend(cart: seq<CartItem>, x: CartItem, d: real, delivery: real)
    ensures Totals(cart + [x], d, delivery).subtotal == Totals(cart, d, delivery).subtotal + x.quantity as real * x.actualPrice
  {
    SumRealAppend(cart, [x], LineAmount);
  }

  /** With non-negative lines, a discount in [0, 100] and a non-negative
      delivery price, the discount is at most the subtotal and the total is
      at least the delivery price. */
  lemma TotalsBounds(cart: seq<CartItem>, d: real, delivery: real)
    requires forall x :: x in cart ==> x.quantity >= 0 && x.actualPrice >= 0.0
    requires 0.0 <= d <= 100.0 && delivery >= 0.0
    ensures var t := Totals(cart, d, delivery);
            0.0 <= t.discountAmount <= t.subtotal && t.totalPrice >= delivery
  {
    forall x | x in cart ensures LineAmount(x) >= 0.0 {
      NonNegProduct(x.quantity as real, x.actualPrice);
    }
    SumRealNonNeg(cart, LineAmount);
    var s := SumReal(cart, LineAmount);
    var f := d / 100.0;
    assert 0.0 <= f <= 1.0;
    NonNegProduct(s, f);
    NonNegProduct(s, 1.0 - f);
  }

  lemma NonNegProduct(a: real, b: real)
    requires a >= 0.0 && b >= 0.0
    ensures a * b >= 0.0
  {
  }

  /** While no line has been repriced, the subtotal is the approximate total. */
  lemma UnpricedSubtotal(cart: seq<CartItem>, d: real, delivery: real)
    requires forall j :: 0 <= j < |cart| ==> cart[j].actualPrice == cart[j].standardPrice
    ensures Totals(cart, d, delivery).subtotal == Totals(cart, d, delivery).approximateTotal
  {
    SumRealCongruent(cart, LineAmount, cart, LineStandardAmount);
  }

  // ---------------------------------------------------------------------------
  // Validation and the create request
  // ---------------------------------------------------------------------------

  datatype DeliveryType = Pickup | Delivery
  datatype PaymentStatus = Paid | Pending
  datatype PaymentMethod = Cash | Card | BankTransfer
  datatype OrderStatus = Confirmed | Draft

  /** The information and totals tabs; `client` is the selected client's id. */
  datatype OrderForm = OrderForm(
    client: Option<string>,
    deliveryType: DeliveryType,
    deliveryAddress: string,
    deliveryDateTime: string,
    notes: string,
    paymentStatus: PaymentStatus,
    paymentMethod: PaymentMethod,
    orderStatus: OrderStatus,
    discountPercentage: real,
    deliveryPrice: real)

  datatype RequestItem = RequestItem(itemId: string, itemType: ItemType, quantity: int, unitPrice: real)

  /** The body of `POST /orders`; `None` is an absent (undefined) field. */
  datatype OrderRequest = OrderRequest(
    clientId: string,
    shopLocationId: string,
    deliveryType: DeliveryType,
    deliveryAddress: Option<string>,
    deliveryDateTime: Option<string>,
    notes: Option<string>,
    paymentStatus: PaymentStatus,
    paymentMethod: Option<PaymentMethod>,
    orderStatus: OrderStatus,
    subtotal: real,
    discountPercentage: real,
    discountAmount: real,
    deliveryPrice: real,
    items: seq<RequestItem>)

  /** The outcome of `handleCreateOrder`: an error and the tab it switches
      to (`None` keeps the tab), or the request to send. */
  datatype Submission = Blocked(error: string, tab: Option<int>) | Send(request: OrderRequest)

  /** `validateInformationTab`. An address is missing only when it is "". */
  function ValidateInformationTab(form: OrderForm): (r: Option<string>)
    ensures r.None? <==> form.client.Some? && (form.deliveryType == Delivery ==> form.deliveryAddress != "")
    ensures form.client.None? ==> r == Some("Please select a client")
    ensures form.client.Some? && form.deliveryType == Delivery && form.deliveryAddress == "" ==>
      r == Some("Please enter delivery address")
  {
    if form.client.None? then Some("Please select a client")
    else if form.deliveryType == Delivery && form.deliveryAddress == "" then Some("Please enter delivery address")
    else None
  }

  /** `validateItemsTab`. */
  function ValidateItemsTab(cart: seq<CartItem>): (r: Option<string>)
    ensures r.None? <==> |cart| > 0
    ensures |cart| == 0 ==> r == Some("Please add at least one item to the order")
  {
    if |cart| == 0 then Some("Please add at least one item to the order") else None
  }

  /** The `items` of the request: one per cart line, in order, at the actual price. */
  function RequestItems(cart: seq<CartItem>): (r: seq<RequestItem>)
    ensures |r| == |cart|
    ensures forall j :: 0 <= j < |cart| ==>
      r[j].itemId == cart[j].itemId && r[j].itemType == cart[j].itemType
      && r[j].quantity == cart[j].quantity && r[j].unitPrice == cart[j].actualPrice
  {
    seq(|cart|, j requires 0 <= j < |cart| =>
      RequestItem(cart[j].itemId, cart[j].itemType, cart[j].quantity, cart[j].actualPrice))
  }

  /** `handleCreateOrder` up to the request: the information tab, then the
      items tab, then the shop location, each stopping the submission. */
  function SubmitOrder(form: OrderForm, cart: seq<CartItem>, location: Option<string>): (r: Submission)
    ensures ValidateInformationTab(form).Some? ==> r == Blocked(ValidateInformationTab(form).value, Some(0))
    ensures ValidateInformationTab(form).None? && |cart| == 0 ==>
      r == Blocked("Please add at least one item to the order", Some(1))
    ensures ValidateInformationTab(form).None? && |cart| > 0 && (location.None? || location.value == "") ==>
      r == Blocked("No location selected. Please select a location first.", None)
    ensures r.Send? <==>
      form.client.Some? && (form.deliveryType == Delivery ==> form.deliveryAddress != "")
      && |cart| > 0 && location.Some? && location.value != ""
    ensures r.Send? ==>
      var q := r.request;
      var t := Totals(cart, form.discountPercentage, form.deliveryPrice);
      && q.clientId == form.client.value && q.shopLocationId == location.value
      && q.items == RequestItems(cart)
      && q.deliveryType == form.deliveryType && q.paymentStatus == form.paymentStatus
      && q.orderStatus == form.orderStatus && q.discountPercentage == form.discountPercentage
      && (q.deliveryDateTime.None? <==> form.deliveryDateTime == "")
      && (q.deliveryDateTime.Some? ==> q.deliveryDateTime.value == form.deliveryDateTime)
      && (q.notes.None? <==> form.notes == "")
      && (q.notes.Some? ==> q.notes.value == form.notes)
      && (q.paymentMethod.Some? <==> form.paymentStatus == Paid)
      && (q.paymentMethod.Some? ==> q.paymentMethod.value == form.paymentMethod)
      && (q.deliveryAddress.Some? <==> form.deliveryType == Delivery)
      && (q.deliveryAddress.Some? ==> q.deliveryAddress.value == form.deliveryAddress)
      && q.subtotal == t.subtotal && q.discountAmount == t.discountAmount && q.deliveryPrice == form.deliveryPrice
  {
    var infoError := ValidateInformationTab(form);
    if infoError.Some? then Blocked(infoError.value, Some(0))
    else
      var itemsError := ValidateItemsTab(cart);
      if itemsError.Some? then Blocked(itemsError.value, Some(1))
      else if location.None? || location.value == "" then
        Blocked("No location selected. Please select a location first.", None)
      else
        var t := Totals(cart, form.discountPercentage, form.deliveryPrice);
        Send(OrderRequest(
          form.client.value,
          location.value,
          form.deliveryType,
          if form.deliveryType == Delivery then Some(form.deliveryAddress) else None,
          NonEmpty(form.deliveryDateTime),
          NonEmpty(form.notes),
          form.paymentStatus,
          if form.paymentStatus == Paid then Some(form.paymentMethod) else None,
          form.orderStatus,
          t.subtotal,
          form.discountPercentage,
          t.discountAmount,
          form.deliveryPrice,
          RequestItems(cart)))
  }

  // ---------------------------------------------------------------------------
  // Properties of the reducers
  // ---------------------------------------------------------------------------

  /** `handleNumberPadSave` keeps the cart free of duplicate ids. */
  lemma NumberPadSaveKeepsUnique(cart: seq<CartItem>, selectedFlower: Option<FlowerItem>, quantity: int)
    requires UniqueIds(cart)
    ensures UniqueIds(NumberPadSave(cart, selectedFlower, quantity))
  {
    var r := NumberPadSave(cart, selectedFlower, quantity);
    if selectedFlower.Some? {
      var id := selectedFlower.value.flowerItemRecordId;
      if FindIndex(cart, id) >= 0 {
        assert forall j :: 0 <= j < |cart| ==> r[j].itemId == cart[j].itemId;
      } else {
        forall i, j | 0 <= i < j < |r| ensures ItemIdOf(r[i]) != ItemIdOf(r[j]) {
          if j < |cart| {
            assert r[i] == cart[i] && r[j] == cart[j];
          }
        }
      }
    }
  }

  /** After `handleNumberPadSave(q)` the flower's cart quantity is `q`. */
  lemma NumberPadSaveQuantity(cart: seq<CartItem>, flower: FlowerItem, quantity: int)
    ensures FlowerCartQuantity(NumberPadSave(cart, Some(flower), quantity), flower.flowerItemRecordId) == quantity
  {
    var id := flower.flowerItemRecordId;
    var r := NumberPadSave(cart, Some(flower), quantity);
    var k := FindIndex(cart, id);
    if k >= 0 {
      FindIndexAt(r, id, k);
    } else {
      FindIndexAt(r, id, |cart|);
    }
  }

  /** The first position holding an id is where `FindIndex` stops. */
  lemma FindIndexAt(cart: seq<CartItem>, id: string, k: int)
    requires 0 <= k < |cart| && cart[k].itemId == id
    requires forall j :: 0 <= j < k ==> cart[j].itemId != id
    ensures FindIndex(cart, id) == k
  {
  }

  /** Removing lines keeps the cart free of duplicate ids. */
  lemma RemoveFromCartKeepsUnique(cart: seq<CartItem>, itemId: string)
    requires UniqueIds(cart)
    ensures UniqueIds(RemoveFromCart(cart, itemId))
  {
    FilterKeysUnique(cart, IdIsNot(itemId), ItemIdOf);
  }

  /** `handleAddBouquet` keeps the cart free of duplicate ids. */
  lemma AddBouquetKeepsUnique(cart: seq<CartItem>, bouquet: FlowerItem, fetched: Option<FetchedDetails>)
    requires UniqueIds(cart)
    ensures UniqueIds(AddBouquet(cart, bouquet, fetched))
  {
    if IsBouquetInCart(cart, bouquet.flowerItemRecordId) {
      RemoveFromCartKeepsUnique(cart, bouquet.flowerItemRecordId);
    } else {
      var r := AddBouquet(cart, bouquet, fetched);
      forall i, j | 0 <= i < j < |r| ensures ItemIdOf(r[i]) != ItemIdOf(r[j]) {
        if j < |cart| {
          assert r[i] == cart[i] && r[j] == cart[j];
        } else {
          assert r[i] == cart[i];
        }
      }
    }
  }

  /** `handleAddBouquet` flips whether the bouquet is in the cart. */
  lemma AddBouquetToggles(cart: seq<CartItem>, bouquet: FlowerItem, fetched: Option<FetchedDetails>)
    ensures IsBouquetInCart(AddBouquet(cart, bouquet, fetched), bouquet.flowerItemRecordId)
            == !IsBouquetInCart(cart, bouquet.flowerItemRecordId)
  {
    var id := bouquet.flowerItemRecordId;
    var r := AddBouquet(cart, bouquet, fetched);
    if !IsBouquetInCart(cart, id) {
      assert r[|cart|].itemId == id;
    }
  }

  /** Adding an absent bouquet and toggling it again gives back the cart. */
  lemma {:induction false} AddBouquetTwice(cart: seq<CartItem>, bouquet: FlowerItem,
                                           fetched: Option<FetchedDetails>, fetched': Option<FetchedDetails>)
    requires !IsBouquetInCart(cart, bouquet.flowerItemRecordId)
    ensures AddBouquet(AddBouquet(cart, bouquet, fetched), bouquet, fetched') == cart
  {
    var id := bouquet.flowerItemRecordId;
    var line := NewBouquetLine(bouquet, fetched);
    var once := AddBouquet(cart, bouquet, fetched);
    assert once == cart + [line];
    AddBouquetToggles(cart, bouquet, fetched);
    assert AddBouquet(once, bouquet, fetched') == Filter(cart + [line], IdIsNot(id));
    FilterAppend(cart, [line], IdIsNot(id));
    assert Filter([line], IdIsNot(id)) == [];
    forall x | x in cart ensures IdIsNot(id)(x) {
      var j :| 0 <= j < |cart| && cart[j] == x;
    }
    FilterAll(cart, IdIsNot(id));
  }

  /** `updateCartQuantity` keeps the cart free of duplicate ids. */
  lemma UpdateCartQuantityKeepsUnique(cart: seq<CartItem>, itemId: string, delta: int, flowers: seq<FlowerItem>)
    requires UniqueIds(cart)
    ensures UniqueIds(UpdateCartQuantity(cart, itemId, delta, flowers))
  {
    var r := UpdateCartQuantity(cart, itemId, delta, flowers);
    assert forall j :: 0 <= j < |cart| ==> ItemIdOf(r[j]) == ItemIdOf(cart[j]);
  }

  /** The price handlers keep the cart free of duplicate ids. */
  lemma PriceChangesKeepUnique(cart: seq<CartItem>, itemId: string, newPrice: real, markup: Option<real>)
    requires UniqueIds(cart)
    ensures UniqueIds(ActualPriceChange(cart, itemId, newPrice))
    ensures UniqueIds(MarkupChange(cart, itemId, markup))
  {
    var a := ActualPriceChange(cart, itemId, newPrice);
    var b := MarkupChange(cart, itemId, markup);
    assert forall j :: 0 <= j < |cart| ==> ItemIdOf(a[j]) == ItemIdOf(cart[j]) && ItemIdOf(b[j]) == ItemIdOf(cart[j]);
  }

  /** Every Flower line found in the catalog holds at most its balance. */
  ghost predicate WithinStock(cart: seq<CartItem>, flowers: seq<FlowerItem>)
  {
    forall j :: 0 <= j < |cart| && cart[j].itemType == Flower && FindFlower(flowers, cart[j].itemId).Some? ==>
      cart[j].quantity <= FindFlower(flowers, cart[j].itemId).value.currentBalance
  }

  ghost predicate AllPositive(cart: seq<CartItem>)
  {
    forall j :: 0 <= j < |cart| ==> cart[j].quantity >= 1
  }

  /** The stock guard: from a cart whose lines are positive and within stock,
      `updateCartQuantity` with any delta stays positive and within stock. */
  lemma UpdateCartQuantityWithinStock(cart: seq<CartItem>, itemId: string, delta: int, flowers: seq<FlowerItem>)
    requires AllPositive(cart) && WithinStock(cart, flowers)
    ensures var r := UpdateCartQuantity(cart, itemId, delta, flowers);
            AllPositive(r) && WithinStock(r, flowers)
  {
  }

  /** A markup replaces whatever price the line had: manual prices and
      earlier markups make no difference. */
  lemma MarkupLastWriterWins(cart: seq<CartItem>, itemId: string, newPrice: real, m1: Option<real>, m2: Option<real>)
    ensures MarkupChange(ActualPriceChange(cart, itemId, newPrice), itemId, m2) == MarkupChange(cart, itemId, m2)
    ensures MarkupChange(MarkupChange(cart, itemId, m1), itemId, m2) == MarkupChange(cart, itemId, m2)
  {
  }

  /** A manual price replaces whatever price and markup the line had. */
  lemma PriceLastWriterWins(cart: seq<CartItem>, itemId: string, p1: real, p2: real, m: Option<real>)
    ensures ActualPriceChange(MarkupChange(cart, itemId, m), itemId, p2) == ActualPriceChange(cart, itemId, p2)
    ensures ActualPriceChange(ActualPriceChange(cart, itemId, p1), itemId, p2) == ActualPriceChange(cart, itemId, p2)
  {
  }

  /** Within the custom field's range and for a non-negative standard price
      the floor at 0 never applies. */
  lemma MarkupFloorInactive(standardPrice: real, m: real)
    requires standardPrice >= 0.0 && -100.0 <= m
    ensures MarkedUpPrice(standardPrice, m) == standardPrice * (1.0 + m / 100.0)
  {
    NonNegProduct(standardPrice, 1.0 + m / 100.0);
  }

  /** A request is only ever built for a client, an address when delivering
      and a non-empty cart. */
  lemma SubmitOrderNeedsValidation(form: OrderForm, cart: seq<CartItem>, location: Option<string>)
    requires SubmitOrder(form, cart, location).Send?
    ensures ValidateInformationTab(form).None? && ValidateItemsTab(cart).None?
  {
  }

  // ---------------------------------------------------------------------------
  // The screen
  // ---------------------------------------------------------------------------

  /** Where the numeric price pad writes. */
  datatype PriceTarget = ItemPrice(itemId: string) | DeliveryPrice

  /** The state of the create-order screen that the handlers change. */
  class CreateOrderScreen {
    var cart: seq<CartItem>
    var discountPercentage: real
    var deliveryPrice: real
    var selectedFlower: Option<FlowerItem>
    var numberPadOpen: bool
    var priceModalTarget: Option<PriceTarget>
    var error: Option<string>
    var currentTab: int

    ghost predicate Valid()
      reads this
    {
      UniqueIds(cart) && 0.0 <= discountPercentage <= 100.0
    }

    constructor ()
      ensures Valid()
      ensures cart == [] && discountPercentage == 0.0 && deliveryPrice == 0.0
      ensures selectedFlower.None? && !numberPadOpen && priceModalTarget.None? && error.None? && currentTab == 0
    {
      cart := [];
      discountPercentage := 0.0;
      deliveryPrice := 0.0;
      selectedFlower := None;
      numberPadOpen := false;
      priceModalTarget := None;
      error := None;
      currentTab := 0;
    }

    /** `handleFlowerCardClick`. */
    method FlowerCardClick(flower: FlowerItem)
      requires Valid()
      modifies this
      ensures Valid()
      ensures selectedFlower == Some(flower) && numberPadOpen
      ensures priceModalTarget == old(priceModalTarget) && error == old(error) && currentTab == old(currentTab)
      ensures cart == old(cart) && discountPercentage == old(discountPercentage) && deliveryPrice == old(deliveryPrice)
    {
      selectedFlower := Some(flower);
      numberPadOpen := true;
    }

    /** `handleNumberPadSave(quantity)`; the existing line is updated in place. */
    method HandleNumberPadSave(quantity: int)
      requires Valid()
      modifies this
      ensures Valid()
      ensures cart == NumberPadSave(old(cart), old(selectedFlower), quantity)
      ensures old(selectedFlower).Some? ==> selectedFlower.None? && !numberPadOpen
      ensures old(selectedFlower).None? ==> numberPadOpen == old(numberPadOpen)
      ensures old(selectedFlower).None? ==> selectedFlower.None?
      ensures priceModalTarget == old(priceModalTarget) && error == old(error) && currentTab == old(currentTab)
      ensures discountPercentage == old(discountPercentage) && deliveryPrice == old(deliveryPrice)
    {
      NumberPadSaveKeepsUnique(cart, selectedFlower, quantity);
      if selectedFlower.None? {
        return;
      }
      var flower := selectedFlower.value;
      var existingIndex := FindIndex(cart, flower.flowerItemRecordId);
      if existingIndex >= 0 {
        cart := cart[existingIndex := cart[existingIndex].(quantity := quantity)];
      } else {
        cart := cart + [NewFlowerLine(flower, quantity)];
      }
      numberPadOpen := false;
      selectedFlower := None;
    }

    /** `handleAddBouquet(bouquet)`; `fetched` is the details request's result. */
    method HandleAddBouquet(bouquet: FlowerItem, fetched: Option<FetchedDetails>)
      requires Valid()
      modifies this
      ensures Valid()
      ensures cart == AddBouquet(old(cart), bouquet, fetched)
      ensures discountPercentage == old(discountPercentage) && deliveryPrice == old(deliveryPrice)
      ensures selectedFlower == old(selectedFlower) && numberPadOpen == old(numberPadOpen)
      ensures priceModalTarget == old(priceModalTarget) && error == old(error) && currentTab == old(currentTab)
    {
      AddBouquetKeepsUnique(cart, bouquet, fetched);
      cart := AddBouquet(cart, bouquet, fetched);
    }

    /** `updateCartQuantity(itemId, delta)` against the loaded `flowers`. */
    method HandleUpdateCartQuantity(itemId: string, delta: int, flowers: seq<FlowerItem>)
      requires Valid()
      modifies this
      ensures Valid()
      ensures cart == UpdateCartQuantity(old(cart), itemId, delta, flowers)
      ensures discountPercentage == old(discountPercentage) && deliveryPrice == old(deliveryPrice)
      ensures selectedFlower == old(selectedFlower) && numberPadOpen == old(numberPadOpen)
      ensures priceModalTarget == old(priceModalTarget) && error == old(error) && currentTab == old(currentTab)
    {
      UpdateCartQuantityKeepsUnique(cart, itemId, delta, flowers);
      cart := UpdateCartQuantity(cart, itemId, delta, flowers);
    }

    /** `removeFromCart(itemId)`. */
    method HandleRemoveFromCart(itemId: string)
      requires Valid()
      modifies this
      ensures Valid()
      ensures cart == RemoveFromCart(old(cart), itemId)
      ensures discountPercentage == old(discountPercentage) && deliveryPrice == old(deliveryPrice)
      ensures selectedFlower == old(selectedFlower) && numberPadOpen == old(numberPadOpen)
      ensures priceModalTarget == old(priceModalTarget) && error == old(error) && currentTab == old(currentTab)
    {
      RemoveFromCartKeepsUnique(cart, itemId);
      cart := RemoveFromCart(cart, itemId);
    }

    /** `handleMarkupChange(itemId, markup)`. */
    method HandleMarkupChange(itemId: string, markup: Option<real>)
      requires Valid()
      modifies this
      ensures Valid()
      ensures cart == MarkupChange(old(cart), itemId, markup)
      ensures discountPercentage == old(discountPercentage) && deliveryPrice == old(deliveryPrice)
      ensures selectedFlower == old(selectedFlower) && numberPadOpen == old(numberPadOpen)
      ensures priceModalTarget == old(priceModalTarget) && error == old(error) && currentTab == old(currentTab)
    {
      PriceChangesKeepUnique(cart, itemId, 0.0, markup);
      cart := MarkupChange(cart, itemId, markup);
    }

    /** The custom markup field's change event; text `parseInt` cannot read is dropped. */
    method CustomMarkupChange(itemId: string, text: string)
      requires Valid()
      modifies this
      ensures Valid()
      ensures CustomMarkupInput(text).Some? ==> cart == MarkupChange(old(cart), itemId, CustomMarkupInput(text).value)
      ensures CustomMarkupInput(text).None? ==> cart == old(cart)
      ensures discountPercentage == old(discountPercentage) && deliveryPrice == old(deliveryPrice)
      ensures selectedFlower == old(selectedFlower) && numberPadOpen == old(numberPadOpen)
      ensures priceModalTarget == old(priceModalTarget) && error == old(error) && currentTab == old(currentTab)
    {
      var value := CustomMarkupInput(text);
      if value.Some? {
        HandleMarkupChange(itemId, value.value);
      }
    }

    /** `handleOpenPriceModal(itemId)`: only for an id in the cart. */
    method OpenPriceModal(itemId: string)
      requires Valid()
      modifies this
      ensures Valid()
      ensures (exists j :: 0 <= j < |old(cart)| && old(cart)[j].itemId == itemId) ==>
                priceModalTarget == Some(ItemPrice(itemId))
      ensures (forall j :: 0 <= j < |old(cart)| ==> old(cart)[j].itemId != itemId) ==>
                priceModalTarget == old(priceModalTarget)
      ensures cart == old(cart) && discountPercentage == old(discountPercentage) && deliveryPrice == old(deliveryPrice)
      ensures selectedFlower == old(selectedFlower) && numberPadOpen == old(numberPadOpen) && error == old(error) && currentTab == old(currentTab)
    {
      if FindIndex(cart, itemId) >= 0 {
        priceModalTarget := Some(ItemPrice(itemId));
      }
    }

    /** `handleOpenDeliveryPriceModal`. */
    method OpenDeliveryPriceModal()
      requires Valid()
      modifies this
      ensures Valid() && priceModalTarget == Some(DeliveryPrice)
      ensures cart == old(cart) && discountPercentage == old(discountPercentage) && deliveryPrice == old(deliveryPrice)
      ensures selectedFlower == old(selectedFlower) && numberPadOpen == old(numberPadOpen) && error == old(error) && currentTab == old(currentTab)
    {
      priceModalTarget := Some(DeliveryPrice);
    }

    /** `handleSavePriceFromModal(unitPrice)`: a line price goes through
        `handleActualPriceChange`; the delivery price is stored as entered. */
    method SavePriceFromModal(unitPrice: real)
      requires Valid()
      modifies this
      ensures Valid()
      ensures old(priceModalTarget).None? ==> cart == old(cart) && deliveryPrice == old(deliveryPrice)
      ensures old(priceModalTarget).Some? ==> priceModalTarget.None?
      ensures old(priceModalTarget) == Some(DeliveryPrice) ==> deliveryPrice == unitPrice && cart == old(cart)
      ensures old(priceModalTarget).Some? && old(priceModalTarget).value.ItemPrice? ==>
        var id := old(priceModalTarget).value.itemId;
        deliveryPrice == old(deliveryPrice)
        && cart == (if id != "" then ActualPriceChange(old(cart), id, unitPrice) else old(cart))
      ensures discountPercentage == old(discountPercentage)
      ensures old(priceModalTarget).None? ==> priceModalTarget == old(priceModalTarget)
      ensures selectedFlower == old(selectedFlower) && numberPadOpen == old(numberPadOpen) && error == old(error) && currentTab == old(currentTab)
    {
      if priceModalTarget.None? {
        return;
      }
      match priceModalTarget.value {
        case ItemPrice(id) =>
          if id != "" {
            PriceChangesKeepUnique(cart, id, unitPrice, None);
            cart := ActualPriceChange(cart, id, unitPrice);
          }
        case DeliveryPrice =>
          deliveryPrice := unitPrice;
      }
      priceModalTarget := None;
    }

    /** The discount field's change event. */
    method DiscountChange(text: string)
      requires Valid()
      modifies this
      ensures Valid() && discountPercentage == DiscountInput(text)
      ensures cart == old(cart) && deliveryPrice == old(deliveryPrice)
      ensures selectedFlower == old(selectedFlower) && numberPadOpen == old(numberPadOpen)
      ensures priceModalTarget == old(priceModalTarget) && error == old(error) && currentTab == old(currentTab)
    {
      discountPercentage := DiscountInput(text);
    }

    /** A discount preset button. */
    method DiscountPreset(k: int)
      requires Valid() && 0 <= k < |DiscountPresets|
      modifies this
      ensures Valid() && discountPercentage == DiscountPresets[k] as real
      ensures cart == old(cart) && deliveryPrice == old(deliveryPrice)
      ensures selectedFlower == old(selectedFlower) && numberPadOpen == old(numberPadOpen)
      ensures priceModalTarget == old(priceModalTarget) && error == old(error) && currentTab == old(currentTab)
    {
      discountPercentage := DiscountPresets[k] as real;
    }

    /** `handleCreateOrder` up to the request: on a validation failure the
        error is shown and nothing is sent. */
    method HandleCreateOrder(form: OrderForm, location: Option<string>) returns (request: Option<OrderRequest>)
      requires Valid()
      requires form.discountPercentage == discountPercentage && form.deliveryPrice == deliveryPrice
      modifies this
      ensures Valid()
      ensures var s := SubmitOrder(form, old(cart), location);
              (s.Send? ==> request == Some(s.request) && error.None? && currentTab == old(currentTab))
              && (s.Blocked? ==> request.None? && error == Some(s.error)
                                 && currentTab == (if s.tab.Some? then s.tab.value else old(currentTab)))
      ensures cart == old(cart) && discountPercentage == old(discountPercentage) && deliveryPrice == old(deliveryPrice)
      ensures selectedFlower == old(selectedFlower) && numberPadOpen == old(numberPadOpen) && priceModalTarget == old(priceModalTarget)
    {
      var s := SubmitOrder(form, cart, location);
      match s
      case Blocked(e, tab) =>
        error := Some(e);
        if tab.Some? {
          currentTab := tab.value;
        }
        request := None;
      case Send(q) =>
        error := None;
        request := Some(q);
    }
  }
}
