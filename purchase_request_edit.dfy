/** The purchase-request edit screen (`src/components/PurchaseRequestEdit.tsx`):
    loading a request into editable rows, the row and photo updaters, the
    add-item dialog and the update `handleSave` sends. Every handler is a
    function from the screen's state to its next state. */
module PurchaseRequestEdit {
  import opened Common
  import Api

  /** An item of a fetched purchase request (`PurchaseRequestItemDetail`). */
  datatype ItemDetail = ItemDetail(requestedItemId: string, itemId: string, itemName: string,
                                   color: string, quantity: int)

  /** `supplier_id` as the server sends it: absent, a string, or a list of
      linked record ids. */
  datatype SupplierField = NoSupplier | SupplierText(text: string) | SupplierLinks(ids: seq<string>)

  /** A stored attachment (`AirtableAttachment`, the fields used here). */
  datatype Attachment = Attachment(id: string, url: string, filename: string)

  /** A fetched purchase request (`PurchaseRequest`, the fields used here). */
  datatype PurchaseRequest = PurchaseRequest(
    purchaseOrderId: string,
    supplierId: SupplierField,
    expectedDelivery: Option<string>,
    description: Option<string>,
    prPrice: Option<real>,
    photos: Option<seq<string>>,
    attachments: Option<seq<Attachment>>,
    items: seq<ItemDetail>)

  /** `EditableItem`; `requestedItemId` is absent on rows added here. */
  datatype EditableItem = EditableItem(requestedItemId: Option<string>, itemId: string, itemName: string,
                                       color: string, quantity: int, isNew: bool)

  /** A photo of the request: a legacy inline image or a stored attachment. */
  datatype Photo = LegacyPhoto(data: string) | StoredPhoto(attachment: Attachment)

  /** The `number | ''` price state; a number may be NaN. */
  datatype PriceState = Blank | Amount(value: real) | NotANumber

  /** The screen state the handlers change. */
  datatype EditScreen = EditScreen(
    purchaseRequest: Option<PurchaseRequest>,
    items: seq<EditableItem>,
    description: string,
    prPrice: PriceState,
    photos: seq<Photo>,
    selectedNewItem: string,
    newItemQuantity: int,
    addItemDialogOpen: bool,
    error: Option<string>)

  function ItemIdOf(x: EditableItem): string { x.itemId }

  /** No two rows refer to the same inventory record. */
  ghost predicate UniqueItemIds(items: seq<EditableItem>)
  {
    KeysUnique(items, ItemIdOf)
  }

  function ToEditable(d: ItemDetail): EditableItem
  {
    EditableItem(Some(d.requestedItemId), d.itemId, d.itemName, d.color, d.quantity, false)
  }

  /** The photos of a request: legacy photos first, then attachments. */
  function AllPhotos(request: PurchaseRequest): (r: seq<Photo>)
    ensures var legacy := if request.photos.Some? then request.photos.value else [];
            var stored := if request.attachments.Some? then request.attachments.value else [];
            |r| == |legacy| + |stored|
            && (forall i :: 0 <= i < |legacy| ==> r[i] == LegacyPhoto(legacy[i]))
            && (forall i :: 0 <= i < |stored| ==> r[|legacy| + i] == StoredPhoto(stored[i]))
  {
    var legacy := if request.photos.Some? then request.photos.value else [];
    var stored := if request.attachments.Some? then request.attachments.value else [];
    seq(|legacy|, i requires 0 <= i < |legacy| => LegacyPhoto(legacy[i]))
      + seq(|stored|, i requires 0 <= i < |stored| => StoredPhoto(stored[i]))
  }

  /** `loadPurchaseRequest` once the request has arrived: the rows are the
      server items in order, none of them new; a missing or zero price shows
      as blank. */
  function Load(s: EditScreen, request: PurchaseRequest): (r: EditScreen)
    ensures r.purchaseRequest == Some(request)
    ensures |r.items| == |request.items|
    ensures forall i :: 0 <= i < |request.items| ==>
              var d := request.items[i];
              r.items[i] == EditableItem(Some(d.requestedItemId), d.itemId, d.itemName, d.color, d.quantity, false)
    ensures r.description == (if request.description.Some? then request.description.value else "")
    ensures r.prPrice == (if request.prPrice.None? || request.prPrice.value == 0.0 then Blank
                          else Amount(request.prPrice.value))
    ensures r.photos == AllPhotos(request)
    ensures r.selectedNewItem == s.selectedNewItem && r.newItemQuantity == s.newItemQuantity
    ensures r.addItemDialogOpen == s.addItemDialogOpen
    ensures r.error.None?
  {
    var price := match request.prPrice
      case None => Blank
      case Some(v) => if v == 0.0 then Blank else Amount(v);
    s.(purchaseRequest := Some(request),
       error := None,
       description := Api.OrEmpty(request.description),
       prPrice := price,
       photos := AllPhotos(request),
       items := seq(|request.items|, i requires 0 <= i < |request.items| => ToEditable(request.items[i])))
  }

  /** `loadPurchaseRequest` when the request could not be fetched: only the
      error is shown, the message of the failure or a fixed text. */
  function LoadFailed(s: EditScreen, message: Option<string>): (r: EditScreen)
    ensures r == s.(error := r.error)
    ensures message.Some? ==> r.error == message
    ensures message.None? ==> r.error == Some("Failed to load purchase request")
  {
    s.(error := Some(if message.Some? then message.value else "Failed to load purchase request"))
  }

  /** `handleQuantityChange(index, q)`: below 1 nothing changes; otherwise
      only the row at `index` (if there is one) takes quantity `q`. */
  function QuantityChange(s: EditScreen, index: int, newQuantity: int): (r: EditScreen)
    ensures newQuantity < 1 ==> r == s
    ensures newQuantity >= 1 ==>
      r == s.(items := r.items)
      && |r.items| == |s.items|
      && (forall i :: 0 <= i < |s.items| && i != index ==> r.items[i] == s.items[i])
      && (0 <= index < |s.items| ==> r.items[index] == s.items[index].(quantity := newQuantity))
  {
    if newQuantity < 1 then s
    else s.(items := seq(|s.items|, i requires 0 <= i < |s.items| =>
                       if i == index then s.items[i].(quantity := newQuantity) else s.items[i]))
  }

  /** The row's quantity field: `parseInt(text) || 1`. */
  function QuantityInput(text: string): (q: int)
    ensures ParseInt(text).None? ==> q == 1
    ensures ParseInt(text).Some? && ParseInt(text).value != 0 ==> q == ParseInt(text).value
    ensures ParseInt(text) == Some(0) ==> q == 1
  {
    match ParseInt(text)
    case None => 1
    case Some(v) => if v == 0 then 1 else v
  }

  /** Typed into a row, any text leaves a positive quantity behind: a
      negative number is ignored, and zero or unparsable text sets 1. */
  lemma {:induction false} QuantityFieldKeepsPositive(s: EditScreen, index: int, text: string)
    requires forall i :: 0 <= i < |s.items| ==> s.items[i].quantity >= 1
    ensures var r := QuantityChange(s, index, QuantityInput(text));
            forall i :: 0 <= i < |r.items| ==> r.items[i].quantity >= 1
  {
  }

  /** `handleRemoveItem(index)`: exactly the row at `index` goes. */
  function RemoveItem(s: EditScreen, index: int): (r: EditScreen)
    ensures r == s.(items := r.items)
    ensures 0 <= index < |s.items| ==>
      |r.items| == |s.items| - 1
      && (forall i :: 0 <= i < index ==> r.items[i] == s.items[i])
      && (forall i :: index <= i < |r.items| ==> r.items[i] == s.items[i + 1])
    ensures !(0 <= index < |s.items|) ==> r == s
  {
    s.(items := RemoveAt(s.items, index))
  }

  /** `inventory.find(item => item.record_id === id)`. */
  function FindInventory(inventory: seq<Api.InventoryItem>, id: string): (r: Option<Api.InventoryItem>)
    ensures r.Some? ==> r.value in inventory && r.value.recordId == id
    ensures r.None? <==> forall i :: 0 <= i < |inventory| ==> inventory[i].recordId != id
  {
    if inventory == [] then None
    else if inventory[0].recordId == id then Some(inventory[0])
    else FindInventory(inventory[1..], id)
  }

  /** `handleAddItem`: an id not in the inventory changes nothing; otherwise
      one new row with the dialog's quantity is appended, the dialog closes
      and its fields are reset. */
  function AddItem(s: EditScreen, inventory: seq<Api.InventoryItem>): (r: EditScreen)
    ensures FindInventory(inventory, s.selectedNewItem).None? ==> r == s
    ensures FindInventory(inventory, s.selectedNewItem).Some? ==>
      var inv := FindInventory(inventory, s.selectedNewItem).value;
      r == s.(items := s.items + [EditableItem(None, inv.recordId, inv.itemName, inv.color, s.newItemQuantity, true)],
               addItemDialogOpen := false, selectedNewItem := "", newItemQuantity := 1)
      && |r.items| == |s.items| + 1 && r.items[|s.items|].isNew && r.items[|s.items|].itemId == s.selectedNewItem
  {
    match FindInventory(inventory, s.selectedNewItem)
    case None => s
    case Some(inv) =>
      s.(items := s.items + [EditableItem(None, inv.recordId, inv.itemName, inv.color, s.newItemQuantity, true)],
         addItemDialogOpen := false, selectedNewItem := "", newItemQuantity := 1)
  }

  function NotListed(items: seq<EditableItem>): Api.InventoryItem -> bool
  {
    (inv: Api.InventoryItem) => forall i :: 0 <= i < |items| ==> items[i].itemId != inv.recordId
  }

  /** The add dialog's choices: inventory items no row refers to yet. */
  function AddDialogOptions(inventory: seq<Api.InventoryItem>, items: seq<EditableItem>): (r: seq<Api.InventoryItem>)
    ensures IsSubseq(r, inventory)
    ensures forall inv :: inv in r <==> inv in inventory && forall i :: 0 <= i < |items| ==> items[i].itemId != inv.recordId
  {
    FilterMembers(inventory, NotListed(items));
    FilterIsSubseq(inventory, NotListed(items));
    Filter(inventory, NotListed(items))
  }

  /** Adding an item picked from the dialog's choices keeps the rows' item
      ids unique. */
  lemma AddFromDialogKeepsUnique(s: EditScreen, inventory: seq<Api.InventoryItem>)
    requires UniqueItemIds(s.items)
    requires exists inv :: inv in AddDialogOptions(inventory, s.items) && inv.recordId == s.selectedNewItem
    ensures UniqueItemIds(AddItem(s, inventory).items)
  {
    var inv :| inv in AddDialogOptions(inventory, s.items) && inv.recordId == s.selectedNewItem;
    assert inv in inventory;
    var k :| 0 <= k < |inventory| && inventory[k] == inv;
    assert FindInventory(inventory, s.selectedNewItem).Some?;
    var r := AddItem(s, inventory).items;
    forall i, j | 0 <= i < j < |r| ensures ItemIdOf(r[i]) != ItemIdOf(r[j]) {
      assert r[i] == s.items[i];
      if j < |s.items| {
        assert r[j] == s.items[j];
      }
    }
  }

  /** `handleRemovePhoto(index)` on the screen state: exactly that photo goes. */
  function RemovePhoto(s: EditScreen, index: int): (r: EditScreen)
    ensures r == s.(photos := r.photos)
    ensures 0 <= index < |s.photos| ==>
      |r.photos| == |s.photos| - 1
      && (forall i :: 0 <= i < index ==> r.photos[i] == s.photos[i])
      && (forall i :: index <= i < |r.photos| ==> r.photos[i] == s.photos[i + 1])
    ensures !(0 <= index < |s.photos|) ==> r == s
  {
    s.(photos := RemoveAt(s.photos, index))
  }

  /** The price field: `value ? parseFloat(value) : ''`. */
  function PriceInput(text: string): (r: PriceState)
    ensures text == "" <==> r.Blank?
    ensures r.Amount? ==> ParseFloat(text) == Some(r.value)
    ensures r.NotANumber? <==> text != "" && ParseFloat(text).None?
  {
    if text == "" then Blank
    else match ParseFloat(text)
      case None => NotANumber
      case Some(v) => Amount(v)
  }

  /** A JavaScript number sent in the update. */
  datatype JsNumber = Number(value: real) | NaN

  datatype UpdateItem = UpdateItem(itemId: string, quantity: int)

  /** The update body; `None` is an absent field. */
  datatype PurchaseRequestUpdate = PurchaseRequestUpdate(
    supplierId: Option<string>,
    expectedDelivery: Option<string>,
    description: Option<string>,
    prPrice: Option<JsNumber>,
    items: seq<UpdateItem>)

  datatype SaveOutcome = NoAction | SaveError(error: string) | SaveRequest(id: string, update: PurchaseRequestUpdate)

  /** `!purchaseRequest.supplier_id`: absent or the empty string. */
  predicate SupplierMissing(f: SupplierField)
  {
    f.NoSupplier? || f == SupplierText("")
  }

  /** The supplier sent: a list's first element, or the string itself. */
  function SupplierSent(f: SupplierField): (r: Option<string>)
    ensures f.SupplierLinks? && |f.ids| > 0 ==> r == Some(f.ids[0])
    ensures f.SupplierLinks? && |f.ids| == 0 ==> r.None?
    ensures f.SupplierText? ==> r == Some(f.text)
    ensures f.NoSupplier? ==> r.None?
  {
    match f
    case NoSupplier => None
    case SupplierText(t) => Some(t)
    case SupplierLinks(ids) => if |ids| > 0 then Some(ids[0]) else None
  }

  /** `handleSave` for the request with route id `id`: nothing without a
      loaded request and an id, then an error for a missing supplier or no
      rows, otherwise the update. */
  function Save(s: EditScreen, id: string): (r: SaveOutcome)
    ensures s.purchaseRequest.None? || id == "" ==> r == NoAction
    ensures s.purchaseRequest.Some? && id != "" && SupplierMissing(s.purchaseRequest.value.supplierId) ==>
              r == SaveError("Supplier ID is required")
    ensures s.purchaseRequest.Some? && id != "" && !SupplierMissing(s.purchaseRequest.value.supplierId) && s.items == [] ==>
              r == SaveError("At least one item is required")
    ensures r.SaveRequest? <==>
              s.purchaseRequest.Some? && id != "" && !SupplierMissing(s.purchaseRequest.value.supplierId) && s.items != []
    ensures r.SaveRequest? ==>
      var u := r.update;
      r.id == id
      && u.supplierId == SupplierSent(s.purchaseRequest.value.supplierId)
      && u.expectedDelivery == s.purchaseRequest.value.expectedDelivery
      && (u.description.None? <==> Trim(s.description) == "")
      && (u.description.Some? ==> u.description.value == Trim(s.description))
      && (u.prPrice.Some? <==> !s.prPrice.Blank?)
      && (s.prPrice.Amount? ==> u.prPrice == Some(Number(s.prPrice.value)))
      && (s.prPrice.NotANumber? ==> u.prPrice == Some(NaN))
      && |u.items| == |s.items|
      && forall i :: 0 <= i < |s.items| ==> u.items[i] == UpdateItem(s.items[i].itemId, s.items[i].quantity)
  {
    if s.purchaseRequest.None? || id == "" then NoAction
    else
      var pr := s.purchaseRequest.value;
      if SupplierMissing(pr.supplierId) then SaveError("Supplier ID is required")
      else if s.items == [] then SaveError("At least one item is required")
      else
        var trimmed := Trim(s.description);
        var price := match s.prPrice
          case Blank => None
          case Amount(v) => Some(Number(v))
          case NotANumber => Some(NaN);
        SaveRequest(id, PurchaseRequestUpdate(
          SupplierSent(pr.supplierId),
          pr.expectedDelivery,
          if trimmed == "" then None else Some(trimmed),
          price,
          seq(|s.items|, i requires 0 <= i < |s.items| => UpdateItem(s.items[i].itemId, s.items[i].quantity))))
  }

  /** A supplier given as an empty list of links passes the guard, and the
      update then carries no supplier at all. */
  lemma EmptySupplierListSendsNone(s: EditScreen, id: string)
    requires s.purchaseRequest.Some? && s.purchaseRequest.value.supplierId == SupplierLinks([])
    requires id != "" && s.items != []
    ensures Save(s, id).SaveRequest? && Save(s, id).update.supplierId.None?
  {
  }
}
