/** The item list of the create-purchase-request screen
    (`src/components/CreatePurchaseRequest.tsx`): adding, re-quantifying and
    removing items keyed by `record_id`, and the request `handleSubmit` builds.
    `CreatePurchaseRequestScreen` holds the screen's state. */
module CreatePurchaseRequest {
  import opened Common
  import Api

  /** `SelectedItem`: an inventory item with the quantity to order. */
  datatype SelectedItem = SelectedItem(item: Api.InventoryItem, quantity: int)

  function RecordIdOf(x: SelectedItem): string { x.item.recordId }

  /** No two entries share a `record_id`. */
  ghost predicate UniqueRecordIds(items: seq<SelectedItem>)
  {
    KeysUnique(items, RecordIdOf)
  }

  /** Every stored quantity is positive. */
  ghost predicate AllPositive(items: seq<SelectedItem>)
  {
    forall j :: 0 <= j < |items| ==> items[j].quantity > 0
  }

  /** `selectedItems.findIndex(s => s.record_id === recordId)`. */
  function FindIndex(items: seq<SelectedItem>, recordId: string): (r: int)
    ensures -1 <= r < |items|
    ensures r >= 0 ==> items[r].item.recordId == recordId && forall j :: 0 <= j < r ==> items[j].item.recordId != recordId
    ensures r == -1 ==> forall j :: 0 <= j < |items| ==> items[j].item.recordId != recordId
    decreases |items|
  {
    if items == [] then -1
    else if items[0].item.recordId == recordId then 0
    else
      var k := FindIndex(items[1..], recordId);
      if k < 0 then -1 else k + 1
  }

  function RecordIdIsNot(recordId: string): SelectedItem -> bool
  {
    (x: SelectedItem) => x.item.recordId != recordId
  }

  /** `handleRemoveItem(recordId)`: exactly the entries with that id go, the
      others keep their order. */
  function RemoveItem(items: seq<SelectedItem>, recordId: string): (r: seq<SelectedItem>)
    ensures forall x :: x in r <==> x in items && x.item.recordId != recordId
    ensures IsSubseq(r, items)
    ensures (forall j :: 0 <= j < |items| ==> items[j].item.recordId != recordId) ==> r == items
    ensures forall x :: multiset(r)[x] == if x.item.recordId != recordId then multiset(items)[x] else 0
  {
    FilterMembers(items, RecordIdIsNot(recordId));
    FilterCounts(items, RecordIdIsNot(recordId));
    FilterIsSubseq(items, RecordIdIsNot(recordId));
    assert (forall j :: 0 <= j < |items| ==> items[j].item.recordId != recordId) ==>
      forall x :: x in items ==> RecordIdIsNot(recordId)(x);
    if forall j :: 0 <= j < |items| ==> items[j].item.recordId != recordId then
      FilterAll(items, RecordIdIsNot(recordId));
      Filter(items, RecordIdIsNot(recordId))
    else Filter(items, RecordIdIsNot(recordId))
  }

  /** `handleQuantityConfirm(quantity)` for the item the dialog was opened
      for. Editing: 0 removes, anything else replaces that item's quantity.
      Adding: an item already listed is removed at 0 and updated in place
      otherwise; a new item is appended only for a quantity above 0. */
  function QuantityConfirm(items: seq<SelectedItem>, selected: Option<Api.InventoryItem>,
                           editing: bool, quantity: int): (r: seq<SelectedItem>)
    ensures selected.None? ==> r == items
    ensures selected.Some? && editing && quantity == 0 ==> r == RemoveItem(items, selected.value.recordId)
    ensures selected.Some? && editing && quantity != 0 ==>
      |r| == |items|
      && forall j :: 0 <= j < |items| ==>
           r[j] == (if items[j].item.recordId == selected.value.recordId then items[j].(quantity := quantity) else items[j])
    ensures selected.Some? && !editing && FindIndex(items, selected.value.recordId) >= 0 && quantity == 0 ==>
      r == RemoveItem(items, selected.value.recordId)
    ensures selected.Some? && !editing && FindIndex(items, selected.value.recordId) >= 0 && quantity != 0 ==>
      var k := FindIndex(items, selected.value.recordId);
      |r| == |items| && r[k] == items[k].(quantity := quantity)
      && forall j :: 0 <= j < |items| && j != k ==> r[j] == items[j]
    ensures selected.Some? && !editing && FindIndex(items, selected.value.recordId) < 0 ==>
      (quantity > 0 ==> r == items + [SelectedItem(selected.value, quantity)])
      && (quantity <= 0 ==> r == items)
  {
    if selected.None? then items
    else
      var id := selected.value.recordId;
      if editing then
        if quantity == 0 then RemoveItem(items, id)
        else seq(|items|, j requires 0 <= j < |items| =>
               if items[j].item.recordId == id then items[j].(quantity := quantity) else items[j])
      else
        var existingIndex := FindIndex(items, id);
        if existingIndex >= 0 then
          if quantity == 0 then RemoveItem(items, id)
          else items[existingIndex := items[existingIndex].(quantity := quantity)]
        else if quantity > 0 then items + [SelectedItem(selected.value, quantity)]
        else items
  }

  /** With quantities of 0 or more, as the quantity dialog delivers them,
      the list keeps unique record ids and positive quantities. */
  lemma QuantityConfirmKeepsInvariant(items: seq<SelectedItem>, selected: Option<Api.InventoryItem>,
                                      editing: bool, quantity: int)
    requires UniqueRecordIds(items) && AllPositive(items) && quantity >= 0
    ensures var r := QuantityConfirm(items, selected, editing, quantity);
            UniqueRecordIds(r) && AllPositive(r)
  {
    var r := QuantityConfirm(items, selected, editing, quantity);
    if selected.Some? {
      var id := selected.value.recordId;
      if quantity == 0 && (editing || FindIndex(items, id) >= 0) {
        RemoveItemKeepsInvariant(items, id);
      } else if editing || FindIndex(items, id) >= 0 {
        assert forall j :: 0 <= j < |items| ==> RecordIdOf(r[j]) == RecordIdOf(items[j]);
      } else if quantity > 0 {
        forall i, j | 0 <= i < j < |r| ensures RecordIdOf(r[i]) != RecordIdOf(r[j]) {
          assert r[i] == items[i];
          if j < |items| {
            assert r[j] == items[j];
          }
        }
      }
    }
  }

  /** Removing keeps unique record ids and positive quantities. */
  lemma RemoveItemKeepsInvariant(items: seq<SelectedItem>, recordId: string)
    requires UniqueRecordIds(items) && AllPositive(items)
    ensures UniqueRecordIds(RemoveItem(items, recordId)) && AllPositive(RemoveItem(items, recordId))
  {
    FilterKeysUnique(items, RecordIdIsNot(recordId), RecordIdOf);
    var r := RemoveItem(items, recordId);
    forall j | 0 <= j < |r| ensures r[j].quantity > 0 {
      assert r[j] in r;
      var k :| 0 <= k < |items| && items[k] == r[j];
    }
  }

  /** After a removal no entry has that record id. */
  lemma RemoveItemRemoves(items: seq<SelectedItem>, recordId: string)
    ensures forall j :: 0 <= j < |RemoveItem(items, recordId)| ==> RemoveItem(items, recordId)[j].item.recordId != recordId
  {
    var r := RemoveItem(items, recordId);
    forall j | 0 <= j < |r| ensures r[j].item.recordId != recordId {
      assert r[j] in r;
    }
  }

  /** An item of the `PurchaseRequestCreate` body. */
  datatype RequestItem = RequestItem(itemId: string, quantity: int)

  /** `PurchaseRequestCreate`; `None` is an absent (undefined) field. */
  datatype PurchaseRequestCreate = PurchaseRequestCreate(
    supplierId: string,
    expectedDelivery: Option<string>,
    items: seq<RequestItem>,
    description: Option<string>)

  datatype SubmitOutcome = SubmitError(error: string) | Submit(request: PurchaseRequestCreate)

  /** `handleSubmit` up to the request: a supplier, then at least one item. */
  function HandleSubmit(selectedSupplier: string, expectedDelivery: string, items: seq<SelectedItem>,
                        description: string): (r: SubmitOutcome)
    ensures selectedSupplier == "" ==> r == SubmitError("Please select a supplier")
    ensures selectedSupplier != "" && |items| == 0 ==> r == SubmitError("Please add at least one item")
    ensures r.Submit? <==> selectedSupplier != "" && |items| > 0
    ensures r.Submit? ==>
      r.request.supplierId == selectedSupplier
      && |r.request.items| == |items|
      && (forall j :: 0 <= j < |items| ==>
            r.request.items[j] == RequestItem(items[j].item.recordId, items[j].quantity))
      && (r.request.expectedDelivery.None? <==> expectedDelivery == "")
      && (r.request.expectedDelivery.Some? ==> r.request.expectedDelivery.value == expectedDelivery)
      && (r.request.description.None? <==> description == "")
      && (r.request.description.Some? ==> r.request.description.value == description)
  {
    if selectedSupplier == "" then SubmitError("Please select a supplier")
    else if |items| == 0 then SubmitError("Please add at least one item")
    else
      Submit(PurchaseRequestCreate(
        selectedSupplier,
        NonEmpty(expectedDelivery),
        seq(|items|, j requires 0 <= j < |items| => RequestItem(items[j].item.recordId, items[j].quantity)),
        NonEmpty(description)))
  }

  /** The state of the screen that the handlers change. */
  class CreatePurchaseRequestScreen {
    var selectedItems: seq<SelectedItem>
    var selectedItemForQuantity: Option<Api.InventoryItem>
    var editingQuantity: bool
    var quantityDialogOpen: bool
    var error: Option<string>

    ghost predicate Valid()
      reads this
    {
      UniqueRecordIds(selectedItems)
    }

    constructor ()
      ensures Valid() && selectedItems == [] && selectedItemForQuantity.None? && !quantityDialogOpen
      ensures !editingQuantity && error.None?
    {
      selectedItems := [];
      selectedItemForQuantity := None;
      editingQuantity := false;
      quantityDialogOpen := false;
      error := None;
    }

    /** `handleAddItem(item)`: opens the dialog to add `item`. */
    method HandleAddItem(item: Option<Api.InventoryItem>)
      requires Valid()
      modifies this
      ensures Valid() && selectedItems == old(selectedItems)
      ensures item.Some? ==> selectedItemForQuantity == item && !editingQuantity && quantityDialogOpen
      ensures item.None? ==>
        selectedItemForQuantity == old(selectedItemForQuantity)
        && editingQuantity == old(editingQuantity) && quantityDialogOpen == old(quantityDialogOpen)
      ensures error == old(error)
    {
      if item.None? {
        return;
      }
      selectedItemForQuantity := item;
      editingQuantity := false;
      quantityDialogOpen := true;
    }

    /** `handleEditQuantity(item)`: opens the dialog to change a listed item. */
    method HandleEditQuantity(item: SelectedItem)
      requires Valid()
      modifies this
      ensures Valid() && selectedItems == old(selectedItems)
      ensures selectedItemForQuantity == Some(item.item) && editingQuantity && quantityDialogOpen
      ensures error == old(error)
    {
      selectedItemForQuantity := Some(item.item);
      editingQuantity := true;
      quantityDialogOpen := true;
    }

    /** `handleQuantityConfirm(quantity)`; a listed item being added again is
        updated in place. */
    method HandleQuantityConfirm(quantity: int)
      requires Valid()
      modifies this
      ensures Valid()
      ensures selectedItems == QuantityConfirm(old(selectedItems), old(selectedItemForQuantity), old(editingQuantity), quantity)
      ensures old(selectedItemForQuantity).Some? ==>
        !quantityDialogOpen && selectedItemForQuantity.None? && !editingQuantity
      ensures old(selectedItemForQuantity).None? ==>
        quantityDialogOpen == old(quantityDialogOpen) && selectedItemForQuantity.None?
        && editingQuantity == old(editingQuantity)
      ensures error == old(error)
    {
      if selectedItemForQuantity.None? {
        return;
      }
      ghost var spec := QuantityConfirm(selectedItems, selectedItemForQuantity, editingQuantity, quantity);
      var selected := selectedItemForQuantity.value;
      var id := selected.recordId;
      var before := selectedItems;
      if editingQuantity {
        if quantity == 0 {
          HandleRemoveItem(id);
          assert selectedItems == spec;
        } else {
          selectedItems := seq(|before|, j requires 0 <= j < |before| =>
            if before[j].item.recordId == id then before[j].(quantity := quantity) else before[j]);
          assert forall j :: 0 <= j < |before| ==> RecordIdOf(selectedItems[j]) == RecordIdOf(before[j]);
          assert selectedItems == spec;
        }
      } else {
        var existingIndex := FindIndex(selectedItems, id);
        if existingIndex >= 0 {
          if quantity == 0 {
            HandleRemoveItem(id);
            assert selectedItems == spec;
          } else {
            selectedItems := selectedItems[existingIndex := selectedItems[existingIndex].(quantity := quantity)];
            assert forall j :: 0 <= j < |before| ==> RecordIdOf(selectedItems[j]) == RecordIdOf(before[j]);
            assert selectedItems == spec;
          }
        } else if quantity > 0 {
          selectedItems := selectedItems + [SelectedItem(selected, quantity)];
          assert forall j :: 0 <= j < |before| ==> selectedItems[j] == before[j];
          assert selectedItems == spec;
        } else {
          assert selectedItems == spec;
        }
      }
      quantityDialogOpen := false;
      selectedItemForQuantity := None;
      editingQuantity := false;
    }

    /** `handleRemoveItem(recordId)`. */
    method HandleRemoveItem(recordId: string)
      requires Valid()
      modifies this
      ensures Valid() && selectedItems == RemoveItem(old(selectedItems), recordId)
      ensures selectedItemForQuantity == old(selectedItemForQuantity) && editingQuantity == old(editingQuantity)
      ensures quantityDialogOpen == old(quantityDialogOpen) && error == old(error)
    {
      FilterKeysUnique(selectedItems, RecordIdIsNot(recordId), RecordIdOf);
      selectedItems := RemoveItem(selectedItems, recordId);
    }

    /** `handleSubmit` up to the request; on an error nothing is sent. */
    method SubmitRequest(selectedSupplier: string, expectedDelivery: string, description: string)
      returns (request: Option<PurchaseRequestCreate>)
      requires Valid()
      modifies this
      ensures Valid() && selectedItems == old(selectedItems)
      ensures selectedItemForQuantity == old(selectedItemForQuantity) && editingQuantity == old(editingQuantity)
      ensures quantityDialogOpen == old(quantityDialogOpen)
      ensures var s := HandleSubmit(selectedSupplier, expectedDelivery, old(selectedItems), description);
              (s.SubmitError? ==> request.None? && error == Some(s.error))
              && (s.Submit? ==> request == Some(s.request) && error.None?)
    {
      var s := HandleSubmit(selectedSupplier, expectedDelivery, selectedItems, description);
      if s.SubmitError? {
        error := Some(s.error);
        return None;
      }
      error := None;
      request := Some(s.request);
    }
  }
}
