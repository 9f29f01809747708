# Flower shop front end: order, purchase-request and inventory logic

This project models the client-side logic of a flower shop's order and
inventory web front end in Dafny, and proves properties of that model. The
front end is written in React and TypeScript. Its logic lives in the state
handlers of its screens and in the service layer's inventory cache:

- **Create order** (`CreateOrder`): the cart, keyed by item id. It covers
  adding a flower from the number pad, toggling a bouquet, the stock-guarded
  quantity buttons, manual prices and markups, discount and delivery
  entry, the totals, tab validation and the order request.
- **Edit order** (`EditOrder`): loading the server's items into editable
  rows with a snapshot, and the same pricing handlers keeping a stored row
  subtotal. It also covers the quantity guard, which cuts the quantity down
  to the available stock, the save step, and the status-change guard.
  The save step splits the rows into rows to create and rows to update and
  sends the snapshot as `previous_items`.
- **Create purchase request** and **edit purchase request**
  (`CreatePurchaseRequest`, `PurchaseRequestEdit`): item lists keyed by
  record id or by index, save validation and the request bodies.
- **Numeric entry dialogs** (`QuantityPicker`, `BalanceUpdate`): the digit
  pad string machines, the submit guard chains, and the balance
  correction. After the correction, new balance = current balance +
  correction.
- **Bouquet composition editors** (`CreateBouquetTemplate`,
  `BouquetsInStock`): row quantity updates with a floor of 0, row
  removal, guarded adding, the total flower count and the request
  compositions.
- **Inventory table** (`InventoryTable`): the color/category/zero-balance
  filter pipeline, the color and category lists, the color toggle and the
  balance badge.
- **API service** (`Api`): the timed inventory cache, and the record mappings
  that fill in defaults.

`Common` holds the generic sequence machinery: filter, remove-at-index,
sums and subsequences. It also holds the JavaScript string semantics the
handlers rely on:
- `trim` over the ECMAScript white space and line terminators, and ASCII `toLowerCase`;
- `parseInt`/`parseFloat` on decimal text, with `None` standing for `NaN`;
- integer printing;
- code-point string order and an insertion sort of distinct strings.

Money and percentages are exact `real`s. Quantities and balances are `int`s.

The screens work in two styles, and the model follows each:
- A screen whose source file mutates state step by step is a class:
  `CreateOrder.CreateOrderScreen`, `EditOrder.EditOrderScreen`,
  `CreatePurchaseRequest.CreatePurchaseRequestScreen`,
  `QuantityPicker.QuantityPickerDialog` and `Api.ApiService`. Each method
  states its new state through a pure function of the old state, and the
  lemmas are about those functions.
- A screen whose handlers are pure updaters is a state datatype, with one
  function per handler.

Calls into the network are not modelled. Their results are parameters:
- a server response is a `Response` value;
- `window.confirm` is a boolean;
- `Date.now()`-based temporary ids are caller-supplied fresh ids or stamps;
- "now" in the cache is an integer time.

Where the source behaves in a way a reader might not expect, the model follows the code:

- In the edit flow, `standard_unit_price || unit_price` and
  `subtotal || quantity * unit_price` treat a stored 0 as missing.
  `EditOrder.LoadRow` does the same.
- `!item.id` treats an empty id as no id (`EditOrder.HasId`).
- The create flow's stock guard applies only when the flower is found in the
  loaded flower list (`CreateOrder.ExceedsStock`).
- In the edit purchase request screen, an empty supplier list passes the
  "Supplier ID is required" guard, and the request is then sent without a
  supplier (`PurchaseRequestEdit.EmptySupplierListSendsNone`). A stored
  `pr_price` of 0 loads as a blank field.
- In the bouquets-in-stock editor, copied rows get the flower's *name* as their
  flower id (`BouquetsInStock.EditBouquet`). Closing the action menu also
  clears the selected bouquet.
- `updateItemBalance` clears the cache only when the POST resolves
  (`Api.ApiService.UpdateItemBalance` takes the outcome as a parameter).

## Model

| member | source | states |
|---|---|---|
| Api.OrEmpty | src/services/api.ts:257-261 | `x \|\| ''`: the string when present, otherwise the empty string |
| Api.FirstPictureUrl | src/services/api.ts:263 | the url of the first attachment, '' when there is none |
| Api.MapItem | src/services/api.ts:256-264 | each field of the item is the record's field or its default ('' for strings, 0 expiry days), the picture is the first attachment's url, the id is the record id, the balance is always 0 |
| Api.GetItems | src/services/api.ts:253-266 | one item per record, in order, each the record's mapping |
| Api.MapSupplier | src/services/api.ts:245-248 | `supplier_id` is the record id; a missing name or url becomes '' |
| Api.GetSuppliers | src/services/api.ts:242-250 | one supplier per record, in order |
| Api.GetInventoryStep | src/services/api.ts:154-176 | no request exactly when the refresh is not forced, data is cached and `now - timestamp < expiry`, and then the cached data is returned unchanged. Otherwise the server's answer is returned, and on success it is stored with timestamp `now`. The expiry never changes |
| Api.ClearCache | src/services/api.ts:179-182 | data dropped, timestamp 0, expiry kept |
| Api.FetchThenHit | src/services/api.ts:158-173 | after a fetch, every unforced call before the expiry runs out is served from the cache with the fetched data |
| Api.ExpiredRefetches | src/services/api.ts:158-163 | once the expiry has passed, the next call sends a request |
| Api.ClearForcesFetch | src/services/api.ts:179-182 | after a clear, the next call always sends a request |
| Api.ExpiryConstant | src/services/api.ts:126-133 | the expiry stays 30000 through any run of calls and clears |
| Api.ApiService.constructor | src/services/api.ts:126-133 | the cache starts empty with timestamp 0 and expiry 30000 |
| Api.ApiService.GetInventoryWithBalance | src/services/api.ts:154-176 | result and new cache field are those of `GetInventoryStep` |
| Api.ApiService.ClearInventoryCache | src/services/api.ts:179-182 | the cache field becomes `ClearCache` of the old one |
| Api.ApiService.UpdateItemBalance | src/services/api.ts:185-190 | a resolved post clears the cache and returns the response; a failed one leaves the cache as it was |
| CreateOrder.FindIndex | src/components/CreateOrder.tsx:352-354 | the first index with that item id, or -1 when none has it |
| CreateOrder.FindFlower | src/components/CreateOrder.tsx:439 | a listed flower with that record id, or none when no flower has it |
| CreateOrder.FlowerCartQuantity | src/components/CreateOrder.tsx:422-425 | the quantity of the line with that id, 0 when there is none |
| CreateOrder.IsBouquetInCart | src/components/CreateOrder.tsx:427-429 | true exactly when some line has that id |
| CreateOrder.NewFlowerLine | src/components/CreateOrder.tsx:363-374 | a Flower line at the given quantity whose actual price is its standard price (0 when missing), with no markup |
| CreateOrder.NumberPadSave | src/components/CreateOrder.tsx:348-380 | nothing without a selected flower. A listed flower's line takes the new quantity, and the length and other lines are unchanged. Otherwise exactly one new line is appended |
| CreateOrder.ToBouquetDetails | src/components/CreateOrder.tsx:392-398 | missing composition and flower totals become empty / 0 |
| CreateOrder.NewBouquetLine | src/components/CreateOrder.tsx:405-417 | a Bouquet line at quantity 1, actual = standard price, no markup, details present exactly when they were fetched |
| CreateOrder.RemoveFromCart | src/components/CreateOrder.tsx:458-460 | exactly the lines with that id go; every other line keeps all its copies and its order |
| CreateOrder.AddBouquet | src/components/CreateOrder.tsx:382-420 | a bouquet in the cart is removed; otherwise one line is appended |
| CreateOrder.UpdateLine | src/components/CreateOrder.tsx:431-456 | a line changes only when it is the Flower with that id and the change stays within stock; the new quantity is `max(1, q + delta)` |
| CreateOrder.UpdateCartQuantity | src/components/CreateOrder.tsx:431-456 | length kept. Bouquets and the other lines are untouched. A changed line differs only in quantity, and that quantity is at least 1 |
| CreateOrder.ActualPriceChange | src/components/CreateOrder.tsx:480-490 | the line takes price `max(0, p)` and loses its markup; other lines untouched |
| CreateOrder.MarkedUpPrice | src/components/CreateOrder.tsx:505-509 | `max(0, standard * (1 + m/100))`, never negative |
| CreateOrder.MarkupChange | src/components/CreateOrder.tsx:492-516 | no markup resets the price to exactly the standard price; a markup m sets `MarkedUpPrice(standard, m)`; other lines untouched |
| CreateOrder.CustomMarkupInput | src/components/CreateOrder.tsx:1421-1428 | '' clears the markup, a number is clamped to [-100, 100], text that is not a number gives no update |
| CreateOrder.DiscountInput | src/components/CreateOrder.tsx:1528-1531 | always within [0, 100]: '' or not a number gives 0, otherwise the value clamped |
| CreateOrder.Totals | src/components/CreateOrder.tsx:552-569 | subtotal = Σ quantity·actual price, approximate total = Σ quantity·standard price, discount = subtotal·d/100, total = subtotal + delivery − discount |
| CreateOrder.TotalsAppend | src/components/CreateOrder.tsx:553 | adding a line adds exactly its quantity·price to the subtotal |
| CreateOrder.TotalsBounds | src/components/CreateOrder.tsx:552-569 | with non-negative lines, a discount in [0, 100] and non-negative delivery, the subtotal and discount are non-negative, the discount is at most the subtotal, and the total is at least the delivery price |
| CreateOrder.UnpricedSubtotal | src/components/CreateOrder.tsx:552-569 | with no manual prices, subtotal and approximate total agree |
| CreateOrder.ValidateInformationTab | src/components/CreateOrder.tsx:658-662 | ok exactly when a client is selected and a delivery has an address; the two error texts in that order |
| CreateOrder.ValidateItemsTab | src/components/CreateOrder.tsx:664-667 | ok exactly when the cart is not empty |
| Common.NonEmpty | src/components/CreateOrder.tsx:699-700 | `s \|\| undefined`: absent exactly when the text is empty, the text itself otherwise |
| CreateOrder.RequestItems | src/components/CreateOrder.tsx:711-716 | one request item per line, in order, with unit price = actual price |
| CreateOrder.SubmitOrder | src/components/CreateOrder.tsx:669-717 | blocked in order by the information tab (tab 0), the items tab (tab 1) and a missing location. A request is sent exactly when all pass. The request's items are `RequestItems` of the cart; client, location, delivery type, payment status, order status, discount percentage and delivery price are the form's; the address is sent, as typed, only for Delivery, the payment method only when Paid, date and notes as typed exactly when not empty; subtotal and discount amount are those of `Totals` |
| CreateOrder.NumberPadSaveKeepsUnique | src/components/CreateOrder.tsx:348-380 | the number pad keeps item ids unique |
| CreateOrder.NumberPadSaveQuantity | src/components/CreateOrder.tsx:348-425 | after saving, the flower's cart quantity is the saved quantity |
| CreateOrder.RemoveFromCartKeepsUnique | src/components/CreateOrder.tsx:458-460 | removal keeps item ids unique |
| CreateOrder.AddBouquetKeepsUnique | src/components/CreateOrder.tsx:382-420 | the bouquet toggle keeps item ids unique |
| CreateOrder.AddBouquetToggles | src/components/CreateOrder.tsx:382-420 | the toggle flips whether the bouquet is in the cart |
| CreateOrder.AddBouquetTwice | src/components/CreateOrder.tsx:382-420 | toggling an absent bouquet twice restores the cart |
| CreateOrder.UpdateCartQuantityKeepsUnique | src/components/CreateOrder.tsx:431-456 | the quantity buttons keep item ids unique |
| CreateOrder.PriceChangesKeepUnique | src/components/CreateOrder.tsx:480-516 | price and markup changes keep item ids unique |
| CreateOrder.UpdateCartQuantityWithinStock | src/components/CreateOrder.tsx:438-443 | with positive quantities within the listed flowers' stock, the buttons keep both properties |
| CreateOrder.MarkupLastWriterWins | src/components/CreateOrder.tsx:492-516 | a markup does not depend on an earlier manual price or markup of the line |
| CreateOrder.PriceLastWriterWins | src/components/CreateOrder.tsx:480-490 | a manual price does not depend on an earlier markup or price of the line |
| CreateOrder.MarkupFloorInactive | src/components/CreateOrder.tsx:505-509 | for markups of at least −100 the floor at 0 never applies |
| CreateOrder.SubmitOrderNeedsValidation | src/components/CreateOrder.tsx:669-683 | a sent request implies both tabs validated |
| CreateOrder.CreateOrderScreen.constructor | src/components/CreateOrder.tsx:160-201 | empty cart, no discount, no delivery price, dialogs closed |
| CreateOrder.CreateOrderScreen.FlowerCardClick | src/components/CreateOrder.tsx:343-346 | selects the flower and opens the pad; cart, discount, delivery price, price-modal target, error and tab keep their values |
| CreateOrder.CreateOrderScreen.HandleNumberPadSave | src/components/CreateOrder.tsx:348-380 | the cart becomes `NumberPadSave` of the old cart; with a flower selected the pad closes and the selection clears, otherwise both stay; discount, delivery price, modal target, error and tab keep their values |
| CreateOrder.CreateOrderScreen.HandleAddBouquet | src/components/CreateOrder.tsx:382-420 | the cart becomes `AddBouquet` of the old cart; nothing else changes |
| CreateOrder.CreateOrderScreen.HandleUpdateCartQuantity | src/components/CreateOrder.tsx:431-456 | the cart becomes `UpdateCartQuantity` of the old cart; nothing else changes |
| CreateOrder.CreateOrderScreen.HandleRemoveFromCart | src/components/CreateOrder.tsx:458-460 | the cart becomes `RemoveFromCart` of the old cart; nothing else changes |
| CreateOrder.CreateOrderScreen.HandleMarkupChange | src/components/CreateOrder.tsx:492-516 | the cart becomes `MarkupChange` of the old cart; nothing else changes |
| CreateOrder.CreateOrderScreen.CustomMarkupChange | src/components/CreateOrder.tsx:1421-1428 | the typed markup, clamped, is applied; text that is not a number leaves the cart as it was; no other field changes |
| CreateOrder.CreateOrderScreen.OpenPriceModal | src/components/CreateOrder.tsx:519-527 | targets the line when some cart line has that id, otherwise the target stays; nothing else changes |
| CreateOrder.CreateOrderScreen.OpenDeliveryPriceModal | src/components/CreateOrder.tsx:530-535 | targets the delivery price; nothing else changes |
| CreateOrder.CreateOrderScreen.SavePriceFromModal | src/components/CreateOrder.tsx:538-550 | a line target applies `ActualPriceChange`, the delivery target sets the delivery price, and the modal target is cleared; with no target nothing changes; discount, pad, selection, error and tab keep their values |
| CreateOrder.CreateOrderScreen.DiscountChange | src/components/CreateOrder.tsx:1528-1531 | the discount becomes `DiscountInput` of the text; nothing else changes |
| CreateOrder.CreateOrderScreen.DiscountPreset | src/components/CreateOrder.tsx:1538-1543 | the discount becomes the chosen preset; nothing else changes |
| CreateOrder.CreateOrderScreen.HandleCreateOrder | src/components/CreateOrder.tsx:669-717 | returns the request exactly when `SubmitOrder` sends one; otherwise the error and tab are set; cart, discount, delivery price, pad, selection and modal target keep their values |
| EditOrder.OrNumber | src/components/EditOrder.tsx:307-309 | `x \|\| y` on a number: 0 and missing fall back |
| EditOrder.LoadRow | src/components/EditOrder.tsx:294-313 | ids and quantity copied. Legacy 'Item' becomes Flower. The standard price is the standard unit price, or else the unit price. The actual price is the unit price, with no markup. A row without a stored subtotal is consistent |
| EditOrder.LoadOrder | src/components/EditOrder.tsx:294-318 | one row per server item in order, and the snapshot equals the loaded rows |
| EditOrder.StringOr | src/components/EditOrder.tsx:555 | `s \|\| fallback` on a string |
| EditOrder.FlowerRowName | src/components/EditOrder.tsx:555-557 | the item or product name, else 'Unknown Flower', followed by ' (color)' when there is a color |
| EditOrder.QuantityPickerConfirm | src/components/EditOrder.tsx:548-612 | without a selection, the error for that kind of item; with one, exactly one new unsaved row is appended, without de-duplication, at the given quantity, at the item's standard price (a flower's `standard_price` or a bouquet's `calculated_price`, else 0) with no markup and subtotal = quantity·price |
| EditOrder.RemoveItem | src/components/EditOrder.tsx:632-644 | a saved row whose deletion failed stays and gives the error; otherwise exactly the rows with that temporary id go; every other row keeps all its copies and its order |
| EditOrder.FindCatalogItem | src/components/EditOrder.tsx:653 | a catalog item with that id, or none when no item has it |
| EditOrder.GuardedQuantity | src/components/EditOrder.tsx:646-677 | always at least 1. Non-flowers get `max(1, q)`. A flower with stock gets `min(max(1, q), available)`, and a flower without stock is forced to 1 |
| EditOrder.QuantityChange | src/components/EditOrder.tsx:646-677 | only the rows with that temporary id change: the guarded quantity, and subtotal = quantity·actual price |
| EditOrder.ActualPriceChange | src/components/EditOrder.tsx:679-692 | price `max(0, p)`, markup cleared, subtotal = quantity·price; other rows untouched |
| EditOrder.MarkupChange | src/components/EditOrder.tsx:695-719 | no markup: standard price and subtotal; markup m: `standard·(1 + m/100)` with no floor; other rows untouched |
| EditOrder.PriceInput | src/components/EditOrder.tsx:1773 | never negative; not a number gives 0 |
| EditOrder.DeliveryInput | src/components/EditOrder.tsx:1847-1848 | never negative; '' or not a number gives 0 |
| EditOrder.Totals | src/components/EditOrder.tsx:783-793 | sums the stored row subtotals; total = subtotal − subtotal·d/100 + delivery |
| EditOrder.ConsistentTotals | src/components/EditOrder.tsx:783-793 | over consistent rows the stored subtotals sum to Σ quantity·actual price |
| EditOrder.HandlersKeepConsistent | src/components/EditOrder.tsx:646-719 | quantity, price and markup changes keep subtotal = quantity·actual price on every row |
| EditOrder.NewRows | src/components/EditOrder.tsx:908 | exactly the rows without an id |
| EditOrder.ExistingRows | src/components/EditOrder.tsx:925 | exactly the rows with an id |
| EditOrder.SavePartition | src/components/EditOrder.tsx:908-933 | new and existing rows split the cart: their sizes add up and each row is in exactly one |
| EditOrder.ItemsToCreate | src/components/EditOrder.tsx:911-916 | one create item per new row, in order |
| EditOrder.PreviousItems | src/components/EditOrder.tsx:942-949 | one previous item per snapshot row, in order, with that row's item id, name, type, quantity, subtotal and its actual price as unit price |
| EditOrder.CheckoutPayload | src/components/EditOrder.tsx:953-972 | `previous_items` is the snapshot. Client, delivery type, payment status, discount percentage and delivery price are the form's. The address is sent, as typed, exactly for delivery; date, notes and payment method are sent as typed exactly when not empty. Subtotal, discount amount and total are those of `Totals` |
| EditOrder.CheckoutCalls | src/components/EditOrder.tsx:898-974 | one create call when there are new rows, then one update per existing row in order, then the checkout update |
| EditOrder.UpdateCalls | src/components/EditOrder.tsx:926-932 | one item update per saved row, in cart order, with that row's id, quantity and actual price |
| EditOrder.UpdateExisting | src/components/EditOrder.tsx:926-932 | the loop over the saved rows issues exactly `UpdateCalls` |
| EditOrder.UpdateCheckout | src/components/EditOrder.tsx:908-974 | the three steps together issue exactly `CheckoutCalls` |
| EditOrder.PreviousItemsAreLoaded | src/components/EditOrder.tsx:942-971 | whatever edits follow the load, `previous_items` is the loaded items |
| EditOrder.StatusChange | src/components/EditOrder.tsx:1985-2031 | no order or no status gives an error, and the current status is rejected with an error. Otherwise the change is sent, except that Draft to Confirmed needs the user's confirmation |
| EditOrder.CreateRejectsEditTruncates | src/components/EditOrder.tsx:658-663 | on the same line and stock, an increase past the stock leaves a create-flow line unchanged but sets an edit-flow row to the available stock |
| EditOrder.MarkupFlowsAgree | src/components/EditOrder.tsx:708-713 | the two flows' markups agree down to −100%, and below that only the edit flow goes negative; the custom-markup fields of both screens clamp to [−100, 100] (EditOrder.tsx:1722-1727, CreateOrder.tsx:1421-1428), so the second half is not reachable from typed input |
| EditOrder.EditOrderScreen.constructor | src/components/EditOrder.tsx:209-226 | no rows, no snapshot, no error, status 'Draft', no discount and no delivery fee |
| EditOrder.EditOrderScreen.HandleLoadOrder | src/components/EditOrder.tsx:276-318 | rows and snapshot become the loaded rows; the status is the stored one or 'Draft', and discount and delivery fee the stored values with 0 for missing, unclamped; the error is kept |
| EditOrder.EditOrderScreen.HandleQuantityPickerConfirm | src/components/EditOrder.tsx:548-612 | the rows or the error become those of `QuantityPickerConfirm`; the snapshot, discount, delivery price and status are kept |
| EditOrder.EditOrderScreen.HandleRemoveItem | src/components/EditOrder.tsx:632-644 | the rows or the error become those of `RemoveItem`; the snapshot, discount, delivery price and status are kept |
| EditOrder.EditOrderScreen.HandleQuantityChange | src/components/EditOrder.tsx:646-677 | the rows become `QuantityChange` of the old rows; snapshot, discount, delivery price, status and error are kept |
| EditOrder.EditOrderScreen.HandleActualPriceChange | src/components/EditOrder.tsx:679-692 | the rows become `ActualPriceChange` of the old rows; snapshot, discount, delivery price, status and error are kept |
| EditOrder.EditOrderScreen.HandleMarkupChange | src/components/EditOrder.tsx:695-719 | the rows become `MarkupChange` of the old rows; snapshot, discount, delivery price, status and error are kept |
| EditOrder.EditOrderScreen.HandleDeliveryField | src/components/EditOrder.tsx:1846-1849 | the delivery fee becomes `DeliveryInput` of the text; the discount, rows, snapshot, status and error are kept |
| EditOrder.EditOrderScreen.HandleDiscountField | src/components/EditOrder.tsx:1867-1870 | the discount becomes `DiscountInput` of the text, clamped to 0..100; the delivery fee, rows, snapshot, status and error are kept |
| EditOrder.EditOrderScreen.HandleUpdateCheckout | src/components/EditOrder.tsx:898-974 | no order id, or an empty one, sends nothing and changes nothing; otherwise the error is cleared and the calls are exactly `CheckoutCalls` on the rows, the snapshot and the screen's own discount and delivery fee, which the final update carries as they stand; rows, snapshot, discount, fee and status are kept |
| EditOrder.EditOrderScreen.HandleStatusChange | src/components/EditOrder.tsx:1985-2031 | the error or the new status follow `StatusChange`; a failed update shows the server's detail or message, else 'Failed to update order status', and keeps the status; rows, snapshot, discount and delivery price are kept |
| CreatePurchaseRequest.FindIndex | src/components/CreatePurchaseRequest.tsx:114 | the first index with that record id, or -1 |
| CreatePurchaseRequest.RemoveItem | src/components/CreatePurchaseRequest.tsx:138-140 | exactly the entries with that record id go; every other entry keeps all its copies and its order; with no such entry the list is unchanged |
| CreatePurchaseRequest.QuantityConfirm | src/components/CreatePurchaseRequest.tsx:98-136 | In edit mode, 0 removes the item and any other quantity replaces it. In add mode, a listed item is removed at 0 and updated in place otherwise, and a new item is appended only for a quantity above 0 |
| CreatePurchaseRequest.QuantityConfirmKeepsInvariant | src/components/CreatePurchaseRequest.tsx:98-136 | with quantities of 0 or more, record ids stay unique and every stored quantity positive |
| CreatePurchaseRequest.RemoveItemKeepsInvariant | src/components/CreatePurchaseRequest.tsx:138-140 | removal keeps unique ids and positive quantities |
| CreatePurchaseRequest.RemoveItemRemoves | src/components/CreatePurchaseRequest.tsx:138-140 | no entry with that record id remains |
| CreatePurchaseRequest.HandleSubmit | src/components/CreatePurchaseRequest.tsx:142-166 | errors for no supplier, then for no items. Otherwise the request's items are `{record_id, quantity}` in order, and an empty date or description is omitted while a non-empty one is sent as typed |
| CreatePurchaseRequest.CreatePurchaseRequestScreen.constructor | src/components/CreatePurchaseRequest.tsx:47-58 | no items, no dialog, no selected item, not in edit mode, no error |
| CreatePurchaseRequest.CreatePurchaseRequestScreen.HandleAddItem | src/components/CreatePurchaseRequest.tsx:83-90 | no item, no change; otherwise the dialog opens in add mode; the list and the error are kept |
| CreatePurchaseRequest.CreatePurchaseRequestScreen.HandleEditQuantity | src/components/CreatePurchaseRequest.tsx:92-96 | the dialog opens in edit mode for that item; the list and the error are kept |
| CreatePurchaseRequest.CreatePurchaseRequestScreen.HandleQuantityConfirm | src/components/CreatePurchaseRequest.tsx:98-136 | the list becomes `QuantityConfirm` of the old one; with an item selected the dialog closes and the selection and edit mode clear, with none nothing else changes; unique record ids and the error are kept |
| CreatePurchaseRequest.CreatePurchaseRequestScreen.HandleRemoveItem | src/components/CreatePurchaseRequest.tsx:138-140 | the list becomes `RemoveItem` of the old one; nothing else changes |
| CreatePurchaseRequest.CreatePurchaseRequestScreen.SubmitRequest | src/components/CreatePurchaseRequest.tsx:142-166 | returns the request exactly when `HandleSubmit` builds one, clearing the error; otherwise it sets the error; the list and the dialog state are kept |
| PurchaseRequestEdit.AllPhotos | src/components/PurchaseRequestEdit.tsx:92-96 | the legacy photos followed by the attachments |
| PurchaseRequestEdit.Load | src/components/PurchaseRequestEdit.tsx:80-107 | rows are the server items in order with `isNew` false. Description is `\|\| ''`, and a 0 or missing price loads as a blank field. Photos are legacy then attachments. The error is cleared; the add-item fields and dialog keep their values |
| PurchaseRequestEdit.LoadFailed | src/components/PurchaseRequestEdit.tsx:108-110 | a failed load changes only the error: the failure's message, or the fixed text when it has none |
| PurchaseRequestEdit.QuantityChange | src/components/PurchaseRequestEdit.tsx:133-139 | a quantity below 1 is ignored; otherwise only the entry at the index changes |
| PurchaseRequestEdit.QuantityInput | src/components/PurchaseRequestEdit.tsx:476 | `parseInt(..) \|\| 1` |
| PurchaseRequestEdit.QuantityFieldKeepsPositive | src/components/PurchaseRequestEdit.tsx:133-139 | whatever is typed, the quantities stay at least 1 |
| PurchaseRequestEdit.RemoveItem | src/components/PurchaseRequestEdit.tsx:141-143 | exactly the entry at the index goes, the others keep their order |
| PurchaseRequestEdit.FindInventory | src/components/PurchaseRequestEdit.tsx:146 | an inventory item with that record id, or none when none has it |
| PurchaseRequestEdit.AddItem | src/components/PurchaseRequestEdit.tsx:145-161 | nothing for an unknown id; otherwise one new entry (`isNew`) is appended and the dialog resets |
| PurchaseRequestEdit.AddDialogOptions | src/components/PurchaseRequestEdit.tsx:584-590 | the inventory items not yet in the list, in order |
| PurchaseRequestEdit.AddFromDialogKeepsUnique | src/components/PurchaseRequestEdit.tsx:145-161 | adding an offered item keeps item ids unique |
| PurchaseRequestEdit.RemovePhoto | src/components/PurchaseRequestEdit.tsx:202-220 | exactly the photo at the index goes |
| PurchaseRequestEdit.PriceInput | src/components/PurchaseRequestEdit.tsx:416 | blank exactly for '', otherwise the parsed number or NaN |
| PurchaseRequestEdit.SupplierSent | src/components/PurchaseRequestEdit.tsx:241-243 | the first linked supplier, the text id, or nothing |
| PurchaseRequestEdit.Save | src/components/PurchaseRequestEdit.tsx:222-252 | nothing without a loaded request or id. Errors for a missing supplier, then for no items. Otherwise the update holds the trimmed description, or none, the price unless the field is blank (a typed number as that number, unreadable text as `NaN`), and the items in order |
| PurchaseRequestEdit.EmptySupplierListSendsNone | src/components/PurchaseRequestEdit.tsx:226-243 | an empty supplier list passes the guard and is sent as no supplier |
| QuantityPicker.DropLast | src/components/QuantityPickerDialog.tsx:95 | `slice(0, -1)`: the string without its last character, '' for '' |
| QuantityPicker.QuantityPad | src/components/QuantityPickerDialog.tsx:91-98 | clear gives '', backspace drops the last character, anything else is appended |
| QuantityPicker.PricePad | src/components/QuantityPickerDialog.tsx:99-120 | '.' only when there is none yet; a digit is ignored once two characters follow the point |
| QuantityPicker.FractionOfWellFormed | src/components/QuantityPickerDialog.tsx:111-113 | in a well-formed price, `split('.')[1]` is everything after the point |
| QuantityPicker.PricePadKeepsWellFormed | src/components/QuantityPickerDialog.tsx:99-120 | every pad key keeps at most one point and at most two characters behind it |
| QuantityPicker.PadPriceWellFormed | src/components/QuantityPickerDialog.tsx:99-120 | any run of pad keys keeps a price well formed |
| QuantityPicker.PadQuantityDigits | src/components/QuantityPickerDialog.tsx:91-98 | a quantity typed on the pad is all digits |
| QuantityPicker.SubmitGuards | src/components/QuantityPickerDialog.tsx:123-161 | the guard chain in order: no item; blank quantity; not a number or negative; above `availableQty`; an invalid shown price. A result is confirmed exactly when all pass, with the parsed quantity and the price only when shown and filled in |
| QuantityPicker.AvailableIsAccepted | src/components/QuantityPickerDialog.tsx:138-142 | a quantity equal to `availableQty` is confirmed |
| QuantityPicker.AboveAvailableIsRefused | src/components/QuantityPickerDialog.tsx:138-142 | one more than `availableQty` is refused with the stock message |
| QuantityPicker.PadQuantityParses | src/components/QuantityPickerDialog.tsx:91-131 | a non-empty pad quantity parses to its digits' value |
| QuantityPicker.OpeningQuantity | src/components/QuantityPickerDialog.tsx:56 | '' for a current quantity of 0 or less, otherwise text that parses back to it |
| QuantityPicker.ReopenConfirmsCurrent | src/components/QuantityPickerDialog.tsx:54-161 | reopening on a positive quantity within stock and submitting confirms that quantity |
| QuantityPicker.QuantityPickerDialog.constructor | src/components/QuantityPickerDialog.tsx:48-51 | empty fields, no error, quantity focused |
| QuantityPicker.QuantityPickerDialog.Open | src/components/QuantityPickerDialog.tsx:54-61 | quantity from `OpeningQuantity`, price only when positive, error from the external validation |
| QuantityPicker.QuantityPickerDialog.Close | src/components/QuantityPickerDialog.tsx:63-68 | fields and error cleared |
| QuantityPicker.QuantityPickerDialog.Focus | src/components/QuantityPickerDialog.tsx:316-352 | only the focused field changes |
| QuantityPicker.QuantityPickerDialog.Type | src/components/QuantityPickerDialog.tsx:315-351 | the focused field takes the typed text |
| QuantityPicker.QuantityPickerDialog.DigitClick | src/components/QuantityPickerDialog.tsx:90-121 | the focused field takes its pad's update, and a well-formed price stays well formed |
| QuantityPicker.CheckSubmit | src/components/QuantityPickerDialog.tsx:123-156 | the guards, checked one after another with early returns, decide exactly `Submit` |
| QuantityPicker.QuantityPickerDialog.HandleSubmit | src/components/QuantityPickerDialog.tsx:123-161 | confirms exactly what `Submit` confirms and then closes; otherwise it sets that error |
| BalanceUpdate.Reset | src/components/BalanceUpdateDialog.tsx:42-55 | blank balance and description, no error |
| BalanceUpdate.Correction | src/components/BalanceUpdateDialog.tsx:58-62 | 0 without an item or input; otherwise current balance + correction = the parsed balance (0 for text that is not a number) |
| BalanceUpdate.DigitClick | src/components/BalanceUpdateDialog.tsx:86-94 | clear, backspace or append on the balance text |
| BalanceUpdate.DigitClickIsQuantityPad | src/components/BalanceUpdateDialog.tsx:86-94 | the balance pad is the quantity pad |
| BalanceUpdate.Submit | src/components/BalanceUpdateDialog.tsx:96-119 | Nothing without an item, then errors for a blank balance and for one that is not a number of 0 or more. Otherwise the request has the item's record id and type 'manual update', and current balance + change = the typed balance. An empty description gets the default text naming that balance |
| BalanceUpdate.AfterResponse | src/components/BalanceUpdateDialog.tsx:121-133 | success resets the dialog; a refusal reads 'Update failed'; a thrown error shows its message |
| BalanceUpdate.PadBalanceReachesTarget | src/components/BalanceUpdateDialog.tsx:58-119 | a balance typed on the pad is refused when blank, and otherwise sent so that the stock ends at the typed digits' value |
| InventoryTable.InitialFilters | src/components/InventoryTable.tsx:52-54 | no colors, zero items shown, category 'flower' |
| InventoryTable.AvailableColors | src/components/InventoryTable.tsx:58-61 | strictly sorted, and exactly the non-empty item colors |
| InventoryTable.AvailableColorsUnique | src/components/InventoryTable.tsx:58-61 | any strictly sorted list of exactly those colors is `AvailableColors` |
| InventoryTable.AvailableCategories | src/components/InventoryTable.tsx:63-72 | exactly the non-empty categories, each once, every 'flower' spelling before every other category |
| InventoryTable.AvailableCategoriesOthersSorted | src/components/InventoryTable.tsx:63-72 | the other categories follow in strictly sorted order |
| InventoryTable.FilteredItemsSpec | src/components/InventoryTable.tsx:74-95 | an order-preserving subsequence of the items holding exactly those that pass every active filter |
| InventoryTable.NoFiltersIsIdentity | src/components/InventoryTable.tsx:74-95 | with no filter active the items are unchanged |
| InventoryTable.FilteredItemsIsOneFilter | src/components/InventoryTable.tsx:74-95 | the three filters in sequence are one filter by their conjunction |
| InventoryTable.ColorToggle | src/components/InventoryTable.tsx:97-103 | a selected color is removed, and an absent one is appended |
| InventoryTable.ColorToggleTwice | src/components/InventoryTable.tsx:97-103 | toggling twice keeps the same set, and restores the list for an absent color |
| InventoryTable.ClearFilters | src/components/InventoryTable.tsx:109-113 | no colors, zero items shown, category 'Flower' |
| InventoryTable.ClearFiltersShowsFlowers | src/components/InventoryTable.tsx:79-113 | clearing filters like the initial 'flower' category |
| InventoryTable.BalanceColor | src/components/InventoryTable.tsx:144-148 | error for ≤ 0, warning for 1 to 5, success above 5 |
| CreateBouquetTemplate.AvailableFlowers | src/components/bouquets/CreateBouquetTemplate.tsx:86-97 | the items with a category other than 'bouquet', in order |
| CreateBouquetTemplate.TemplateSelect | src/components/bouquets/CreateBouquetTemplate.tsx:103-109 | the template's compositions, not being edited, with empty description and attachments |
| CreateBouquetTemplate.QuantityChange | src/components/bouquets/CreateBouquetTemplate.tsx:149-155 | rows with that id take `max(0, q)`; others and the length unchanged |
| CreateBouquetTemplate.RowQuantityInput | src/components/bouquets/CreateBouquetTemplate.tsx:496-499 | `parseInt(..) \|\| 0` |
| CreateBouquetTemplate.RemoveComposition | src/components/bouquets/CreateBouquetTemplate.tsx:157-159 | exactly the rows with that id go; every other row keeps all its copies and its order; nothing else changes |
| CreateBouquetTemplate.AddFlower | src/components/bouquets/CreateBouquetTemplate.tsx:161-175 | one row is appended only with a flower and a positive quantity, and the add fields reset |
| CreateBouquetTemplate.AddQuantityInput | src/components/bouquets/CreateBouquetTemplate.tsx:578 | at least 1 |
| CreateBouquetTemplate.RemoveAttachment | src/components/bouquets/CreateBouquetTemplate.tsx:184-186 | exactly the file at the index goes |
| CreateBouquetTemplate.AddFlowerGrowsTotal | src/components/bouquets/CreateBouquetTemplate.tsx:161-204 | adding grows the total flower count by the added quantity |
| CreateBouquetTemplate.QuantityChangeMovesTotal | src/components/bouquets/CreateBouquetTemplate.tsx:149-204 | a change on a row whose id occurs once moves the total by the clamped difference |
| CreateBouquetTemplate.HandlersKeepNonNegative | src/components/bouquets/CreateBouquetTemplate.tsx:103-204 | every handler keeps the quantities, and so the total, non-negative |
| CreateBouquetTemplate.CreateBouquet | src/components/bouquets/CreateBouquetTemplate.tsx:111-130 | nothing without a template; otherwise the template id, the description, `{flower_item_id, quantity}` per row in order, and the files |
| CreateBouquetTemplate.CreateBouquetKeepsCount | src/components/bouquets/CreateBouquetTemplate.tsx:121-204 | the request's quantities add up to the total flower count |
| BouquetsInStock.EditIdInjective | src/components/BouquetsInStock.tsx:197 | different indexes give different `edit_` ids |
| BouquetsInStock.EditBouquet | src/components/BouquetsInStock.tsx:187-204 | the bouquet's flowers in order with ids `edit_i`, no attachments; the menu closes and the selection clears |
| BouquetsInStock.EditBouquetDistinctIds | src/components/BouquetsInStock.tsx:192-204 | the copied rows have distinct ids |
| BouquetsInStock.QuantityChange | src/components/BouquetsInStock.tsx:221-227 | rows with that id take `max(0, q)`; the rest unchanged |
| BouquetsInStock.RemoveComposition | src/components/BouquetsInStock.tsx:229-231 | exactly the rows with that id go; every other row keeps all its copies and its order; nothing else changes |
| BouquetsInStock.AddFlower | src/components/BouquetsInStock.tsx:233-247 | one row is appended only with a flower and a positive quantity; a missing color becomes '' |
| BouquetsInStock.HandlersKeepDistinctIds | src/components/BouquetsInStock.tsx:221-247 | with a fresh temporary id the row ids stay distinct |
| BouquetsInStock.RemoveAttachment | src/components/BouquetsInStock.tsx:256-258 | exactly the file at the index goes |
| BouquetsInStock.EditBouquetKeepsCount | src/components/BouquetsInStock.tsx:192-270 | editing starts from the bouquet's own flower count |
| BouquetsInStock.HandlersMoveCount | src/components/BouquetsInStock.tsx:221-270 | adding grows the count by the quantity; a change moves it by the clamped difference |
| BouquetsInStock.GetStatusColor | src/components/BouquetsInStock.tsx:134-141 | successful, pending and failed map to success, warning and error, and anything else to default |

## Left out

- Rendering is not modelled: JSX/MUI markup, styling, color lookup tables, disabled-button conditions, dialogs' open flags other than those the handlers set, loading spinners and the error banners of the fetches.
- Network calls are not modelled: axios/fetch, the auth interceptor, navigation, `alert` and `console`. Responses, confirmations and mid-way failures are parameters or are not modelled.
- EditOrder.UpdateCheckout: the model issues all calls. A call that throws part way through, and the error shown then, are not modelled.
- The diff the backend computes from `previous_items`, its stock deduction and the bouquet-sold marking are server logic.
- FormData and multipart uploads are not modelled. The photo upload of the edit purchase request screen and the attachment uploads (`handleFileUpload`) depend on browser `File` objects.
- Number formatting is not modelled: `toFixed(2)` rounding in the order payloads, `Intl.NumberFormat`, `formatFileSize` and date formatting. Money is exact.
- QuantityPicker.QuantityPickerDialog.Open: `Number.prototype.toString` for a non-integer price is a parameter (`currentPriceText`).
- InventoryTable.AvailableCategories: `localeCompare` is modelled as code-point order. The relative order of several 'flower' spellings depends on the engine's sort, and the model keeps first-occurrence order.
- Common.Lower: `toLowerCase` is modelled for ASCII letters only.
- Common.StrLess: strings compare by Unicode code point, while JavaScript's `<` and `sort` compare UTF-16 code units; the two orders differ only for characters above U+FFFF, which sort before U+E000–U+FFFF in JavaScript.
- Common.ParseInt and Common.ParseFloat: digits with an optional sign (and one point for `parseFloat`), after leading white space. Hexadecimal, exponents, 'Infinity' and a sign on an empty digit string are not modelled.
- CreateOrder.CreateOrderScreen.CustomMarkupChange and CreateOrder.CustomMarkupInput: text that does not parse would pass `NaN` to the markup handler; the model makes no update in that case.
- BalanceUpdate.AfterResponse: a thrown value that is not an `Error` is modelled as an empty message. An `Error` whose message is empty would show an empty banner in the source, and shows 'Update failed' here.
- Timing is reduced to parameters: `Date.now()` and `Math.random()` temporary ids are caller-supplied values, and cache time is an integer parameter.
- React effects are not modelled. These are the client sync, re-attaching balances, and adding a bouquet from the URL on the create order screen.
- QuantityPicker.SubmitGuards: a non-integer `availableQty` is not modelled (stock is an integer).
- The bouquets-in-stock save (`handleSaveBouquet`) only shows an alert, and it returns early because closing the menu clears the selected bouquet.
- The category setter of the inventory table (`handleCategorySelect`) only assigns the field. In the model the filters are a value.
- EditOrder.EditOrderScreen.HandleLoadOrder: the rows, snapshot, status, discount and delivery fee are loaded. The other order-level fields the load sets (client, location, payment, delivery type, address, date, notes, attachments) are not fields of the screen; they are an input of the save.
- The reload that follows a successful save or status change is not modelled.
- CreateOrder.AddBouquet, CreateOrder.CreateOrderScreen.HandleAddBouquet, EditOrder.RemoveItem and EditOrder.EditOrderScreen.HandleRemoveItem: each is modelled as one atomic step from the current state. In the source these handlers await the server and then write back state captured at the click, so interleaved clicks are not captured: two quick clicks on an absent bouquet can give two lines with the same item id (which `AddBouquetKeepsUnique` does not cover), and an edit made during the await is lost.
- CreateOrder.NumberPadSave and CreatePurchaseRequest.QuantityConfirm: the source writes the new quantity into a line object that the previous cart or list shares. With value semantics that aliasing is not modelled.
- Display-only fields are carried without being interpreted: pictures, bouquet details and image URLs.
