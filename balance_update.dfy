/** The manual balance update dialog (`src/components/BalanceUpdateDialog.tsx`):
    the correction shown for a typed new balance, its digit pad, and the
    request `handleSubmit` sends. The dialog's fields form `BalanceDialog`,
    and each handler is a function to the next state. */
module BalanceUpdate {
  import opened Common
  import Api
  import QuantityPicker

  /** The dialog's fields. */
  datatype BalanceDialog = BalanceDialog(newBalance: string, description: string, error: Option<string>)

  /** The state on opening, and after `handleClose`. */
  function Reset(): (r: BalanceDialog)
    ensures r.newBalance == "" && r.description == "" && r.error.None?
  {
    BalanceDialog("", "", None)
  }

  /** `getCorrection`: 0 with no item or a blank field; otherwise the typed
      balance (`parseInt(..) || 0`) minus the current one. */
  function Correction(item: Option<Api.InventoryItem>, newBalance: string): (r: int)
    ensures item.None? || newBalance == "" ==> r == 0
    ensures item.Some? && newBalance != "" && ParseInt(newBalance).Some? ==>
              item.value.currentBalance + r == ParseInt(newBalance).value
    ensures item.Some? && newBalance != "" && ParseInt(newBalance).None? ==>
              r == -item.value.currentBalance
  {
    if item.None? || newBalance == "" then 0
    else
      var n := match ParseInt(newBalance) case None => 0 case Some(v) => v;
      n - item.value.currentBalance
  }

  /** `handleDigitClick(key)`: 'clear' empties, 'backspace' drops the last
      character, anything else is appended. */
  function DigitClick(d: BalanceDialog, k: QuantityPicker.PadKey): (r: BalanceDialog)
    ensures r.description == d.description && r.error == d.error
    ensures k.Clear? ==> r.newBalance == ""
    ensures k.Backspace? ==> |r.newBalance| == (if d.newBalance == "" then 0 else |d.newBalance| - 1)
                             && r.newBalance == d.newBalance[..|r.newBalance|]
    ensures k.Digit? ==> r.newBalance == d.newBalance + [k.c]
  {
    var next := match k
      case Clear => ""
      case Backspace => if d.newBalance == "" then "" else d.newBalance[..|d.newBalance| - 1]
      case Point => d.newBalance + "."
      case Digit(c) => d.newBalance + [c];
    d.(newBalance := next)
  }

  /** The balance pad behaves exactly like the quantity picker's pad. */
  lemma {:induction false} DigitClickIsQuantityPad(d: BalanceDialog, k: QuantityPicker.PadKey)
    ensures DigitClick(d, k).newBalance == QuantityPicker.QuantityPad(d.newBalance, k)
  {
    match k {
      case Clear =>
      case Backspace =>
      case Point =>
      case Digit(c) =>
    }
  }

  datatype SubmitOutcome = Ignored | Rejected(error: string) | Send(request: Api.BalanceUpdateRequest)

  const EnterBalance := "Please enter a new balance value"
  const InvalidBalance := "Please enter a valid balance (0 or greater)"
  const ManualUpdate := "manual update"

  function DefaultDescription(n: nat): string
  {
    "Manual Balance Update - Balance updated to " + NatToString(n)
  }

  /** The typed balance parses to a number of 0 or more. */
  predicate BalanceValid(newBalance: string)
  {
    ParseInt(newBalance).Some? && ParseInt(newBalance).value >= 0
  }

  /** `handleSubmit` up to the request: nothing without an item, an error
      for a blank field or one that is not a number of 0 or more; otherwise
      the correction for the item under the type 'manual update'. */
  function Submit(item: Option<Api.InventoryItem>, d: BalanceDialog): (r: SubmitOutcome)
    ensures item.None? <==> r.Ignored?
    ensures item.Some? && Trim(d.newBalance) == "" ==> r == Rejected(EnterBalance)
    ensures item.Some? && Trim(d.newBalance) != "" && !BalanceValid(d.newBalance) ==> r == Rejected(InvalidBalance)
    ensures r.Send? <==> item.Some? && Trim(d.newBalance) != "" && BalanceValid(d.newBalance)
    ensures r.Send? ==>
      var n := ParseInt(d.newBalance).value;
      r.request.recordId == item.value.recordId
      && r.request.quantityChange == Correction(item, d.newBalance)
      && item.value.currentBalance + r.request.quantityChange == n
      && r.request.transactionType == ManualUpdate
      && (d.description != "" ==> r.request.description == d.description)
      && (d.description == "" ==> n >= 0 && r.request.description == DefaultDescription(n))
  {
    if item.None? then Ignored
    else if Trim(d.newBalance) == "" then Rejected(EnterBalance)
    else
      var parsed := ParseInt(d.newBalance);
      if parsed.None? || parsed.value < 0 then Rejected(InvalidBalance)
      else
        var n := parsed.value;
        Send(Api.BalanceUpdateRequest(
          item.value.recordId,
          Correction(item, d.newBalance),
          ManualUpdate,
          if d.description != "" then d.description else DefaultDescription(n)))
  }

  /** After the request: success closes and resets the dialog; a refusal
      reads 'Update failed'; a thrown error shows its message, or 'Update
      failed' when it has none. */
  function AfterResponse(d: BalanceDialog, response: Api.Response<Api.BalanceUpdateResponse>): (r: BalanceDialog)
    ensures response.Ok? && response.body.success ==> r == Reset()
    ensures response.Ok? && !response.body.success ==> r == d.(error := Some("Update failed"))
    ensures response.Failed? ==>
              r == d.(error := Some(if response.message == "" then "Update failed" else response.message))
  {
    match response
    case Ok(body) => if body.success then Reset() else d.(error := Some("Update failed"))
    case Failed(message) => d.(error := Some(if message == "" then "Update failed" else message))
  }

  /** A balance typed only on the pad is either blank, which is refused, or
      sent, and the stock then ends at exactly the typed digits' value. */
  lemma {:induction false} PadBalanceReachesTarget(item: Api.InventoryItem, keys: seq<QuantityPicker.PadKey>,
                                                   description: string)
    requires forall i :: 0 <= i < |keys| ==> QuantityPicker.QuantityKey(keys[i])
    ensures var typed := QuantityPicker.PressQuantity("", keys);
            var r := Submit(Some(item), BalanceDialog(typed, description, None));
            (typed == "" ==> r == Rejected(EnterBalance))
            && (typed != "" ==>
                  AllDigits(typed) && r.Send?
                  && item.currentBalance + r.request.quantityChange == DigitsValue(typed))
  {
    var typed := QuantityPicker.PressQuantity("", keys);
    if typed != "" {
      QuantityPicker.PadQuantityParses(keys);
    } else {
      assert Trim(typed) == "";
    }
  }
}
