/** The quantity picker dialog (`src/components/QuantityPickerDialog.tsx`):
    the digit pad's string updaters for the quantity and the price field, the
    guard chain of `handleSubmit`, and the reset when the dialog opens. The
    dialog's own fields live in `QuantityPickerDialog`; the caller's props
    (`item`, `availableQty`, `showPriceInput`, ...) are parameters. */
module QuantityPicker {
  import opened Common
  import Api

  /** A button of the digit pad: 'clear', 'backspace', '.' or a digit. */
  datatype PadKey = Clear | Backspace | Point | Digit(c: char)

  /** The characters a key appends. */
  function KeyText(k: PadKey): string
  {
    match k
    case Clear => "clear"
    case Backspace => "backspace"
    case Point => "."
    case Digit(c) => [c]
  }

  /** A key the pad actually shows: '.' only in price mode. */
  predicate QuantityKey(k: PadKey)
  {
    k.Clear? || k.Backspace? || (k.Digit? && IsDigit(k.c))
  }

  predicate PriceKey(k: PadKey)
  {
    QuantityKey(k) || k.Point?
  }

  /** `prev.slice(0, -1)`. */
  function DropLast(s: string): (r: string)
    ensures s == [] ==> r == []
    ensures s != [] ==> r == s[..|s| - 1]
  {
    if s == [] then [] else s[..|s| - 1]
  }

  /** The quantity pad: 'clear' empties, 'backspace' drops the last
      character, any other key is appended. */
  function QuantityPad(s: string, k: PadKey): (r: string)
    ensures k.Clear? ==> r == ""
    ensures k.Backspace? ==> r == DropLast(s)
    ensures k.Point? ==> r == s + "."
    ensures k.Digit? ==> r == s + [k.c]
  {
    match k
    case Clear => ""
    case Backspace => DropLast(s)
    case _ => s + KeyText(k)
  }

  /** Everything after the first '.', or "" without one. */
  function AfterPoint(s: string): string
  {
    if s == [] then []
    else if s[0] == '.' then s[1..]
    else AfterPoint(s[1..])
  }

  /** Everything before the first '.'. */
  function UpToPoint(s: string): string
  {
    if s == [] then []
    else if s[0] == '.' then []
    else [s[0]] + UpToPoint(s[1..])
  }

  /** `s.split('.')[1]` for a string holding a '.'. */
  function FractionPart(s: string): string
  {
    UpToPoint(AfterPoint(s))
  }

  /** The price pad: '.' only when there is none yet, and a digit only while
      the part after the '.' has fewer than 2 characters. */
  function PricePad(s: string, k: PadKey): (r: string)
    ensures k.Clear? ==> r == ""
    ensures k.Backspace? ==> r == DropLast(s)
    ensures k.Point? ==> r == (if '.' in s then s else s + ".")
    ensures k.Digit? ==> r == (if '.' in s && |FractionPart(s)| >= 2 then s else s + [k.c])
  {
    match k
    case Clear => ""
    case Backspace => DropLast(s)
    case Point => if '.' in s then s else s + "."
    case Digit(c) =>
      if '.' in s && |FractionPart(s)| >= 2 then s else s + [c]
  }

  /** A price text with at most one '.' and at most two characters after it. */
  ghost predicate PriceWellFormed(s: string)
  {
    (forall i, j :: 0 <= i < j < |s| && s[i] == '.' ==> s[j] != '.')
    && (forall i :: 0 <= i < |s| && s[i] == '.' ==> |s| - i - 1 <= 2)
  }

  lemma {:induction false} AfterFirstPoint(s: string, i: int)
    requires 0 <= i < |s| && s[i] == '.'
    requires forall j :: 0 <= j < i ==> s[j] != '.'
    ensures AfterPoint(s) == s[i + 1..]
    decreases i
  {
    if i > 0 {
      AfterFirstPoint(s[1..], i - 1);
      assert s[1..][i..] == s[i + 1..];
    }
  }

  lemma {:induction false} UpToPointNoPoint(t: string)
    requires '.' !in t
    ensures UpToPoint(t) == t
  {
    if t != [] {
      assert '.' !in t[1..] by {
        forall j | 0 <= j < |t[1..]| ensures t[1..][j] != '.' {
          assert t[1..][j] == t[j + 1];
        }
      }
      UpToPointNoPoint(t[1..]);
      assert [t[0]] + t[1..] == t;
    }
  }

  /** For a price with a single '.' at `i`, the fraction part is everything
      after it. */
  lemma FractionOfWellFormed(s: string, i: int)
    requires PriceWellFormed(s) && 0 <= i < |s| && s[i] == '.'
    ensures FractionPart(s) == s[i + 1..]
  {
    assert forall j :: 0 <= j < i ==> s[j] != '.';
    AfterFirstPoint(s, i);
    forall j | i + 1 <= j < |s| ensures s[j] != '.' {
      assert s[i] == '.' ==> s[j] != '.';
    }
    assert '.' !in s[i + 1..];
    UpToPointNoPoint(s[i + 1..]);
  }

  /** Every key of the pad keeps a price text well formed. */
  lemma PricePadKeepsWellFormed(s: string, k: PadKey)
    requires PriceWellFormed(s) && PriceKey(k)
    ensures PriceWellFormed(PricePad(s, k))
  {
    var r := PricePad(s, k);
    match k {
      case Clear =>
      case Backspace =>
        if s != [] {
          assert forall i :: 0 <= i < |r| ==> r[i] == s[i];
        }
      case Point =>
        if '.' !in s {
          assert forall i :: 0 <= i < |s| ==> r[i] == s[i];
        }
      case Digit(c) =>
        if '.' in s && |FractionPart(s)| >= 2 {
        } else {
          assert forall i :: 0 <= i < |s| ==> r[i] == s[i];
          if '.' in s {
            var i :| 0 <= i < |s| && s[i] == '.';
            FractionOfWellFormed(s, i);
          }
        }
    }
  }

  /** Keys pressed on the price pad in order. */
  function PressPrice(s: string, keys: seq<PadKey>): string
    decreases |keys|
  {
    if keys == [] then s else PressPrice(PricePad(s, keys[0]), keys[1..])
  }

  /** Keys pressed on the quantity pad in order. */
  function PressQuantity(s: string, keys: seq<PadKey>): string
    decreases |keys|
  {
    if keys == [] then s else PressQuantity(QuantityPad(s, keys[0]), keys[1..])
  }

  /** A price text typed only on the pad, from a blank or well-formed
      start, has at most one '.' and at most two characters after it. */
  lemma {:induction false} PadPriceWellFormed(s: string, keys: seq<PadKey>)
    requires PriceWellFormed(s)
    requires forall i :: 0 <= i < |keys| ==> PriceKey(keys[i])
    ensures PriceWellFormed(PressPrice(s, keys))
    decreases |keys|
  {
    if keys != [] {
      PricePadKeepsWellFormed(s, keys[0]);
      PadPriceWellFormed(PricePad(s, keys[0]), keys[1..]);
    }
  }

  /** A quantity text typed only on the pad is all digits. */
  lemma {:induction false} PadQuantityDigits(s: string, keys: seq<PadKey>)
    requires AllDigits(s)
    requires forall i :: 0 <= i < |keys| ==> QuantityKey(keys[i])
    ensures AllDigits(PressQuantity(s, keys))
    decreases |keys|
  {
    if keys != [] {
      var t := QuantityPad(s, keys[0]);
      assert AllDigits(t) by {
        match keys[0] {
          case Clear =>
          case Backspace =>
            if s != [] {
              assert forall i :: 0 <= i < |t| ==> t[i] == s[i];
            }
          case Digit(c) =>
            assert forall i :: 0 <= i < |s| ==> t[i] == s[i];
        }
      }
      PadQuantityDigits(t, keys[1..]);
    }
  }

  datatype SubmitOutcome = Ignored | Rejected(error: string) | Confirmed(quantity: int, price: Option<real>)

  const EnterQuantity := "Please enter a quantity"
  const InvalidQuantity := "Please enter a valid quantity (0 or greater)"
  const InvalidPrice := "Please enter a valid price (0 or greater)"

  function ExceedsMessage(q: int, available: int): string
  {
    "Cannot add " + IntToString(q) + " units. Only " + IntToString(available) + " unit(s) available at this location."
  }

  /** The quantity text parses to a number of 0 or more. */
  predicate QuantityValid(quantity: string)
  {
    ParseInt(quantity).Some? && ParseInt(quantity).value >= 0
  }

  /** A price will be read: the field is shown and not blank. */
  predicate PriceGiven(showPriceInput: bool, price: string)
  {
    showPriceInput && Trim(price) != ""
  }

  predicate PriceValid(price: string)
  {
    ParseFloat(price).Some? && ParseFloat(price).value >= 0.0
  }

  /** `handleSubmit`'s guard chain, in order: no item, blank quantity, a
      quantity that is not a number of 0 or more, more than `availableQty`,
      then a given price that is not a number of 0 or more. */
  function Submit(item: Option<Api.InventoryItem>, quantity: string, price: string,
                  availableQty: Option<int>, showPriceInput: bool): SubmitOutcome
  {
    if item.None? then Ignored
    else if Trim(quantity) == "" then Rejected(EnterQuantity)
    else
      var parsed := ParseInt(quantity);
      if parsed.None? || parsed.value < 0 then Rejected(InvalidQuantity)
      else
        var q := parsed.value;
        if availableQty.Some? && q > availableQty.value then Rejected(ExceedsMessage(q, availableQty.value))
        else if showPriceInput && Trim(price) != "" then
          var p := ParseFloat(price);
          if p.None? || p.value < 0.0 then Rejected(InvalidPrice)
          else Confirmed(q, p)
        else Confirmed(q, None)
  }

  /** What each guard of `handleSubmit` decides: the first failing one
      gives its error, and a confirmation carries the parsed quantity and
      the price only when one is shown and filled in. */
  lemma SubmitGuards(item: Option<Api.InventoryItem>, quantity: string, price: string,
                     availableQty: Option<int>, showPriceInput: bool, r: SubmitOutcome)
    requires r == Submit(item, quantity, price, availableQty, showPriceInput)
    ensures item.None? <==> r.Ignored?
    ensures item.Some? && Trim(quantity) == "" ==> r == Rejected(EnterQuantity)
    ensures item.Some? && Trim(quantity) != "" && !QuantityValid(quantity) ==> r == Rejected(InvalidQuantity)
    ensures item.Some? && Trim(quantity) != "" && QuantityValid(quantity)
            && availableQty.Some? && ParseInt(quantity).value > availableQty.value ==>
              r == Rejected(ExceedsMessage(ParseInt(quantity).value, availableQty.value))
    ensures r.Confirmed? <==>
              item.Some? && Trim(quantity) != "" && QuantityValid(quantity)
              && (availableQty.Some? ==> ParseInt(quantity).value <= availableQty.value)
              && (PriceGiven(showPriceInput, price) ==> PriceValid(price))
    ensures r.Confirmed? ==>
              r.quantity == ParseInt(quantity).value && r.quantity >= 0
              && (r.price.Some? <==> PriceGiven(showPriceInput, price))
              && (r.price.Some? ==> r.price == ParseFloat(price) && r.price.value >= 0.0)
    ensures r.Rejected? && PriceGiven(showPriceInput, price) && !PriceValid(price)
            && QuantityValid(quantity) && Trim(quantity) != ""
            && (availableQty.Some? ==> ParseInt(quantity).value <= availableQty.value) ==>
              r.error == InvalidPrice
  {
    if item.Some? && Trim(quantity) != "" && QuantityValid(quantity) {
      assert r == if availableQty.Some? && ParseInt(quantity).value > availableQty.value
                  then Rejected(ExceedsMessage(ParseInt(quantity).value, availableQty.value))
                  else if PriceGiven(showPriceInput, price)
                  then (if PriceValid(price) then Confirmed(ParseInt(quantity).value, ParseFloat(price)) else Rejected(InvalidPrice))
                  else Confirmed(ParseInt(quantity).value, None);
    }
  }

  /** The guards of `handleSubmit`, in order, on the two field texts. */
  method CheckSubmit(item: Option<Api.InventoryItem>, quantity: string, price: string,
                     availableQty: Option<int>, showPriceInput: bool) returns (r: SubmitOutcome)
    ensures r == Submit(item, quantity, price, availableQty, showPriceInput)
  {
    if item.None? {
      return Ignored;
    }
    if Trim(quantity) == "" {
      return Rejected(EnterQuantity);
    }
    var quantityNum := ParseInt(quantity);
    if quantityNum.None? || quantityNum.value < 0 {
      return Rejected(InvalidQuantity);
    }
    if availableQty.Some? && quantityNum.value > availableQty.value {
      return Rejected(ExceedsMessage(quantityNum.value, availableQty.value));
    }
    var priceNum: Option<real> := None;
    if showPriceInput && Trim(price) != "" {
      priceNum := ParseFloat(price);
      if priceNum.None? || priceNum.value < 0.0 {
        return Rejected(InvalidPrice);
      }
    }
    return Confirmed(quantityNum.value, priceNum);
  }

  /** Exactly the available quantity is accepted. */
  lemma AvailableIsAccepted(item: Api.InventoryItem, n: nat, showPriceInput: bool)
    ensures Submit(Some(item), NatToString(n), "", Some(n), showPriceInput) == Confirmed(n, None)
  {
    NonBlankDigits(NatToString(n));
    ParseIntOfNatToString(n);
    assert Trim("") == "";
  }

  /** One more than the available quantity is refused. */
  lemma AboveAvailableIsRefused(item: Api.InventoryItem, n: nat, showPriceInput: bool)
    ensures Submit(Some(item), NatToString(n + 1), "", Some(n), showPriceInput)
            == Rejected(ExceedsMessage(n + 1, n))
  {
    NonBlankDigits(NatToString(n + 1));
    ParseIntOfNatToString(n + 1);
  }

  lemma NonBlankDigits(s: string)
    requires s != [] && AllDigits(s)
    ensures Trim(s) != ""
  {
    TrimEmpty(s);
    assert !IsSpace(s[0]);
  }

  /** A non-empty quantity typed only on the pad never meets the "valid
      quantity" error: it parses to the number its digits spell. */
  lemma PadQuantityParses(keys: seq<PadKey>)
    requires forall i :: 0 <= i < |keys| ==> QuantityKey(keys[i])
    requires PressQuantity("", keys) != ""
    ensures var s := PressQuantity("", keys);
            AllDigits(s) && Trim(s) != "" && QuantityValid(s) && ParseInt(s) == Some(DigitsValue(s) as int)
  {
    var s := PressQuantity("", keys);
    PadQuantityDigits("", keys);
    NonBlankDigits(s);
    DigitsParse(s);
  }

  lemma DigitsParse(s: string)
    requires s != [] && AllDigits(s)
    ensures ParseInt(s) == Some(DigitsValue(s) as int)
  {
    assert !IsSpace(s[0]);
    assert TrimStart(s) == s;
    assert SplitSign(s) == (false, s);
    DigitPrefixOfDigits(s);
  }

  /** The quantity text the dialog opens with. */
  function OpeningQuantity(currentQuantity: int): (r: string)
    ensures currentQuantity > 0 ==> ParseInt(r) == Some(currentQuantity)
    ensures currentQuantity <= 0 <==> r == ""
  {
    if currentQuantity > 0 then
      ParseIntOfNatToString(currentQuantity);
      NatToString(currentQuantity)
    else ""
  }

  /** Opening on a positive quantity within stock and submitting at once
      confirms that same quantity. */
  lemma {:induction false} ReopenConfirmsCurrent(item: Api.InventoryItem, currentQuantity: int,
                                                 availableQty: Option<int>)
    requires currentQuantity > 0
    requires availableQty.Some? ==> currentQuantity <= availableQty.value
    ensures Submit(Some(item), OpeningQuantity(currentQuantity), "", availableQty, true)
            == Confirmed(currentQuantity, None)
  {
    NonBlankDigits(NatToString(currentQuantity));
    assert Trim("") == "";
  }

  datatype FocusedField = QuantityField | PriceField

  /** The dialog's own state. */
  class QuantityPickerDialog {
    var quantity: string
    var price: string
    var error: Option<string>
    var focusedField: FocusedField

    constructor ()
      ensures quantity == "" && price == "" && error.None? && focusedField == QuantityField
    {
      quantity := "";
      price := "";
      error := None;
      focusedField := QuantityField;
    }

    /** The reset when the dialog opens on an item. Printing the current
        price is left to the caller (`currentPriceText`). */
    method Open(currentQuantity: int, currentPrice: real, currentPriceText: string,
                validationError: Option<string>)
      modifies this
      ensures quantity == OpeningQuantity(currentQuantity)
      ensures price == (if currentPrice > 0.0 then currentPriceText else "")
      ensures error == (if validationError == Some("") then None else validationError)
      ensures focusedField == old(focusedField)
    {
      quantity := if currentQuantity > 0 then NatToString(currentQuantity) else "";
      price := if currentPrice > 0.0 then currentPriceText else "";
      error := if validationError.None? || validationError == Some("") then None else validationError;
    }

    /** `handleClose`: all fields blank again. */
    method Close()
      modifies this
      ensures quantity == "" && price == "" && error.None? && focusedField == old(focusedField)
    {
      quantity := "";
      price := "";
      error := None;
    }

    method Focus(field: FocusedField)
      modifies this
      ensures focusedField == field && quantity == old(quantity) && price == old(price) && error == old(error)
    {
      focusedField := field;
    }

    /** Typing straight into the quantity or price field. */
    method Type(text: string)
      modifies this
      ensures focusedField == QuantityField ==> quantity == text && price == old(price)
      ensures focusedField == PriceField ==> price == text && quantity == old(quantity)
      ensures focusedField == old(focusedField) && error == old(error)
    {
      if focusedField == QuantityField {
        quantity := text;
      } else {
        price := text;
      }
    }

    /** `handleDigitClick(key)` on the focused field. */
    method DigitClick(k: PadKey)
      modifies this
      ensures focusedField == QuantityField ==> quantity == QuantityPad(old(quantity), k) && price == old(price)
      ensures focusedField == PriceField ==> price == PricePad(old(price), k) && quantity == old(quantity)
      ensures focusedField == old(focusedField) && error == old(error)
      ensures PriceKey(k) && PriceWellFormed(old(price)) ==> PriceWellFormed(price)
    {
      if focusedField == QuantityField {
        match k {
          case Clear => quantity := "";
          case Backspace => quantity := DropLast(quantity);
          case _ => quantity := quantity + KeyText(k);
        }
      } else {
        if PriceKey(k) && PriceWellFormed(price) {
          PricePadKeepsWellFormed(price, k);
        }
        match k {
          case Clear => price := "";
          case Backspace => price := DropLast(price);
          case Point =>
            if '.' !in price {
              price := price + ".";
            }
          case Digit(c) =>
            if !('.' in price && |FractionPart(price)| >= 2) {
              price := price + [c];
            }
        }
      }
    }

    /** `handleSubmit`: an error stops at the first failing guard; a
        confirmation hands back the quantity and price once and closes. */
    method HandleSubmit(item: Option<Api.InventoryItem>, availableQty: Option<int>, showPriceInput: bool)
      returns (confirmed: Option<(int, Option<real>)>)
      modifies this
      ensures var s := Submit(item, old(quantity), old(price), availableQty, showPriceInput);
              (s.Ignored? ==> confirmed.None? && quantity == old(quantity) && price == old(price) && error == old(error))
              && (s.Rejected? ==> confirmed.None? && error == Some(s.error)
                                  && quantity == old(quantity) && price == old(price))
              && (s.Confirmed? ==> confirmed == Some((s.quantity, s.price))
                                   && quantity == "" && price == "" && error.None?)
      ensures focusedField == old(focusedField)
    {
      ghost var s := Submit(item, quantity, price, availableQty, showPriceInput);
      confirmed := None;
      var outcome := CheckSubmit(item, quantity, price, availableQty, showPriceInput);
      assert outcome == s;
      match outcome
      case Ignored =>
      case Rejected(e) =>
        error := Some(e);
      case Confirmed(q, p) =>
        confirmed := Some((q, p));
        Close();
    }
  }
}
