/** The edit dialog of the bouquets-in-stock list (`src/components/BouquetsInStock.tsx`):
    copying a bouquet's composition into editable rows, the row updaters,
    the flower count and the status badge. Each handler is a function from
    the screen state to the next state. */
module BouquetsInStock {
  import opened Common

  /** A flower of a bouquet's composition (`FlowerItem`). */
  datatype FlowerItem = FlowerItem(itemName: string, color: string, quantity: int, itemPicture: Option<string>)

  /** A bouquet in stock (`BouquetInStock`, the fields used here). */
  datatype BouquetInStock = BouquetInStock(transactionId: string, description: string, status: string,
                                           composition: seq<FlowerItem>)

  /** An inventory record as this screen reads it. */
  datatype StockItem = StockItem(recordId: string, itemName: string, color: Option<string>,
                                 currentBalance: int, itemPicture: Option<string>, itemCategory: Option<string>)

  /** An editable composition row; both ids are optional in the source. */
  datatype EditableComposition = EditableComposition(
    itemName: string, color: string, quantity: int, itemPicture: Option<string>,
    flowerItemId: Option<string>, compositionId: Option<string>)

  /** An attached file, by name and size. */
  datatype File = File(name: string, size: nat)

  /** The screen state the edit handlers change. */
  datatype Screen = Screen(
    selectedBouquet: Option<BouquetInStock>,
    menuOpen: bool,
    editDescription: string,
    editCompositions: seq<EditableComposition>,
    attachments: seq<File>,
    editDialogOpen: bool,
    newFlower: Option<StockItem>,
    newFlowerQuantity: int)

  /** The row id given to the `index`-th flower when editing starts. */
  function EditId(index: nat): string
  {
    "edit_" + NatToString(index)
  }

  lemma EditIdInjective(i: nat, j: nat)
    requires EditId(i) == EditId(j)
    ensures i == j
  {
    assert NatToString(i) == EditId(i)[5..];
    assert NatToString(j) == EditId(j)[5..];
    NatToStringInjective(i, j);
  }

  function ToEditable(f: FlowerItem, index: nat): EditableComposition
  {
    EditableComposition(f.itemName, f.color, f.quantity, f.itemPicture, Some(f.itemName), Some(EditId(index)))
  }

  /** `handleEditBouquet`: the selected bouquet's flowers in order, the
      i-th with row id `edit_i` and its name standing in for the flower id,
      no attachments; the menu is closed, which also clears the selection. */
  function EditBouquet(s: Screen): (r: Screen)
    ensures s.selectedBouquet.None? ==> r == s
    ensures s.selectedBouquet.Some? ==>
      var b := s.selectedBouquet.value;
      r.editDescription == b.description
      && |r.editCompositions| == |b.composition|
      && (forall i :: 0 <= i < |b.composition| ==>
            var f := b.composition[i];
            r.editCompositions[i] == EditableComposition(f.itemName, f.color, f.quantity, f.itemPicture,
                                                         Some(f.itemName), Some(EditId(i))))
      && r.attachments == [] && r.editDialogOpen
      && r.selectedBouquet.None? && !r.menuOpen
  {
    match s.selectedBouquet
    case None => s
    case Some(b) =>
      s.(editDescription := b.description,
         editCompositions := seq(|b.composition|, i requires 0 <= i < |b.composition| => ToEditable(b.composition[i], i)),
         attachments := [],
         editDialogOpen := true,
         selectedBouquet := None,
         menuOpen := false)
  }

  /** No two rows share a row id. */
  ghost predicate DistinctIds(rows: seq<EditableComposition>)
  {
    forall i, j :: 0 <= i < j < |rows| ==> rows[i].compositionId != rows[j].compositionId
  }

  /** Editing starts with every row under its own id. */
  lemma EditBouquetDistinctIds(s: Screen)
    requires s.selectedBouquet.Some?
    ensures DistinctIds(EditBouquet(s).editCompositions)
  {
    var rows := EditBouquet(s).editCompositions;
    forall i, j | 0 <= i < j < |rows| ensures rows[i].compositionId != rows[j].compositionId {
      if rows[i].compositionId == rows[j].compositionId {
        EditIdInjective(i, j);
      }
    }
  }

  /** `handleCompositionQuantityChange(id, q)`: each row with that id takes
      `max(0, q)`; rows without an id never match. */
  function QuantityChange(s: Screen, compositionId: string, newQuantity: int): (r: Screen)
    ensures r == s.(editCompositions := r.editCompositions)
    ensures |r.editCompositions| == |s.editCompositions|
    ensures forall i :: 0 <= i < |s.editCompositions| ==>
              r.editCompositions[i] == (if s.editCompositions[i].compositionId == Some(compositionId)
                                        then s.editCompositions[i].(quantity := Max(0, newQuantity))
                                        else s.editCompositions[i])
  {
    s.(editCompositions := seq(|s.editCompositions|, i requires 0 <= i < |s.editCompositions| =>
         if s.editCompositions[i].compositionId == Some(compositionId)
         then s.editCompositions[i].(quantity := Max(0, newQuantity))
         else s.editCompositions[i]))
  }

  function IdIsNot(compositionId: string): EditableComposition -> bool
  {
    (c: EditableComposition) => c.compositionId != Some(compositionId)
  }

  /** `handleRemoveComposition(id)`: exactly the rows with that id go. */
  function RemoveComposition(s: Screen, compositionId: string): (r: Screen)
    ensures r == s.(editCompositions := r.editCompositions)
    ensures forall c :: c in r.editCompositions <==> c in s.editCompositions && c.compositionId != Some(compositionId)
    ensures IsSubseq(r.editCompositions, s.editCompositions)
    ensures forall c :: multiset(r.editCompositions)[c] ==
              if c.compositionId != Some(compositionId) then multiset(s.editCompositions)[c] else 0
  {
    FilterMembers(s.editCompositions, IdIsNot(compositionId));
    FilterCounts(s.editCompositions, IdIsNot(compositionId));
    FilterIsSubseq(s.editCompositions, IdIsNot(compositionId));
    s.(editCompositions := Filter(s.editCompositions, IdIsNot(compositionId)))
  }

  /** `handleAddFlower`, with `tempId` the fresh temporary row id: only
      with a flower chosen and a positive quantity is one row appended. */
  function AddFlower(s: Screen, tempId: string): (r: Screen)
    ensures s.newFlower.None? || s.newFlowerQuantity <= 0 ==> r == s
    ensures s.newFlower.Some? && s.newFlowerQuantity > 0 ==>
      var f := s.newFlower.value;
      r == s.(editCompositions := s.editCompositions + [EditableComposition(
                f.itemName, if f.color.Some? then f.color.value else "", s.newFlowerQuantity, f.itemPicture,
                Some(f.recordId), Some(tempId))],
              newFlower := None, newFlowerQuantity := 1)
  {
    match s.newFlower
    case None => s
    case Some(f) =>
      if s.newFlowerQuantity <= 0 then s
      else
        var color := match f.color case None => "" case Some(c) => c;
        s.(editCompositions := s.editCompositions + [EditableComposition(
             f.itemName, color, s.newFlowerQuantity, f.itemPicture, Some(f.recordId), Some(tempId))],
           newFlower := None, newFlowerQuantity := 1)
  }

  /** A temporary id no row has yet keeps the row ids distinct; the other
      handlers never add ids. */
  lemma HandlersKeepDistinctIds(s: Screen, compositionId: string, q: int, tempId: string)
    requires DistinctIds(s.editCompositions)
    requires forall i :: 0 <= i < |s.editCompositions| ==> s.editCompositions[i].compositionId != Some(tempId)
    ensures DistinctIds(QuantityChange(s, compositionId, q).editCompositions)
    ensures DistinctIds(RemoveComposition(s, compositionId).editCompositions)
    ensures DistinctIds(AddFlower(s, tempId).editCompositions)
  {
    QuantityChangeKeepsIds(s, compositionId, q);
    RemoveKeepsDistinctIds(s, compositionId);
    AddFlowerKeepsDistinctIds(s, tempId);
  }

  lemma AddFlowerKeepsDistinctIds(s: Screen, tempId: string)
    requires DistinctIds(s.editCompositions)
    requires forall i :: 0 <= i < |s.editCompositions| ==> s.editCompositions[i].compositionId != Some(tempId)
    ensures DistinctIds(AddFlower(s, tempId).editCompositions)
  {
    var rows := s.editCompositions;
    var added := AddFlower(s, tempId).editCompositions;
    if s.newFlower.Some? && s.newFlowerQuantity > 0 {
      assert added[..|rows|] == rows && added[|rows|].compositionId == Some(tempId);
    }
  }

  lemma QuantityChangeKeepsIds(s: Screen, compositionId: string, q: int)
    requires DistinctIds(s.editCompositions)
    ensures DistinctIds(QuantityChange(s, compositionId, q).editCompositions)
  {
    var rows := s.editCompositions;
    var changed := QuantityChange(s, compositionId, q).editCompositions;
    assert forall i :: 0 <= i < |rows| ==> changed[i].compositionId == rows[i].compositionId;
  }

  lemma RemoveKeepsDistinctIds(s: Screen, compositionId: string)
    requires DistinctIds(s.editCompositions)
    ensures DistinctIds(RemoveComposition(s, compositionId).editCompositions)
  {
    var rows := s.editCompositions;
    var idOf := (c: EditableComposition) => c.compositionId;
    assert KeysUnique(rows, idOf);
    FilterKeysUnique(rows, IdIsNot(compositionId), idOf);
  }

  /** `handleRemoveAttachment(index)`: exactly that file goes. */
  function RemoveAttachment(s: Screen, index: int): (r: Screen)
    ensures r == s.(attachments := r.attachments)
    ensures 0 <= index < |s.attachments| ==>
      |r.attachments| == |s.attachments| - 1
      && (forall i :: 0 <= i < index ==> r.attachments[i] == s.attachments[i])
      && (forall i :: index <= i < |r.attachments| ==> r.attachments[i] == s.attachments[i + 1])
    ensures !(0 <= index < |s.attachments|) ==> r == s
  {
    s.(attachments := RemoveAt(s.attachments, index))
  }

  function QuantityOf(c: EditableComposition): int { c.quantity }

  /** `getTotalFlowerCount`: the sum of the row quantities. */
  function TotalFlowerCount(rows: seq<EditableComposition>): int
  {
    SumInt(rows, QuantityOf)
  }

  /** Editing starts from the bouquet's own flower count. */
  lemma {:induction false} EditBouquetKeepsCount(s: Screen)
    requires s.selectedBouquet.Some?
    ensures TotalFlowerCount(EditBouquet(s).editCompositions)
            == SumInt(s.selectedBouquet.value.composition, (f: FlowerItem) => f.quantity)
  {
    var b := s.selectedBouquet.value;
    SumIntCongruent(EditBouquet(s).editCompositions, QuantityOf, b.composition, (f: FlowerItem) => f.quantity);
  }

  /** Adding a flower grows the count by its quantity; a quantity change on
      a row whose id occurs once moves it by the clamped difference. */
  lemma {:induction false} HandlersMoveCount(s: Screen, tempId: string, compositionId: string, q: int, k: int)
    requires 0 <= k < |s.editCompositions| && s.editCompositions[k].compositionId == Some(compositionId)
    requires forall i :: 0 <= i < |s.editCompositions| && i != k ==> s.editCompositions[i].compositionId != Some(compositionId)
    ensures s.newFlower.Some? && s.newFlowerQuantity > 0 ==>
              TotalFlowerCount(AddFlower(s, tempId).editCompositions) == TotalFlowerCount(s.editCompositions) + s.newFlowerQuantity
    ensures TotalFlowerCount(QuantityChange(s, compositionId, q).editCompositions)
            == TotalFlowerCount(s.editCompositions) - s.editCompositions[k].quantity + Max(0, q)
  {
    var rows := s.editCompositions;
    if s.newFlower.Some? && s.newFlowerQuantity > 0 {
      var added := AddFlower(s, tempId).editCompositions;
      var row := added[|rows|];
      assert added == rows + [row];
      SumIntAppend(rows, [row], QuantityOf);
      assert SumInt([row], QuantityOf) == row.quantity + SumInt([row][1..], QuantityOf);
    }
    assert QuantityChange(s, compositionId, q).editCompositions == rows[k := rows[k].(quantity := Max(0, q))];
    SumIntUpdate(rows, QuantityOf, k, rows[k].(quantity := Max(0, q)));
  }

  datatype StatusColor = Success | Warning | Error | Default

  /** `getStatusColor`. */
  function GetStatusColor(status: string): (r: StatusColor)
    ensures r == Success <==> status == "successful"
    ensures r == Warning <==> status == "pending"
    ensures r == Error <==> status == "failed"
    ensures r == Default <==> status != "successful" && status != "pending" && status != "failed"
  {
    if status == "successful" then Success
    else if status == "pending" then Warning
    else if status == "failed" then Error
    else Default
  }
}
