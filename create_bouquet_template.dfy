/** The bouquet-from-template editor (`src/components/bouquets/CreateBouquetTemplate.tsx`):
    choosing a template, editing its composition rows, the flower count and
    the composition sent to create the bouquet. Each handler is a function
    from the editor's state to the next. */
module CreateBouquetTemplate {
  import opened Common
  import Api

  /** A row of a template's recipe (`BouquetComposition`). */
  datatype BouquetComposition = BouquetComposition(compositionId: string, flowerItemId: string, flowerName: string,
                                                   flowerColor: string, quantity: int)

  /** A composition row in the editor (`EditableComposition`). */
  datatype Composition = Composition(compositionId: string, flowerItemId: string, flowerName: string,
                                     flowerColor: string, quantity: int, isEditing: bool)

  /** A bouquet template (`BouquetTemplate`, the fields used here). */
  datatype Template = Template(id: string, name: string, compositions: seq<BouquetComposition>)

  /** An attached file, by name and size. */
  datatype File = File(name: string, size: nat)

  /** The editor's state. */
  datatype Editor = Editor(
    selectedTemplate: Option<Template>,
    compositions: seq<Composition>,
    description: string,
    attachments: seq<File>,
    dialogOpen: bool,
    newFlower: Option<Api.InventoryItem>,
    newFlowerQuantity: int)

  function ToEditable(c: BouquetComposition): Composition
  {
    Composition(c.compositionId, c.flowerItemId, c.flowerName, c.flowerColor, c.quantity, false)
  }

  /** The flowers offered for adding: items with a category other than
      'bouquet'. */
  function AvailableFlowers(inventory: seq<Api.InventoryItem>): (r: seq<Api.InventoryItem>)
    ensures IsSubseq(r, inventory)
    ensures forall x :: x in r <==> x in inventory && x.itemCategory != "" && x.itemCategory != "bouquet"
  {
    var keep := (x: Api.InventoryItem) => x.itemCategory != "" && x.itemCategory != "bouquet";
    FilterMembers(inventory, keep);
    FilterIsSubseq(inventory, keep);
    Filter(inventory, keep)
  }

  /** `handleTemplateSelect(template)`: the template's rows, none being
      edited, with a blank description and no attachments. */
  function TemplateSelect(e: Editor, t: Template): (r: Editor)
    ensures r.selectedTemplate == Some(t) && r.dialogOpen
    ensures |r.compositions| == |t.compositions|
    ensures forall i :: 0 <= i < |t.compositions| ==>
              var c := t.compositions[i];
              r.compositions[i] == Composition(c.compositionId, c.flowerItemId, c.flowerName, c.flowerColor, c.quantity, false)
    ensures r.description == "" && r.attachments == []
    ensures r.newFlower == e.newFlower && r.newFlowerQuantity == e.newFlowerQuantity
  {
    e.(selectedTemplate := Some(t),
       compositions := seq(|t.compositions|, i requires 0 <= i < |t.compositions| => ToEditable(t.compositions[i])),
       description := "",
       attachments := [],
       dialogOpen := true)
  }

  /** `handleCompositionQuantityChange(id, q)`: every row with that id takes
      `max(0, q)`; the others and the length stay. */
  function QuantityChange(e: Editor, compositionId: string, newQuantity: int): (r: Editor)
    ensures r == e.(compositions := r.compositions)
    ensures |r.compositions| == |e.compositions|
    ensures forall i :: 0 <= i < |e.compositions| ==>
              r.compositions[i] == (if e.compositions[i].compositionId == compositionId
                                    then e.compositions[i].(quantity := Max(0, newQuantity))
                                    else e.compositions[i])
    ensures forall i :: 0 <= i < |e.compositions| && e.compositions[i].compositionId == compositionId ==>
              r.compositions[i].quantity >= 0
  {
    e.(compositions := seq(|e.compositions|, i requires 0 <= i < |e.compositions| =>
         if e.compositions[i].compositionId == compositionId
         then e.compositions[i].(quantity := Max(0, newQuantity))
         else e.compositions[i]))
  }

  /** A row's quantity field: `parseInt(text) || 0`. */
  function RowQuantityInput(text: string): (q: int)
    ensures ParseInt(text).None? ==> q == 0
    ensures ParseInt(text).Some? ==> q == ParseInt(text).value
  {
    match ParseInt(text)
    case None => 0
    case Some(v) => v
  }

  function IdIsNot(compositionId: string): Composition -> bool
  {
    (c: Composition) => c.compositionId != compositionId
  }

  /** `handleRemoveComposition(id)`: exactly the rows with that id go. */
  function RemoveComposition(e: Editor, compositionId: string): (r: Editor)
    ensures r == e.(compositions := r.compositions)
    ensures forall c :: c in r.compositions <==> c in e.compositions && c.compositionId != compositionId
    ensures IsSubseq(r.compositions, e.compositions)
    ensures forall c :: multiset(r.compositions)[c] ==
              if c.compositionId != compositionId then multiset(e.compositions)[c] else 0
  {
    FilterMembers(e.compositions, IdIsNot(compositionId));
    FilterCounts(e.compositions, IdIsNot(compositionId));
    FilterIsSubseq(e.compositions, IdIsNot(compositionId));
    e.(compositions := Filter(e.compositions, IdIsNot(compositionId)))
  }

  /** `handleAddFlower`, with `tempId` the fresh temporary row id: with a
      flower chosen and a positive quantity one row is appended and the
      picker is reset; otherwise nothing changes. */
  function AddFlower(e: Editor, tempId: string): (r: Editor)
    ensures e.newFlower.None? || e.newFlowerQuantity <= 0 ==> r == e
    ensures e.newFlower.Some? && e.newFlowerQuantity > 0 ==>
      var f := e.newFlower.value;
      r == e.(compositions := e.compositions + [Composition(tempId, f.recordId, f.itemName, f.color, e.newFlowerQuantity, false)],
              newFlower := None, newFlowerQuantity := 1)
  {
    if e.newFlower.Some? && e.newFlowerQuantity > 0 then
      var f := e.newFlower.value;
      e.(compositions := e.compositions + [Composition(tempId, f.recordId, f.itemName, f.color, e.newFlowerQuantity, false)],
         newFlower := None, newFlowerQuantity := 1)
    else e
  }

  /** The add-quantity field: `max(1, parseInt(text) || 1)`. */
  function AddQuantityInput(text: string): (q: int)
    ensures q >= 1
    ensures ParseInt(text).Some? && ParseInt(text).value >= 1 ==> q == ParseInt(text).value
    ensures ParseInt(text).None? || ParseInt(text).value < 1 ==> q == 1
  {
    var n := match ParseInt(text) case None => 1 case Some(v) => if v == 0 then 1 else v;
    Max(1, n)
  }

  /** `handleRemoveAttachment(index)`: exactly that file goes. */
  function RemoveAttachment(e: Editor, index: int): (r: Editor)
    ensures r == e.(attachments := r.attachments)
    ensures 0 <= index < |e.attachments| ==>
      |r.attachments| == |e.attachments| - 1
      && (forall i :: 0 <= i < index ==> r.attachments[i] == e.attachments[i])
      && (forall i :: index <= i < |r.attachments| ==> r.attachments[i] == e.attachments[i + 1])
    ensures !(0 <= index < |e.attachments|) ==> r == e
  {
    e.(attachments := RemoveAt(e.attachments, index))
  }

  function QuantityOf(c: Composition): int { c.quantity }

  /** `getTotalFlowerCount`: the sum of the row quantities. */
  function TotalFlowerCount(compositions: seq<Composition>): int
  {
    SumInt(compositions, QuantityOf)
  }

  /** Every row quantity is 0 or more. */
  ghost predicate NonNegative(compositions: seq<Composition>)
  {
    forall i :: 0 <= i < |compositions| ==> compositions[i].quantity >= 0
  }

  /** Adding a flower grows the total count by exactly its quantity. */
  lemma {:induction false} AddFlowerGrowsTotal(e: Editor, tempId: string)
    requires e.newFlower.Some? && e.newFlowerQuantity > 0
    ensures TotalFlowerCount(AddFlower(e, tempId).compositions) == TotalFlowerCount(e.compositions) + e.newFlowerQuantity
  {
    var f := e.newFlower.value;
    var row := Composition(tempId, f.recordId, f.itemName, f.color, e.newFlowerQuantity, false);
    SumIntAppend(e.compositions, [row], QuantityOf);
    assert SumInt([row], QuantityOf) == row.quantity + SumInt([row][1..], QuantityOf);
  }

  /** A quantity change on a row id that occurs once moves the total by the
      difference between the clamped new quantity and the old one. */
  lemma {:induction false} QuantityChangeMovesTotal(e: Editor, compositionId: string, newQuantity: int, k: int)
    requires 0 <= k < |e.compositions| && e.compositions[k].compositionId == compositionId
    requires forall i :: 0 <= i < |e.compositions| && i != k ==> e.compositions[i].compositionId != compositionId
    ensures TotalFlowerCount(QuantityChange(e, compositionId, newQuantity).compositions)
            == TotalFlowerCount(e.compositions) - e.compositions[k].quantity + Max(0, newQuantity)
  {
    var s := e.compositions;
    var t := QuantityChange(e, compositionId, newQuantity).compositions;
    assert t == s[k := s[k].(quantity := Max(0, newQuantity))];
    SumIntUpdate(s, QuantityOf, k, s[k].(quantity := Max(0, newQuantity)));
  }

  /** Starting from a template with no negative quantity, every handler
      keeps the quantities 0 or more, so the total is never negative. */
  lemma {:induction false} HandlersKeepNonNegative(e: Editor, t: Template, compositionId: string, q: int, tempId: string, index: int)
    requires forall i :: 0 <= i < |t.compositions| ==> t.compositions[i].quantity >= 0
    requires NonNegative(e.compositions)
    ensures NonNegative(TemplateSelect(e, t).compositions)
    ensures NonNegative(QuantityChange(e, compositionId, q).compositions)
    ensures NonNegative(RemoveComposition(e, compositionId).compositions)
    ensures NonNegative(AddFlower(e, tempId).compositions)
    ensures NonNegative(RemoveAttachment(e, index).compositions)
    ensures TotalFlowerCount(e.compositions) >= 0
  {
    RemoveKeepsNonNegative(e, compositionId);
    TotalNonNegative(e.compositions);
  }

  lemma TotalNonNegative(compositions: seq<Composition>)
    requires NonNegative(compositions)
    ensures TotalFlowerCount(compositions) >= 0
  {
    forall x | x in compositions ensures QuantityOf(x) >= 0 {
      var j :| 0 <= j < |compositions| && compositions[j] == x;
    }
    SumIntNonNeg(compositions, QuantityOf);
  }

  lemma RemoveKeepsNonNegative(e: Editor, compositionId: string)
    requires NonNegative(e.compositions)
    ensures NonNegative(RemoveComposition(e, compositionId).compositions)
  {
    var removed := RemoveComposition(e, compositionId).compositions;
    forall i | 0 <= i < |removed| ensures removed[i].quantity >= 0 {
      assert removed[i] in removed;
      var j :| 0 <= j < |e.compositions| && e.compositions[j] == removed[i];
    }
  }

  /** A row of the composition sent to the server. */
  datatype CompositionData = CompositionData(flowerItemId: string, quantity: int)

  /** The create request: template id, description, composition rows, files. */
  datatype CreateRequest = CreateRequest(templateId: string, description: string,
                                         compositions: seq<CompositionData>, files: seq<File>)

  /** `handleCreateBouquet` up to the request: nothing without a selected
      template; otherwise the rows map one to one, in order, onto
      `{flower_item_id, quantity}`. */
  function CreateBouquet(e: Editor): (r: Option<CreateRequest>)
    ensures r.None? <==> e.selectedTemplate.None?
    ensures r.Some? ==>
      r.value.templateId == e.selectedTemplate.value.id
      && r.value.description == e.description
      && r.value.files == e.attachments
      && |r.value.compositions| == |e.compositions|
      && forall i :: 0 <= i < |e.compositions| ==>
           r.value.compositions[i] == CompositionData(e.compositions[i].flowerItemId, e.compositions[i].quantity)
  {
    if e.selectedTemplate.None? then None
    else
      Some(CreateRequest(
        e.selectedTemplate.value.id,
        e.description,
        seq(|e.compositions|, i requires 0 <= i < |e.compositions| =>
          CompositionData(e.compositions[i].flowerItemId, e.compositions[i].quantity)),
        e.attachments))
  }

  /** The flowers sent add up to the count shown. */
  lemma {:induction false} CreateBouquetKeepsCount(e: Editor)
    requires e.selectedTemplate.Some?
    ensures var sent := CreateBouquet(e).value.compositions;
            SumInt(sent, (d: CompositionData) => d.quantity) == TotalFlowerCount(e.compositions)
  {
    var sent := CreateBouquet(e).value.compositions;
    SumIntCongruent(e.compositions, QuantityOf, sent, (d: CompositionData) => d.quantity);
  }
}
