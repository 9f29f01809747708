/** The filter pipeline of the inventory table (`src/components/InventoryTable.tsx`):
    the color and category choices offered, the filtered rows, the color
    toggle, clearing the filters and the balance badge. */
module InventoryTable {
  import opened Common
  import Api

  /** The filter state of the table. */
  datatype Filters = Filters(selectedColors: seq<string>, hideZeroItems: bool, selectedCategory: string)

  /** The state the table starts in: flowers only, nothing else filtered. */
  function InitialFilters(): (f: Filters)
    ensures f.selectedColors == [] && !f.hideZeroItems && f.selectedCategory == "flower"
  {
    Filters([], false, "flower")
  }

  function Colors(items: seq<Api.InventoryItem>): (r: seq<string>)
    ensures |r| == |items| && forall i :: 0 <= i < |items| ==> r[i] == items[i].color
  {
    seq(|items|, i requires 0 <= i < |items| => items[i].color)
  }

  function Categories(items: seq<Api.InventoryItem>): (r: seq<string>)
    ensures |r| == |items| && forall i :: 0 <= i < |items| ==> r[i] == items[i].itemCategory
  {
    seq(|items|, i requires 0 <= i < |items| => items[i].itemCategory)
  }

  function NonEmptyString(s: string): bool { s != "" }

  /** `availableColors`: the distinct non-empty colors, sorted. */
  function AvailableColors(items: seq<Api.InventoryItem>): (r: seq<string>)
    ensures StrictlySorted(r)
    ensures forall c :: c in r <==> c != "" && exists i :: 0 <= i < |items| && items[i].color == c
  {
    var cs := Colors(items);
    FilterMembers(cs, NonEmptyString);
    var r := SortDistinct(Filter(cs, NonEmptyString));
    assert forall c :: c in cs <==> exists i :: 0 <= i < |items| && items[i].color == c by {
      forall c | c in cs ensures exists i :: 0 <= i < |items| && items[i].color == c {
        var i :| 0 <= i < |cs| && cs[i] == c;
      }
      forall c | exists i :: 0 <= i < |items| && items[i].color == c ensures c in cs {
        var i :| 0 <= i < |items| && items[i].color == c;
        assert cs[i] == c;
      }
    }
    r
  }

  /** Any other strictly ascending list of exactly those colors is the same
      list: the color chips are determined by the items alone. */
  lemma AvailableColorsUnique(items: seq<Api.InventoryItem>, other: seq<string>)
    requires StrictlySorted(other)
    requires forall c :: c in other <==> c != "" && exists i :: 0 <= i < |items| && items[i].color == c
    ensures other == AvailableColors(items)
  {
    SortedUnique(other, AvailableColors(items));
  }

  /** The category name matches 'flower' in any case. */
  predicate IsFlowerCategory(c: string)
  {
    Lower(c) == "flower"
  }

  function FlowerNamed(c: string): bool { c != "" && IsFlowerCategory(c) }
  function OtherNamed(c: string): bool { c != "" && !IsFlowerCategory(c) }

  /** `availableCategories`: the distinct non-empty categories, every
      spelling of 'flower' first, the rest in ascending order. */
  function AvailableCategories(items: seq<Api.InventoryItem>): (r: seq<string>)
    ensures forall c :: c in r <==> c != "" && c in Categories(items)
    ensures forall i, j :: 0 <= i < j < |r| ==> r[i] != r[j]
    ensures forall i, j :: 0 <= i < |r| && 0 <= j < |r| && IsFlowerCategory(r[i]) && !IsFlowerCategory(r[j]) ==> i < j
  {
    var cs := Categories(items);
    FilterMembers(cs, FlowerNamed);
    FilterMembers(cs, OtherNamed);
    var flowers := Distinct(Filter(cs, FlowerNamed));
    var others := SortDistinct(Filter(cs, OtherNamed));
    FlowersThenOthers(flowers, others);
    flowers + others
  }

  /** Distinct flower spellings followed by ascending other categories form
      a list without repeats, flowers first. */
  lemma FlowersThenOthers(flowers: seq<string>, others: seq<string>)
    requires forall i, j :: 0 <= i < j < |flowers| ==> flowers[i] != flowers[j]
    requires forall c :: c in flowers ==> IsFlowerCategory(c)
    requires StrictlySorted(others)
    requires forall c :: c in others ==> !IsFlowerCategory(c)
    ensures var r := flowers + others;
            (forall i, j :: 0 <= i < j < |r| ==> r[i] != r[j])
            && forall i, j :: 0 <= i < |r| && 0 <= j < |r| && IsFlowerCategory(r[i]) && !IsFlowerCategory(r[j]) ==> i < j
  {
    var r := flowers + others;
    assert forall k :: 0 <= k < |flowers| ==> r[k] == flowers[k] && IsFlowerCategory(r[k]);
    assert forall k :: |flowers| <= k < |r| ==> r[k] == others[k - |flowers|] && !IsFlowerCategory(r[k]);
    forall i, j | |flowers| <= i < j < |r| ensures r[i] != r[j] {
      StrLessIrreflexive(r[i]);
    }
  }

  /** The categories other than 'flower' come out in ascending order. */
  lemma {:induction false} AvailableCategoriesOthersSorted(items: seq<Api.InventoryItem>)
    ensures var r := AvailableCategories(items);
            forall i, j :: 0 <= i < j < |r| && !IsFlowerCategory(r[i]) ==> StrLess(r[i], r[j])
  {
    var cs := Categories(items);
    var flowers := Distinct(Filter(cs, FlowerNamed));
    var others := SortDistinct(Filter(cs, OtherNamed));
    assert AvailableCategories(items) == flowers + others;
    FilterMembers(cs, FlowerNamed);
    OthersSortedAfterFlowers(flowers, others);
  }

  lemma OthersSortedAfterFlowers(flowers: seq<string>, others: seq<string>)
    requires forall c :: c in flowers ==> IsFlowerCategory(c)
    requires StrictlySorted(others)
    ensures var r := flowers + others;
            forall i, j :: 0 <= i < j < |r| && !IsFlowerCategory(r[i]) ==> StrLess(r[i], r[j])
  {
    var r := flowers + others;
    assert forall k :: 0 <= k < |flowers| ==> r[k] == flowers[k] && flowers[k] in flowers;
    assert forall k :: |flowers| <= k < |r| ==> r[k] == others[k - |flowers|];
  }

  function InCategory(category: string): Api.InventoryItem -> bool
  {
    (x: Api.InventoryItem) => Lower(x.itemCategory) == Lower(category)
  }

  function HasColor(colors: seq<string>): Api.InventoryItem -> bool
  {
    (x: Api.InventoryItem) => x.color in colors
  }

  function InStock(x: Api.InventoryItem): bool { x.currentBalance > 0 }

  /** Whether one row passes all active filters. */
  predicate Passes(f: Filters, x: Api.InventoryItem)
  {
    (f.selectedCategory != "" ==> Lower(x.itemCategory) == Lower(f.selectedCategory))
    && (|f.selectedColors| > 0 ==> x.color in f.selectedColors)
    && (f.hideZeroItems ==> x.currentBalance > 0)
  }

  /** `filteredItems`: the category filter when one is chosen, then the
      color filter when colors are chosen, then hiding empty stock. */
  function FilteredItems(items: seq<Api.InventoryItem>, f: Filters): (r: seq<Api.InventoryItem>)
  {
    var byCategory := if f.selectedCategory != "" then Filter(items, InCategory(f.selectedCategory)) else items;
    var byColor := if |f.selectedColors| > 0 then Filter(byCategory, HasColor(f.selectedColors)) else byCategory;
    if f.hideZeroItems then Filter(byColor, InStock) else byColor
  }

  /** The filtered rows keep the table's order, and a row is shown exactly
      when it passes every active filter. */
  lemma {:induction false} FilteredItemsSpec(items: seq<Api.InventoryItem>, f: Filters)
    ensures IsSubseq(FilteredItems(items, f), items)
    ensures forall x :: x in FilteredItems(items, f) <==> x in items && Passes(f, x)
  {
    var byCategory := if f.selectedCategory != "" then Filter(items, InCategory(f.selectedCategory)) else items;
    var byColor := if |f.selectedColors| > 0 then Filter(byCategory, HasColor(f.selectedColors)) else byCategory;
    var r := FilteredItems(items, f);
    if f.selectedCategory != "" {
      FilterIsSubseq(items, InCategory(f.selectedCategory));
      FilterMembers(items, InCategory(f.selectedCategory));
    } else {
      IsSubseqRefl(items);
    }
    if |f.selectedColors| > 0 {
      FilterIsSubseq(byCategory, HasColor(f.selectedColors));
      FilterMembers(byCategory, HasColor(f.selectedColors));
      SubseqTrans(byColor, byCategory, items);
    }
    if f.hideZeroItems {
      FilterIsSubseq(byColor, InStock);
      FilterMembers(byColor, InStock);
      SubseqTrans(r, byColor, items);
    }
  }

  /** With no category, no colors and empty stock shown, every row is shown. */
  lemma NoFiltersIsIdentity(items: seq<Api.InventoryItem>)
    ensures FilteredItems(items, Filters([], false, "")) == items
  {
  }

  /** The three filters can equally be one filter on `Passes`. */
  lemma {:induction false} FilteredItemsIsOneFilter(items: seq<Api.InventoryItem>, f: Filters)
    ensures FilteredItems(items, f) == Filter(items, (x: Api.InventoryItem) => Passes(f, x))
  {
    var all := (x: Api.InventoryItem) => Passes(f, x);
    var byColor := if |f.selectedColors| > 0 then Filter(ByCategory(items, f), HasColor(f.selectedColors))
                   else ByCategory(items, f);
    ColorStep(items, f);
    assert byColor == Filter(items, UpToColor(f));
    assert forall x :: UpToColor(f)(x) == (UpToCategory(f)(x) && (|f.selectedColors| > 0 ==> x.color in f.selectedColors));
    if f.hideZeroItems {
      FilterFilter(items, UpToColor(f), InStock, all);
    } else {
      FilterCongruent(items, UpToColor(f), all);
    }
  }

  function ByCategory(items: seq<Api.InventoryItem>, f: Filters): seq<Api.InventoryItem>
  {
    if f.selectedCategory != "" then Filter(items, InCategory(f.selectedCategory)) else items
  }

  /** Passing the category filter, when there is one. */
  function UpToCategory(f: Filters): Api.InventoryItem -> bool
  {
    (x: Api.InventoryItem) => f.selectedCategory != "" ==> InCategory(f.selectedCategory)(x)
  }

  /** Passing the category and the color filters, when there are any. */
  function UpToColor(f: Filters): Api.InventoryItem -> bool
  {
    (x: Api.InventoryItem) => UpToCategory(f)(x) && (|f.selectedColors| > 0 ==> HasColor(f.selectedColors)(x))
  }

  lemma CategoryStep(items: seq<Api.InventoryItem>, f: Filters)
    ensures ByCategory(items, f) == Filter(items, UpToCategory(f))
  {
    if f.selectedCategory != "" {
      FilterCongruent(items, InCategory(f.selectedCategory), UpToCategory(f));
    } else {
      FilterAll(items, UpToCategory(f));
    }
  }

  lemma ColorStep(items: seq<Api.InventoryItem>, f: Filters)
    ensures (if |f.selectedColors| > 0 then Filter(ByCategory(items, f), HasColor(f.selectedColors))
             else ByCategory(items, f)) == Filter(items, UpToColor(f))
  {
    CategoryStep(items, f);
    if |f.selectedColors| > 0 {
      FilterFilter(items, UpToCategory(f), HasColor(f.selectedColors), UpToColor(f));
    } else {
      FilterCongruent(items, UpToCategory(f), UpToColor(f));
    }
  }

  /** Filtering by two predicates that agree everywhere gives the same rows. */
  lemma {:induction false} FilterCongruent(s: seq<Api.InventoryItem>, p: Api.InventoryItem -> bool, q: Api.InventoryItem -> bool)
    requires forall x :: p(x) == q(x)
    ensures Filter(s, p) == Filter(s, q)
    decreases |s|
  {
    if s != [] {
      FilterCongruent(s[1..], p, q);
    }
  }

  function ColorIsNot(color: string): string -> bool
  {
    (c: string) => c != color
  }

  /** `handleColorToggle(color)`: a selected color is dropped, any other
      color is appended. */
  function ColorToggle(selected: seq<string>, color: string): (r: seq<string>)
    ensures color in selected ==> color !in r && forall c :: c in r <==> c in selected && c != color
    ensures color !in selected ==> r == selected + [color]
  {
    if color in selected then
      FilterMembers(selected, ColorIsNot(color));
      Filter(selected, ColorIsNot(color))
    else selected + [color]
  }

  /** Toggling a color twice gives back the same selected set, and the same
      list when the color was not selected before. */
  lemma {:induction false} ColorToggleTwice(selected: seq<string>, color: string)
    ensures forall c :: c in ColorToggle(ColorToggle(selected, color), color) <==> c in selected
    ensures color !in selected ==> ColorToggle(ColorToggle(selected, color), color) == selected
  {
    var once := ColorToggle(selected, color);
    if color !in selected {
      assert color in once;
      FilterAll(selected, ColorIsNot(color));
      FilterAppend(selected, [color], ColorIsNot(color));
      assert Filter([color], ColorIsNot(color)) == [];
    }
  }

  /** `handleClearFilters`. */
  function ClearFilters(f: Filters): (r: Filters)
    ensures r.selectedColors == [] && !r.hideZeroItems && r.selectedCategory == "Flower"
  {
    Filters([], false, "Flower")
  }

  /** Clearing the filters shows the same rows as the table's starting
      state, because categories are compared without case. */
  lemma ClearFiltersShowsFlowers(items: seq<Api.InventoryItem>, f: Filters)
    ensures FilteredItems(items, ClearFilters(f)) == FilteredItems(items, InitialFilters())
  {
    assert Lower("Flower") == Lower("flower");
    FilterCongruent(items, InCategory("Flower"), InCategory("flower"));
  }

  datatype BadgeColor = Error | Warning | Success

  /** `getBalanceColor`: none left, a few (1 to 5), plenty. */
  function BalanceColor(balance: int): (r: BadgeColor)
    ensures r == Error <==> balance <= 0
    ensures r == Warning <==> 1 <= balance <= 5
    ensures r == Success <==> balance > 5
  {
    if balance <= 0 then Error
    else if balance <= 5 then Warning
    else Success
  }
}
