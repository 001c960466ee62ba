/** The part of Qt's QComboBox the screens depend on, as a value: its entries, the current
    index (-1 when nothing is current) and whether placeholder text was set. Qt 6 makes the
    first row current when rows are inserted into an empty combo box with no current row, unless
    placeholder text is set; setting an index outside the entries leaves no current row. */
module QtCombo {

  datatype Combo = Combo(items: seq<string>, index: int, placeholderText: bool)

  predicate Valid(c: Combo) {
    -1 <= c.index < |c.items|
  }

  /** A freshly constructed combo box. */
  function Empty(placeholderText: bool): (c: Combo)
    ensures Valid(c) && c.items == []
  {
    Combo([], -1, placeholderText)
  }

  /** `currentText()`: the current entry, or "" when there is none. */
  function CurrentText(c: Combo): string {
    if 0 <= c.index < |c.items| then c.items[c.index] else ""
  }

  /** `addItems(xs)`; `addItem(x)` is `AddItems(c, [x])`. */
  function AddItems(c: Combo, xs: seq<string>): (r: Combo)
    ensures r.items == c.items + xs && r.placeholderText == c.placeholderText
    ensures Valid(c) ==> Valid(r)
    ensures 0 <= c.index ==> r.index == c.index
  {
    var selectFirst := c.items == [] && xs != [] && c.index < 0 && !c.placeholderText;
    Combo(c.items + xs, if selectFirst then 0 else c.index, c.placeholderText)
  }

  function AddItem(c: Combo, x: string): Combo {
    AddItems(c, [x])
  }

  /** `clear()`: no entries and no current row. */
  function Clear(c: Combo): (r: Combo)
    ensures Valid(r) && r.items == [] && CurrentText(r) == ""
  {
    Combo([], -1, c.placeholderText)
  }

  /** `setCurrentIndex(i)`, also what a user's pick amounts to. */
  function SetCurrentIndex(c: Combo, i: int): (r: Combo)
    ensures r.items == c.items && Valid(r)
    ensures 0 <= i < |c.items| ==> CurrentText(r) == c.items[i]
    ensures !(0 <= i < |c.items|) ==> CurrentText(r) == ""
  {
    Combo(c.items, if 0 <= i < |c.items| then i else -1, c.placeholderText)
  }

  /** Adding entries one call at a time leaves the same combo box as adding them all at once. */
  lemma AddItemsTwice(c: Combo, xs: seq<string>, ys: seq<string>)
    ensures AddItems(AddItems(c, xs), ys) == AddItems(c, xs + ys)
  {
    assert c.items + xs + ys == c.items + (xs + ys);
  }

  /** Adding entries never changes an existing selection. */
  lemma AddKeepsSelection(c: Combo, xs: seq<string>)
    requires Valid(c) && 0 <= c.index
    ensures CurrentText(AddItems(c, xs)) == CurrentText(c)
  {
    assert (c.items + xs)[c.index] == c.items[c.index];
  }

  /** Into an empty combo box without placeholder text, the first entry added becomes current. */
  lemma FirstAddedIsCurrent(c: Combo, xs: seq<string>)
    requires c.items == [] && c.index == -1 && !c.placeholderText && xs != []
    ensures CurrentText(AddItems(c, xs)) == xs[0]
  {
  }
}
