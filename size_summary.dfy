/**
 * The design-by-size count matrix and the statistics read from it
 * (src/lib/size-summary.ts).
 *
 * Every catalog design starts with a zero row over `ALL_SIZES`. A combo line
 * adds quantity times multiplier to each component's row at the line's own
 * size; any other line adds its quantity to its own design's row. Lines whose
 * design (or component) has no row are dropped, and the rows of every design
 * that is a key of the combo registry are removed at the end, whatever their
 * component list. Sizes are never checked against `ALL_SIZES`: any non-empty
 * size key is created or incremented.
 */
module SizeSummary {
  import opened Wrappers
  import opened OrderTypes
  import opened ShirtSizes
  import opened ComboProducts

  /** Count per size key. */
  type Counts = map<string, int>

  /** `SizeSummaryRow`: the design's display name and its count per size key. */
  datatype SummaryRow = SummaryRow(name: string, counts: Counts)

  /** The name shown for a design whose catalog name is missing or empty. */
  const UNKNOWN_NAME: string := "ไม่ระบุ"

  /** A cell as every reader of a row takes it: a missing size counts as 0. */
  function Cell(counts: Counts, s: string): int {
    if s in counts then counts[s] else 0
  }

  // ---------------------------------------------------------------------------
  // The accumulator: design id to its counts
  // ---------------------------------------------------------------------------

  type Accumulator = map<string, Counts>

  /** A fresh row: every code of `ALL_SIZES` at 0. */
  function ZeroCounts(): (c: Counts)
    ensures forall s :: s in c <==> s in ALL_SIZES
    ensures forall s :: Cell(c, s) == 0
  {
    map s | s in ALL_SIZES :: 0
  }

  /** Add `q` at `size` in the row of `d`, if `d` has a row and the size is non-empty. */
  function AddAt(acc: Accumulator, d: string, size: string, q: int): Accumulator {
    if d in acc && size != "" then acc[d := acc[d][size := Cell(acc[d], size) + q]] else acc
  }

  /** One combo line: each component in turn receives quantity times multiplier. */
  function AddComponents(acc: Accumulator, comps: seq<ComponentInfo>, size: string, q: int): Accumulator {
    if comps == [] then acc
    else
      var comp := comps[|comps| - 1];
      AddAt(AddComponents(acc, comps[..|comps| - 1], size, q), comp.component, size, q * comp.multiplier)
  }

  /** One line of any kind. */
  function AddItem(acc: Accumulator, item: DBOrderItem, combos: ComboMap): Accumulator {
    if IsComboItem(item, combos) then AddComponents(acc, combos[item.design], item.size, item.quantity)
    else AddAt(acc, item.design, item.size, item.quantity)
  }

  /** All lines, in order. */
  function Accumulate(acc: Accumulator, items: seq<DBOrderItem>, combos: ComboMap): Accumulator {
    if items == [] then acc
    else AddItem(Accumulate(acc, items[..|items| - 1], combos), items[|items| - 1], combos)
  }

  // ---------------------------------------------------------------------------
  // The closed form: what each line contributes to each cell
  // ---------------------------------------------------------------------------

  /** The total multiplier a component list gives design `d` (a repeated component counts each time). */
  function Weight(comps: seq<ComponentInfo>, d: string): int {
    if comps == [] then 0
    else Weight(comps[..|comps| - 1], d) + (if comps[|comps| - 1].component == d then comps[|comps| - 1].multiplier else 0)
  }

  /** Whether design `d` is among the components. */
  predicate NamesComponent(comps: seq<ComponentInfo>, d: string) {
    exists k :: 0 <= k < |comps| && comps[k].component == d
  }

  /** What one line adds to the cell (`d`, `s`) of a design that has a row. */
  function Contribution(item: DBOrderItem, combos: ComboMap, d: string, s: string): int {
    if s == "" || s != item.size then 0
    else if IsComboItem(item, combos) then item.quantity * Weight(combos[item.design], d)
    else if item.design == d then item.quantity
    else 0
  }

  function Contributions(items: seq<DBOrderItem>, combos: ComboMap, d: string, s: string): int {
    if items == [] then 0
    else Contributions(items[..|items| - 1], combos, d, s) + Contribution(items[|items| - 1], combos, d, s)
  }

  /** Whether a line writes to the cell (`d`, `s`), creating the size key if it was missing. */
  predicate Touches(item: DBOrderItem, combos: ComboMap, d: string, s: string) {
    s != "" && s == item.size &&
    if IsComboItem(item, combos) then NamesComponent(combos[item.design], d) else item.design == d
  }

  predicate TouchedBy(items: seq<DBOrderItem>, combos: ComboMap, d: string, s: string) {
    exists i :: 0 <= i < |items| && Touches(items[i], combos, d, s)
  }

  lemma {:induction false} AddComponentsKeys(acc: Accumulator, comps: seq<ComponentInfo>, size: string, q: int)
    ensures AddComponents(acc, comps, size, q).Keys == acc.Keys
  {
    if comps != [] {
      AddComponentsKeys(acc, comps[..|comps| - 1], size, q);
    }
  }

  lemma {:induction false} AccumulateKeys(acc: Accumulator, items: seq<DBOrderItem>, combos: ComboMap)
    ensures Accumulate(acc, items, combos).Keys == acc.Keys
  {
    if items != [] {
      var prefix := items[..|items| - 1];
      var item := items[|items| - 1];
      AccumulateKeys(acc, prefix, combos);
      if IsComboItem(item, combos) {
        AddComponentsKeys(Accumulate(acc, prefix, combos), combos[item.design], item.size, item.quantity);
      }
    }
  }

  /** One combo line adds quantity times the design's weight at the line's size, and nothing elsewhere. */
  lemma {:induction false} AddComponentsCell(acc: Accumulator, comps: seq<ComponentInfo>, size: string, q: int, d: string, s: string)
    requires d in acc
    ensures d in AddComponents(acc, comps, size, q)
    ensures Cell(AddComponents(acc, comps, size, q)[d], s)
      == Cell(acc[d], s) + (if s == size && size != "" then q * Weight(comps, d) else 0)
    ensures s in AddComponents(acc, comps, size, q)[d]
      <==> s in acc[d] || (s == size && size != "" && NamesComponent(comps, d))
  {
    AddComponentsKeys(acc, comps, size, q);
    if comps != [] {
      var n := |comps|;
      var prefix := comps[..n - 1];
      var comp := comps[n - 1];
      AddComponentsCell(acc, prefix, size, q, d, s);
      AddComponentsKeys(acc, prefix, size, q);
      assert q * Weight(comps, d) == q * Weight(prefix, d) + (if comp.component == d then q * comp.multiplier else 0) by {
        if comp.component == d {
          assert q * (Weight(prefix, d) + comp.multiplier) == q * Weight(prefix, d) + q * comp.multiplier;
        }
      }
      if NamesComponent(comps, d) && !(comp.component == d) {
        var k :| 0 <= k < n && comps[k].component == d;
        assert prefix[k].component == d;
      }
      if NamesComponent(prefix, d) {
        var k :| 0 <= k < n - 1 && prefix[k].component == d;
        assert comps[k].component == d;
      }
    }
  }

  /**
   * The closed form of accumulation: a cell ends at its starting value plus the
   * contributions of all lines, and a size key exists afterwards exactly when it
   * existed before or some line wrote to it.
   */
  lemma {:induction false} AccumulateCell(acc: Accumulator, items: seq<DBOrderItem>, combos: ComboMap, d: string, s: string)
    requires d in acc
    ensures d in Accumulate(acc, items, combos)
    ensures Cell(Accumulate(acc, items, combos)[d], s) == Cell(acc[d], s) + Contributions(items, combos, d, s)
    ensures s in Accumulate(acc, items, combos)[d] <==> s in acc[d] || TouchedBy(items, combos, d, s)
  {
    AccumulateKeys(acc, items, combos);
    if items != [] {
      var n := |items|;
      var prefix := items[..n - 1];
      var item := items[n - 1];
      AccumulateCell(acc, prefix, combos, d, s);
      AccumulateKeys(acc, prefix, combos);
      var before := Accumulate(acc, prefix, combos);
      if IsComboItem(item, combos) {
        AddComponentsCell(before, combos[item.design], item.size, item.quantity, d, s);
      }
      TouchedBySnoc(items, combos, d, s);
    }
  }

  /** A list writes to a cell exactly when its prefix or its last line does. */
  lemma TouchedBySnoc(items: seq<DBOrderItem>, combos: ComboMap, d: string, s: string)
    requires items != []
    ensures TouchedBy(items, combos, d, s) <==>
      TouchedBy(items[..|items| - 1], combos, d, s) || Touches(items[|items| - 1], combos, d, s)
  {
    var n := |items|;
    var prefix := items[..n - 1];
    if TouchedBy(items, combos, d, s) && !Touches(items[n - 1], combos, d, s) {
      var i :| 0 <= i < n && Touches(items[i], combos, d, s);
      assert prefix[i] == items[i];
    }
    if TouchedBy(prefix, combos, d, s) {
      var i :| 0 <= i < n - 1 && Touches(prefix[i], combos, d, s);
      assert items[i] == prefix[i];
    }
  }

  /** A line that does not write to a cell contributes nothing to it. */
  lemma UntouchedContributesNothing(item: DBOrderItem, combos: ComboMap, d: string, s: string)
    requires !Touches(item, combos, d, s)
    ensures Contribution(item, combos, d, s) == 0
  {
    if s != "" && s == item.size && IsComboItem(item, combos) {
      WeightOfAbsent(combos[item.design], d);
    }
  }

  lemma {:induction false} WeightOfAbsent(comps: seq<ComponentInfo>, d: string)
    requires !NamesComponent(comps, d)
    ensures Weight(comps, d) == 0
  {
    if comps != [] {
      var prefix := comps[..|comps| - 1];
      forall k | 0 <= k < |prefix| ensures prefix[k].component != d {
        assert prefix[k] == comps[k];
      }
      WeightOfAbsent(prefix, d);
    }
  }

  lemma {:induction false} UntouchedCellIsZero(items: seq<DBOrderItem>, combos: ComboMap, d: string, s: string)
    requires !TouchedBy(items, combos, d, s)
    ensures Contributions(items, combos, d, s) == 0
  {
    if items != [] {
      var prefix := items[..|items| - 1];
      forall i | 0 <= i < |prefix| ensures !Touches(prefix[i], combos, d, s) {
        assert prefix[i] == items[i];
      }
      UntouchedCellIsZero(prefix, combos, d, s);
      UntouchedContributesNothing(items[|items| - 1], combos, d, s);
    }
  }

  // ---------------------------------------------------------------------------
  // Catalog: row order, initial rows and names
  // ---------------------------------------------------------------------------

  function DesignIds(designs: seq<DesignInfo>): set<string> {
    set x | x in designs :: x.id
  }

  /** The accumulator's key order: each catalog id at its first appearance (a JavaScript `Map`). */
  function DistinctIds(designs: seq<DesignInfo>): (ids: seq<string>)
    ensures forall x :: x in ids <==> x in DesignIds(designs)
    ensures forall i, j :: 0 <= i < j < |ids| ==> ids[i] != ids[j]
  {
    if designs == [] then []
    else
      var prefix := designs[..|designs| - 1];
      var ids := DistinctIds(prefix);
      var id := designs[|designs| - 1].id;
      assert DesignIds(designs) == DesignIds(prefix) + {id} by {
        assert designs == prefix + [designs[|designs| - 1]];
      }
      if id in ids then ids else ids + [id]
  }

  /** The starting accumulator: one zero row per catalog id (a later duplicate resets it). */
  function InitialAccumulator(designs: seq<DesignInfo>): (acc: Accumulator)
    ensures acc.Keys == DesignIds(designs)
    ensures forall d :: d in acc ==> acc[d] == ZeroCounts()
  {
    if designs == [] then map[]
    else
      var prefix := designs[..|designs| - 1];
      assert designs == prefix + [designs[|designs| - 1]];
      assert DesignIds(designs) == DesignIds(prefix) + {designs[|designs| - 1].id};
      InitialAccumulator(prefix)[designs[|designs| - 1].id := ZeroCounts()]
  }

  /** `designNameMap`: id to name, the last catalog entry for an id winning. */
  function NameMap(designs: seq<DesignInfo>): map<string, string> {
    if designs == [] then map[]
    else NameMap(designs[..|designs| - 1])[designs[|designs| - 1].id := designs[|designs| - 1].name]
  }

  /** `designNameMap.get(id) || 'ไม่ระบุ'`. */
  function DisplayName(names: map<string, string>, id: string): string {
    if id in names && names[id] != "" then names[id] else UNKNOWN_NAME
  }

  /** The ids that keep a row: those that are not keys of the registry, in order. */
  function KeptIds(ids: seq<string>, combos: ComboMap): (kept: seq<string>)
    ensures forall x :: x in kept <==> x in ids && x !in combos
    ensures |kept| <= |ids|
  {
    if ids == [] then []
    else
      var prefix := ids[..|ids| - 1];
      var x := ids[|ids| - 1];
      assert ids == prefix + [x];
      KeptIds(prefix, combos) + (if x in combos then [] else [x])
  }

  /** One row per id, in order: the id's display name and its counts. */
  function RowsFor(ids: seq<string>, acc: Accumulator, names: map<string, string>): (rows: seq<SummaryRow>)
    requires forall x :: x in ids ==> x in acc
    ensures |rows| == |ids|
    ensures forall k :: 0 <= k < |ids| ==> rows[k] == SummaryRow(DisplayName(names, ids[k]), acc[ids[k]])
  {
    if ids == [] then []
    else
      var last := ids[|ids| - 1];
      assert last in ids;
      RowsFor(ids[..|ids| - 1], acc, names) + [SummaryRow(DisplayName(names, last), acc[last])]
  }

  /** The ids of the output rows, in output order. */
  function SummaryIds(designs: seq<DesignInfo>, combos: ComboMap): seq<string> {
    KeptIds(DistinctIds(designs), combos)
  }

  /** The accumulator after all lines. */
  function FinalAccumulator(items: seq<DBOrderItem>, designs: seq<DesignInfo>, combos: ComboMap): (acc: Accumulator)
    ensures acc.Keys == DesignIds(designs)
  {
    AccumulateKeys(InitialAccumulator(designs), items, combos);
    Accumulate(InitialAccumulator(designs), items, combos)
  }

  lemma KeptIdsSnoc(ids: seq<string>, x: string, combos: ComboMap)
    ensures KeptIds(ids + [x], combos) == KeptIds(ids, combos) + (if x in combos then [] else [x])
  {
    assert (ids + [x])[..|ids|] == ids;
  }

  lemma RowsForSnoc(ids: seq<string>, x: string, acc: Accumulator, names: map<string, string>)
    requires forall y :: y in ids ==> y in acc
    requires x in acc
    ensures forall y :: y in ids + [x] ==> y in acc
    ensures RowsFor(ids + [x], acc, names) == RowsFor(ids, acc, names) + [SummaryRow(DisplayName(names, x), acc[x])]
  {
    assert (ids + [x])[..|ids|] == ids;
  }

  /** The rows `CollectRows` builds, one id at a time: combos are skipped. */
  function KeptRows(ids: seq<string>, acc: Accumulator, names: map<string, string>, combos: ComboMap): seq<SummaryRow>
    requires forall x :: x in ids ==> x in acc
  {
    if ids == [] then []
    else
      var x := ids[|ids| - 1];
      assert x in ids;
      KeptRows(ids[..|ids| - 1], acc, names, combos)
      + (if x in combos then [] else [SummaryRow(DisplayName(names, x), acc[x])])
  }

  /** Building row by row gives the rows of the kept ids. */
  lemma {:induction false} KeptRowsAreRowsFor(ids: seq<string>, acc: Accumulator, names: map<string, string>, combos: ComboMap)
    requires forall x :: x in ids ==> x in acc
    ensures forall x :: x in KeptIds(ids, combos) ==> x in acc
    ensures KeptRows(ids, acc, names, combos) == RowsFor(KeptIds(ids, combos), acc, names)
  {
    if ids != [] {
      var prefix, x := ids[..|ids| - 1], ids[|ids| - 1];
      assert ids == prefix + [x];
      KeptRowsAreRowsFor(prefix, acc, names, combos);
      KeptIdsSnoc(prefix, x, combos);
      if x !in combos {
        RowsForSnoc(KeptIds(prefix, combos), x, acc, names);
      }
    }
  }

  /** The result of `processSizeSummary`. */
  function Summary(items: seq<DBOrderItem>, designs: seq<DesignInfo>, combos: ComboMap): seq<SummaryRow> {
    var ids := SummaryIds(designs, combos);
    var acc := FinalAccumulator(items, designs, combos);
    RowsFor(ids, acc, NameMap(designs))
  }

  // ---------------------------------------------------------------------------
  // processSizeSummary
  // ---------------------------------------------------------------------------

  /** The `designNameMap` loop. */
  method BuildNameMap(designs: seq<DesignInfo>) returns (designNameMap: map<string, string>)
    ensures designNameMap == NameMap(designs)
  {
    designNameMap := map[];
    for i := 0 to |designs|
      invariant designNameMap == NameMap(designs[..i])
    {
      assert designs[..i + 1][..i] == designs[..i];
      designNameMap := designNameMap[designs[i].id := designs[i].name];
    }
    assert designs[..|designs|] == designs;
  }

  /** The initialising loop: a zero row per design; `order` is the key order of the `Map`. */
  method InitRows(designs: seq<DesignInfo>) returns (sizeCount: Accumulator, order: seq<string>)
    ensures sizeCount == InitialAccumulator(designs)
    ensures order == DistinctIds(designs)
  {
    sizeCount := map[];
    order := [];
    for i := 0 to |designs|
      invariant sizeCount == InitialAccumulator(designs[..i])
      invariant order == DistinctIds(designs[..i])
    {
      assert designs[..i + 1][..i] == designs[..i];
      var id := designs[i].id;
      if id !in sizeCount {
        order := order + [id];
      }
      sizeCount := sizeCount[id := ZeroCounts()];
    }
    assert designs[..|designs|] == designs;
  }

  /** The inner loop over a combo line's components. */
  method AddComboLine(sizeCount0: Accumulator, comboComponents: seq<ComponentInfo>, size: string, quantity: int)
    returns (sizeCount: Accumulator)
    ensures sizeCount == AddComponents(sizeCount0, comboComponents, size, quantity)
  {
    sizeCount := sizeCount0;
    for j := 0 to |comboComponents|
      invariant sizeCount == AddComponents(sizeCount0, comboComponents[..j], size, quantity)
    {
      assert comboComponents[..j + 1][..j] == comboComponents[..j];
      var comp := comboComponents[j];
      if comp.component in sizeCount && size != "" {
        var designSizes := sizeCount[comp.component];
        sizeCount := sizeCount[comp.component := designSizes[size := Cell(designSizes, size) + quantity * comp.multiplier]];
      }
    }
    assert comboComponents[..|comboComponents|] == comboComponents;
  }

  /** The loop over the order lines. */
  method AddLines(sizeCount0: Accumulator, items: seq<DBOrderItem>, comboMap: ComboMap) returns (sizeCount: Accumulator)
    ensures sizeCount == Accumulate(sizeCount0, items, comboMap)
  {
    sizeCount := sizeCount0;
    for i := 0 to |items|
      invariant sizeCount == Accumulate(sizeCount0, items[..i], comboMap)
    {
      assert items[..i + 1][..i] == items[..i];
      var item := items[i];
      if item.design in comboMap && |comboMap[item.design]| > 0 {
        sizeCount := AddComboLine(sizeCount, comboMap[item.design], item.size, item.quantity);
      } else if item.design in sizeCount && item.size != "" {
        var designSizes := sizeCount[item.design];
        sizeCount := sizeCount[item.design := designSizes[item.size := Cell(designSizes, item.size) + item.quantity]];
      }
    }
    assert items[..|items|] == items;
  }

  /** The output loop: rows in key order, combo rows left out. */
  method CollectRows(order: seq<string>, sizeCount: Accumulator, designNameMap: map<string, string>, comboMap: ComboMap)
    returns (sizeSummary: seq<SummaryRow>)
    requires forall x :: x in order ==> x in sizeCount
    ensures forall x :: x in KeptIds(order, comboMap) ==> x in sizeCount
    ensures sizeSummary == RowsFor(KeptIds(order, comboMap), sizeCount, designNameMap)
  {
    sizeSummary := [];
    for k := 0 to |order|
      invariant sizeSummary == KeptRows(order[..k], sizeCount, designNameMap, comboMap)
    {
      var design := order[k];
      assert order[..k + 1][..k] == order[..k];
      if design !in comboMap {
        sizeSummary := sizeSummary + [SummaryRow(DisplayName(designNameMap, design), sizeCount[design])];
      }
    }
    assert order[..|order|] == order;
    KeptRowsAreRowsFor(order, sizeCount, designNameMap, comboMap);
  }

  /** `processSizeSummary`: the matrix for the lines, one row per non-combo catalog design. */
  method ProcessSizeSummary(items: seq<DBOrderItem>, designs: seq<DesignInfo>, comboMap: ComboMap)
    returns (sizeSummary: seq<SummaryRow>)
    ensures sizeSummary == Summary(items, designs, comboMap)
  {
    var designNameMap := BuildNameMap(designs);
    var initial, order := InitRows(designs);
    var sizeCount := AddLines(initial, items, comboMap);
    AccumulateKeys(initial, items, comboMap);
    sizeSummary := CollectRows(order, sizeCount, designNameMap, comboMap);
  }

  // ---------------------------------------------------------------------------
  // What the summary promises
  // ---------------------------------------------------------------------------

  /**
   * Row `k` belongs to design `SummaryIds[k]`: it carries that design's display
   * name, each cell equals the sum of the contributions of all lines, and it has
   * a key for every code of `ALL_SIZES` plus every non-empty size a line wrote
   * to, whether or not that size is a valid code.
   */
  lemma SummaryCell(items: seq<DBOrderItem>, designs: seq<DesignInfo>, combos: ComboMap, k: nat, s: string)
    requires k < |SummaryIds(designs, combos)|
    ensures |Summary(items, designs, combos)| == |SummaryIds(designs, combos)|
    ensures var d := SummaryIds(designs, combos)[k];
      var row := Summary(items, designs, combos)[k];
      row.name == DisplayName(NameMap(designs), d) &&
      Cell(row.counts, s) == Contributions(items, combos, d, s) &&
      (s in row.counts <==> s in ALL_SIZES || TouchedBy(items, combos, d, s))
  {
    var ids := SummaryIds(designs, combos);
    var d := ids[k];
    assert d in ids;
    AccumulateCell(InitialAccumulator(designs), items, combos, d, s);
  }

  /** The rows are exactly the catalog designs that are not registry keys, each once. */
  lemma SummaryRowsAreNonComboCatalog(designs: seq<DesignInfo>, combos: ComboMap)
    ensures forall x :: x in SummaryIds(designs, combos) <==> x in DesignIds(designs) && x !in combos
    ensures forall i, j :: 0 <= i < j < |SummaryIds(designs, combos)| ==>
      SummaryIds(designs, combos)[i] != SummaryIds(designs, combos)[j]
  {
    KeptIdsDistinct(DistinctIds(designs), combos);
  }

  lemma {:induction false} KeptIdsDistinct(ids: seq<string>, combos: ComboMap)
    requires forall i, j :: 0 <= i < j < |ids| ==> ids[i] != ids[j]
    ensures forall i, j :: 0 <= i < j < |KeptIds(ids, combos)| ==> KeptIds(ids, combos)[i] != KeptIds(ids, combos)[j]
  {
    if ids != [] {
      var prefix := ids[..|ids| - 1];
      var x := ids[|ids| - 1];
      KeptIdsDistinct(prefix, combos);
      assert x !in prefix;
    }
  }

  /**
   * With unique catalog ids the key order is the catalog order, so the rows
   * follow the catalog with the registry keys removed.
   */
  lemma {:induction false} UniqueCatalogKeepsOrder(designs: seq<DesignInfo>)
    requires forall i, j :: 0 <= i < j < |designs| ==> designs[i].id != designs[j].id
    ensures DistinctIds(designs) == seq(|designs|, i requires 0 <= i < |designs| => designs[i].id)
  {
    if designs != [] {
      var n := |designs|;
      var prefix := designs[..n - 1];
      UniqueCatalogKeepsOrder(prefix);
      var last := designs[n - 1];
      forall x | x in prefix ensures x.id != last.id {
        var i :| 0 <= i < n - 1 && prefix[i] == x;
        assert designs[i] == x;
      }
      assert last.id !in DesignIds(prefix);
      assert DistinctIds(designs) == DistinctIds(prefix) + [last.id];
    }
  }

  /** A design that no line writes to gets exactly the all-zero row over `ALL_SIZES`. */
  lemma UntouchedDesignHasZeroRow(items: seq<DBOrderItem>, designs: seq<DesignInfo>, combos: ComboMap, k: nat)
    requires k < |SummaryIds(designs, combos)|
    requires forall s :: !TouchedBy(items, combos, SummaryIds(designs, combos)[k], s)
    ensures |Summary(items, designs, combos)| == |SummaryIds(designs, combos)|
    ensures Summary(items, designs, combos)[k].counts == ZeroCounts()
  {
    UntouchedSummaryCell(items, designs, combos, k, "");
    var counts := Summary(items, designs, combos)[k].counts;
    forall s ensures (s in counts <==> s in ALL_SIZES) && Cell(counts, s) == 0 {
      UntouchedSummaryCell(items, designs, combos, k, s);
    }
    ZeroCellsAreZeroCounts(counts);
  }

  /** Counts over exactly the `ALL_SIZES` codes whose every cell is 0 are the all-zero row. */
  lemma ZeroCellsAreZeroCounts(counts: Counts)
    requires forall s :: (s in counts <==> s in ALL_SIZES) && Cell(counts, s) == 0
    ensures counts == ZeroCounts()
  {
    var zero := ZeroCounts();
    assert forall s :: s in counts ==> counts[s] == Cell(counts, s);
    assert counts.Keys == zero.Keys;
  }

  /** A cell that no line writes to is present exactly for the `ALL_SIZES` codes, and is 0. */
  lemma UntouchedSummaryCell(items: seq<DBOrderItem>, designs: seq<DesignInfo>, combos: ComboMap, k: nat, s: string)
    requires k < |SummaryIds(designs, combos)|
    requires !TouchedBy(items, combos, SummaryIds(designs, combos)[k], s)
    ensures |Summary(items, designs, combos)| == |SummaryIds(designs, combos)|
    ensures s in Summary(items, designs, combos)[k].counts <==> s in ALL_SIZES
    ensures Cell(Summary(items, designs, combos)[k].counts, s) == 0
  {
    SummaryCell(items, designs, combos, k, s);
    UntouchedCellIsZero(items, combos, SummaryIds(designs, combos)[k], s);
  }

  /**
   * Appending a line changes each cell by exactly that line's contribution: a
   * non-combo line adds its quantity at its size in its own design's row, a combo
   * line adds quantity times multiplier in each component's row, and a line whose
   * design has no row changes nothing. The rows themselves stay the same.
   */
  lemma SummaryAddsLine(items: seq<DBOrderItem>, item: DBOrderItem, designs: seq<DesignInfo>, combos: ComboMap, k: nat, s: string)
    requires k < |SummaryIds(designs, combos)|
    ensures |Summary(items + [item], designs, combos)| == |Summary(items, designs, combos)| == |SummaryIds(designs, combos)|
    ensures Summary(items + [item], designs, combos)[k].name == Summary(items, designs, combos)[k].name
    ensures Cell(Summary(items + [item], designs, combos)[k].counts, s)
      == Cell(Summary(items, designs, combos)[k].counts, s) + Contribution(item, combos, SummaryIds(designs, combos)[k], s)
  {
    SummaryCell(items, designs, combos, k, s);
    SummaryCell(items + [item], designs, combos, k, s);
    assert (items + [item])[..|items|] == items;
  }

  /** The catalog of the worked example: shirts 1 and 2, and combo 3. */
  function ExampleDesigns(): seq<DesignInfo> {
    [DesignInfo("1", "A"), DesignInfo("2", "B"), DesignInfo("3", "Combo")]
  }

  /** The registry of the worked example: combo 3 is one shirt 1 and one shirt 2. */
  function ExampleCombos(): ComboMap {
    map["3" := [ComponentInfo("1", 1), ComponentInfo("2", 1)]]
  }

  /** The lines of the worked example: two combos and one shirt 1, all size L. */
  function ExampleItems(): seq<DBOrderItem> {
    [DBOrderItem("3", "L", 2, 0, None), DBOrderItem("1", "L", 1, 0, None)]
  }

  lemma ExampleIds()
    ensures DistinctIds(ExampleDesigns()) == ["1", "2", "3"]
  {
    var designs := ExampleDesigns();
    var d1 := [DesignInfo("1", "A")];
    var d2 := d1 + [DesignInfo("2", "B")];
    assert designs[..2] == d2 && d2[..1] == d1 && d1[..0] == [];
    assert DistinctIds(d1) == ["1"];
    assert DistinctIds(d2) == ["1", "2"];
  }

  lemma ExampleKept()
    ensures KeptIds(["1", "2", "3"], ExampleCombos()) == ["1", "2"]
  {
    var ids := ["1", "2", "3"];
    assert ids[..2] == ["1", "2"] && ids[..2][..1] == ["1"] && ids[..2][..1][..0] == [];
    assert KeptIds(["1"], ExampleCombos()) == ["1"];
    assert KeptIds(["1", "2"], ExampleCombos()) == ["1", "2"];
  }

  lemma ExampleNames()
    ensures NameMap(ExampleDesigns()) == map["1" := "A", "2" := "B", "3" := "Combo"]
  {
    var designs := ExampleDesigns();
    var d1 := [DesignInfo("1", "A")];
    var d2 := d1 + [DesignInfo("2", "B")];
    assert designs[..2] == d2 && d2[..1] == d1 && d1[..0] == [];
    assert NameMap(d1) == map["1" := "A"];
    assert NameMap(d2) == map["1" := "A", "2" := "B"];
  }

  lemma ExampleSummaryIds()
    ensures SummaryIds(ExampleDesigns(), ExampleCombos()) == ["1", "2"]
  {
    ExampleIds();
    ExampleKept();
  }

  lemma ExampleRows()
    ensures SummaryIds(ExampleDesigns(), ExampleCombos()) == ["1", "2"]
    ensures DisplayName(NameMap(ExampleDesigns()), "1") == "A"
    ensures DisplayName(NameMap(ExampleDesigns()), "2") == "B"
  {
    ExampleSummaryIds();
    ExampleNames();
  }

  lemma ExampleCells()
    ensures Contributions(ExampleItems(), ExampleCombos(), "1", "L") == 3
    ensures Contributions(ExampleItems(), ExampleCombos(), "2", "L") == 2
    ensures Contributions(ExampleItems(), ExampleCombos(), "1", "M") == 0
  {
    var items := ExampleItems();
    var combos := ExampleCombos();
    assert items[..1] == [items[0]] && items[..1][..0] == [];
    var comps := combos["3"];
    assert comps[..1] == [comps[0]] && comps[..1][..0] == [];
    assert Weight(comps, "1") == 1 && Weight(comps, "2") == 1;
  }

  /**
   * The worked example: two combo-3 shirts and one shirt 1 give shirt 1 three
   * and shirt 2 two at size L, and the combo has no row of its own.
   */
  lemma WorkedExample()
    ensures var rows := Summary(ExampleItems(), ExampleDesigns(), ExampleCombos());
      |rows| == 2 && rows[0].name == "A" && rows[1].name == "B" &&
      Cell(rows[0].counts, "L") == 3 && Cell(rows[1].counts, "L") == 2 &&
      Cell(rows[0].counts, "M") == 0
  {
    ExampleRows();
    ExampleCells();
    SummaryCell(ExampleItems(), ExampleDesigns(), ExampleCombos(), 0, "L");
    SummaryCell(ExampleItems(), ExampleDesigns(), ExampleCombos(), 1, "L");
    SummaryCell(ExampleItems(), ExampleDesigns(), ExampleCombos(), 0, "M");
  }

  // ---------------------------------------------------------------------------
  // Statistics
  // ---------------------------------------------------------------------------

  /** The sum of one size's cells over all rows (the inner `reduce`). */
  function ColumnSum(rows: seq<SummaryRow>, s: string): int {
    if rows == [] then 0 else ColumnSum(rows[..|rows| - 1], s) + Cell(rows[|rows| - 1].counts, s)
  }

  /** The sum of a row's cells over a list of sizes. */
  function RowTotal(row: SummaryRow, sizes: seq<string>): int {
    if sizes == [] then 0 else RowTotal(row, sizes[..|sizes| - 1]) + Cell(row.counts, sizes[|sizes| - 1])
  }

  /** Column sums added up over a list of sizes. */
  function SumOfColumns(rows: seq<SummaryRow>, sizes: seq<string>): int {
    if sizes == [] then 0 else SumOfColumns(rows, sizes[..|sizes| - 1]) + ColumnSum(rows, sizes[|sizes| - 1])
  }

  /** Row totals added up over all rows. */
  function SumOfRowTotals(rows: seq<SummaryRow>, sizes: seq<string>): int {
    if rows == [] then 0 else SumOfRowTotals(rows[..|rows| - 1], sizes) + RowTotal(rows[|rows| - 1], sizes)
  }

  lemma {:induction false} SumOfColumnsSnoc(rows: seq<SummaryRow>, sizes: seq<string>)
    requires rows != []
    ensures SumOfColumns(rows, sizes) == SumOfColumns(rows[..|rows| - 1], sizes) + RowTotal(rows[|rows| - 1], sizes)
  {
    if sizes != [] {
      SumOfColumnsSnoc(rows, sizes[..|sizes| - 1]);
    }
  }

  /** Adding the columns gives the same as adding the rows. */
  lemma {:induction false} SumsCommute(rows: seq<SummaryRow>, sizes: seq<string>)
    ensures SumOfColumns(rows, sizes) == SumOfRowTotals(rows, sizes)
  {
    if rows == [] {
      SumOfColumnsOfNoRows(sizes);
    } else {
      SumsCommute(rows[..|rows| - 1], sizes);
      SumOfColumnsSnoc(rows, sizes);
    }
  }

  lemma {:induction false} SumOfColumnsOfNoRows(sizes: seq<string>)
    ensures SumOfColumns([], sizes) == 0
  {
    if sizes != [] {
      SumOfColumnsOfNoRows(sizes[..|sizes| - 1]);
    }
  }

  /** `calculateSizeTotals`: one entry per code of `ALL_SIZES`, that column's sum over the rows. */
  method CalculateSizeTotals(sizeSummary: seq<SummaryRow>) returns (totals: map<string, int>)
    ensures forall s :: s in totals <==> s in ALL_SIZES
    ensures forall s :: s in totals ==> totals[s] == ColumnSum(sizeSummary, s)
  {
    var sizes := ALL_SIZES;
    totals := map[];
    for i := 0 to |sizes|
      invariant forall s :: s in totals <==> s in sizes[..i]
      invariant forall s :: s in totals ==> totals[s] == ColumnSum(sizeSummary, s)
    {
      assert sizes[..i + 1] == sizes[..i] + [sizes[i]];
      totals := totals[sizes[i] := ColumnSum(sizeSummary, sizes[i])];
    }
    assert sizes[..|sizes|] == sizes;
  }

  /**
   * `calculateGrandTotal`: the per-size totals added up. It equals the sum of the
   * rows' totals over `ALL_SIZES`, so counts under any other size key never enter it.
   */
  function CalculateGrandTotal(sizeSummary: seq<SummaryRow>): (total: int)
    ensures total == SumOfRowTotals(sizeSummary, ALL_SIZES)
  {
    SumsCommute(sizeSummary, ALL_SIZES);
    SumOfColumns(sizeSummary, ALL_SIZES)
  }

  /** Two summaries that agree on every `ALL_SIZES` cell have the same grand total. */
  lemma {:induction false} GrandTotalIgnoresOtherSizes(a: seq<SummaryRow>, b: seq<SummaryRow>)
    requires |a| == |b|
    requires forall k, s :: 0 <= k < |a| && s in ALL_SIZES ==> Cell(a[k].counts, s) == Cell(b[k].counts, s)
    ensures CalculateGrandTotal(a) == CalculateGrandTotal(b)
  {
    if a != [] {
      var n := |a|;
      GrandTotalIgnoresOtherSizes(a[..n - 1], b[..n - 1]);
      RowTotalOnSizes(a[n - 1], b[n - 1], ALL_SIZES);
    }
  }

  /** Rows that agree on a list of sizes have the same total over it. */
  lemma {:induction false} RowTotalOnSizes(x: SummaryRow, y: SummaryRow, sizes: seq<string>)
    requires forall s :: s in sizes ==> Cell(x.counts, s) == Cell(y.counts, s)
    ensures RowTotal(x, sizes) == RowTotal(y, sizes)
  {
    if sizes != [] {
      assert sizes[|sizes| - 1] in sizes;
      RowTotalOnSizes(x, y, sizes[..|sizes| - 1]);
    }
  }

  /** Row `k` has a positive total that no row exceeds and every earlier row falls short of. */
  ghost predicate FirstStrictMax(totals: seq<int>, k: int) {
    0 <= k < |totals| && totals[k] > 0 &&
    (forall j :: 0 <= j < |totals| ==> totals[j] <= totals[k]) &&
    (forall j :: 0 <= j < k ==> totals[j] < totals[k])
  }

  function RowTotals(rows: seq<SummaryRow>, sizes: seq<string>): (t: seq<int>)
    ensures |t| == |rows| && forall k :: 0 <= k < |rows| ==> t[k] == RowTotal(rows[k], sizes)
  {
    seq(|rows|, k requires 0 <= k < |rows| => RowTotal(rows[k], sizes))
  }

  /**
   * `getMostPopularDesign`: the name of the first row with the largest positive
   * total over `ALL_SIZES`, or "" when no row has a positive total.
   */
  method GetMostPopularDesign(sizeSummary: seq<SummaryRow>) returns (maxDesign: string)
    ensures (forall k :: 0 <= k < |sizeSummary| ==> RowTotals(sizeSummary, ALL_SIZES)[k] <= 0) ==> maxDesign == ""
    ensures (exists k :: 0 <= k < |sizeSummary| && RowTotals(sizeSummary, ALL_SIZES)[k] > 0) ==>
      (exists k :: FirstStrictMax(RowTotals(sizeSummary, ALL_SIZES), k) && maxDesign == sizeSummary[k].name)
  {
    ghost var totals := RowTotals(sizeSummary, ALL_SIZES);
    maxDesign := "";
    var maxTotal := 0;
    ghost var best := -1;
    for i := 0 to |sizeSummary|
      invariant best == -1 ==> maxDesign == "" && maxTotal == 0 && forall j :: 0 <= j < i ==> totals[j] <= 0
      invariant best != -1 ==> (0 <= best < i && maxTotal == totals[best] > 0 && maxDesign == sizeSummary[best].name &&
        (forall j :: 0 <= j < i ==> totals[j] <= maxTotal) && (forall j :: 0 <= j < best ==> totals[j] < maxTotal))
    {
      var total := RowTotal(sizeSummary[i], ALL_SIZES);
      if total > maxTotal {
        maxTotal := total;
        maxDesign := sizeSummary[i].name;
        best := i;
      }
    }
    if best != -1 {
      assert FirstStrictMax(totals, best);
    }
  }

  function ColumnTotals(rows: seq<SummaryRow>): (t: seq<int>)
    ensures |t| == |ALL_SIZES| && forall k :: 0 <= k < |ALL_SIZES| ==> t[k] == ColumnSum(rows, ALL_SIZES[k])
  {
    seq(|ALL_SIZES|, k requires 0 <= k < |ALL_SIZES| => ColumnSum(rows, ALL_SIZES[k]))
  }

  /**
   * `getMostPopularSize`: the first code of `ALL_SIZES` whose column sum is the
   * largest positive one, or "" when no column sum is positive.
   */
  method GetMostPopularSize(sizeSummary: seq<SummaryRow>) returns (maxSize: string)
    ensures (forall k :: 0 <= k < |ALL_SIZES| ==> ColumnTotals(sizeSummary)[k] <= 0) ==> maxSize == ""
    ensures (exists k :: 0 <= k < |ALL_SIZES| && ColumnTotals(sizeSummary)[k] > 0) ==>
      (exists k :: FirstStrictMax(ColumnTotals(sizeSummary), k) && maxSize == ALL_SIZES[k])
  {
    var totals := CalculateSizeTotals(sizeSummary);
    ghost var column := ColumnTotals(sizeSummary);
    var entries := ALL_SIZES;
    maxSize := "";
    var maxCount := 0;
    ghost var best := -1;
    for i := 0 to |entries|
      invariant best == -1 ==> maxSize == "" && maxCount == 0 && forall j :: 0 <= j < i ==> column[j] <= 0
      invariant best != -1 ==> (0 <= best < i && maxCount == column[best] > 0 && maxSize == entries[best] &&
        (forall j :: 0 <= j < i ==> column[j] <= maxCount) && (forall j :: 0 <= j < best ==> column[j] < maxCount))
    {
      var size := entries[i];
      assert size in ALL_SIZES;
      var count := totals[size];
      assert count == column[i];
      if count > maxCount {
        maxCount := count;
        maxSize := size;
        best := i;
      }
    }
    if best != -1 {
      assert FirstStrictMax(column, best);
    }
  }
}
