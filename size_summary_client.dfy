/**
 * The size-summary screen (src/components/SizeSummaryClient.tsx): it filters
 * the order lines by the selected statuses, summarises them, sorts the rows
 * by name or by total, and asks the export route for the same selection.
 */
module SizeSummaryClient {
  import opened Wrappers
  import opened OrderTypes
  import opened ComboProducts
  import opened SizeSummary
  import opened SizeSummaryTable
  import SizeSummaryExport

  /** The selection the screen opens with: every status except "cancelled". */
  const DEFAULT_STATUSES: seq<string> := ["pending", "confirmed", "processing", "completed"]

  datatype SortBy = ByName | ByTotal

  const DEFAULT_SORT: SortBy := ByName

  // ---------------------------------------------------------------------------
  // Filtering
  // ---------------------------------------------------------------------------

  /**
   * A line is shown when it has a non-zero order id whose order has a
   * non-empty status among the selected ones.
   */
  predicate OnScreen(item: DBOrderItem, statusMap: map<int, string>, selected: seq<string>) {
    item.orderId.Some? && item.orderId.value != 0 &&
    item.orderId.value in statusMap && statusMap[item.orderId.value] != "" &&
    statusMap[item.orderId.value] in selected
  }

  /** `filteredItems`: the shown lines, in their order. */
  function FilteredItems(allItems: seq<DBOrderItem>, statusMap: map<int, string>, selected: seq<string>): (shown: seq<DBOrderItem>)
    ensures forall x :: x in shown <==> x in allItems && OnScreen(x, statusMap, selected)
    ensures |shown| <= |allItems|
  {
    if allItems == [] then []
    else
      var prefix := allItems[..|allItems| - 1];
      var x := allItems[|allItems| - 1];
      assert allItems == prefix + [x];
      FilteredItems(prefix, statusMap, selected) + (if OnScreen(x, statusMap, selected) then [x] else [])
  }

  /** Each shown line appears as many times as it occurs; no other line appears. */
  lemma {:induction false} FilteredItemsCounts(allItems: seq<DBOrderItem>, statusMap: map<int, string>, selected: seq<string>, x: DBOrderItem)
    ensures multiset(FilteredItems(allItems, statusMap, selected))[x] ==
      if OnScreen(x, statusMap, selected) then multiset(allItems)[x] else 0
  {
    if allItems != [] {
      var prefix := allItems[..|allItems| - 1];
      assert allItems == prefix + [allItems[|allItems| - 1]];
      FilteredItemsCounts(prefix, statusMap, selected, x);
    }
  }

  /** Filtering a concatenation filters each part: the shown lines stay in their order. */
  lemma {:induction false} FilteredItemsAppend(a: seq<DBOrderItem>, b: seq<DBOrderItem>, statusMap: map<int, string>, selected: seq<string>)
    ensures FilteredItems(a + b, statusMap, selected) == FilteredItems(a, statusMap, selected) + FilteredItems(b, statusMap, selected)
    decreases |b|
  {
    if b == [] {
      assert a + b == a;
    } else {
      var b', x := b[..|b| - 1], b[|b| - 1];
      var tail := if OnScreen(x, statusMap, selected) then [x] else [];
      assert (a + b)[..|a + b| - 1] == a + b' && (a + b)[|a + b| - 1] == x;
      assert FilteredItems(a + b, statusMap, selected) == FilteredItems(a + b', statusMap, selected) + tail;
      assert FilteredItems(b, statusMap, selected) == FilteredItems(b', statusMap, selected) + tail;
      FilteredItemsAppend(a, b', statusMap, selected);
    }
  }

  /** `filteredSummary`: the library's summary of the shown lines. */
  function FilteredSummary(allItems: seq<DBOrderItem>, orders: seq<SizeSummaryExport.OrderStatus>, selected: seq<string>,
                           allDesigns: seq<DesignInfo>, comboMap: ComboMap): seq<SummaryRow> {
    Summary(FilteredItems(allItems, SizeSummaryExport.StatusMap(orders), selected), allDesigns, comboMap)
  }

  /** With no status selected the screen shows no line at all. */
  lemma EmptySelectionShowsNothing(allItems: seq<DBOrderItem>, statusMap: map<int, string>)
    ensures FilteredItems(allItems, statusMap, []) == []
  {
  }

  /**
   * With a non-empty selection and no line of order 0, the screen keeps
   * exactly the lines the export keeps.
   */
  lemma {:induction false} ScreenFilterMatchesExport(allItems: seq<DBOrderItem>, statusMap: map<int, string>, selected: seq<string>)
    requires selected != []
    requires forall k :: 0 <= k < |allItems| ==> allItems[k].orderId != Some(0)
    ensures FilteredItems(allItems, statusMap, selected) == SizeSummaryExport.FilterByStatus(allItems, statusMap, selected)
  {
    if allItems != [] {
      var prefix := allItems[..|allItems| - 1];
      forall k | 0 <= k < |prefix| ensures prefix[k].orderId != Some(0) {
        assert prefix[k] == allItems[k];
      }
      ScreenFilterMatchesExport(prefix, statusMap, selected);
    }
  }

  /** A line of order 0 never shows on screen, while the export keeps it when its order is selected. */
  lemma OrderZeroOnlyInExport()
    ensures var item := DBOrderItem("1", "M", 1, 100, Some(0));
      var statusMap := map[0 := "pending"];
      FilteredItems([item], statusMap, ["pending"]) == [] &&
      SizeSummaryExport.FilterByStatus([item], statusMap, ["pending"]) == [item]
  {
    var item := DBOrderItem("1", "M", 1, 100, Some(0));
    var statusMap := map[0 := "pending"];
    assert [item][..0] == [];
    assert !OnScreen(item, statusMap, ["pending"]);
    assert SizeSummaryExport.StatusSelected(item, statusMap, ["pending"]);
  }

  /** An empty selection: nothing on screen, every line in the export. */
  lemma EmptySelectionExportsEverything(allItems: seq<DBOrderItem>, statusMap: map<int, string>)
    ensures FilteredItems(allItems, statusMap, []) == []
    ensures SizeSummaryExport.FilterByStatus(allItems, statusMap, SizeSummaryExport.ParseStatuses(ExportParam([]))) == allItems
  {
    EmptySelectionShowsNothing(allItems, statusMap);
  }

  // ---------------------------------------------------------------------------
  // The export request
  // ---------------------------------------------------------------------------

  /** The `statuses` query parameter the export button sends; absent when it would be empty. */
  function ExportParam(selected: seq<string>): (param: Option<string>)
    ensures param.Some? ==> param.value != "" && param.value == SizeSummaryExport.Join(selected, ',')
    ensures selected == [] ==> param.None?
  {
    var statusParam := if |selected| > 0 then SizeSummaryExport.Join(selected, ',') else "";
    if statusParam != "" then Some(statusParam) else None
  }

  /** The export route reads back exactly the selection the screen sends. */
  lemma ExportReadsSelection(selected: seq<string>)
    requires selected != []
    requires forall k :: 0 <= k < |selected| ==> selected[k] != "" && ',' !in selected[k]
    ensures SizeSummaryExport.ParseStatuses(ExportParam(selected)) == selected
  {
    assert SizeSummaryExport.Join(selected, ',') != [];
    SizeSummaryExport.JoinThenSplit(selected, ',');
  }

  /**
   * For a non-empty selection of plain status names, and lines that all
   * belong to a real order, the export's design rows are the rows the screen
   * summarises, and its last row holds their totals.
   */
  lemma ExportMatchesScreen(selected: seq<string>, orders: seq<SizeSummaryExport.OrderStatus>, allItems: seq<DBOrderItem>,
                            allDesigns: seq<DesignInfo>, comboRows: seq<ComboEdge>)
    requires selected != []
    requires forall k :: 0 <= k < |selected| ==> selected[k] != "" && ',' !in selected[k]
    requires forall k :: 0 <= k < |allItems| ==> allItems[k].orderId != Some(0)
    ensures var rows := FilteredSummary(allItems, orders, selected, allDesigns, Grouped(comboRows));
      var selectedItems := SizeSummaryExport.FilterByStatus(allItems, SizeSummaryExport.StatusMap(orders),
        SizeSummaryExport.ParseStatuses(ExportParam(selected)));
      Summary(selectedItems, allDesigns, Grouped(comboRows)) == rows
  {
    ExportReadsSelection(selected);
    ScreenFilterMatchesExport(allItems, SizeSummaryExport.StatusMap(orders), selected);
  }

  // ---------------------------------------------------------------------------
  // Sorting
  // ---------------------------------------------------------------------------

  /** `calculateDesignTotal`: the sum of the row's nine table cells. */
  function DesignTotal(row: SummaryRow): (total: int)
    ensures total == Sum(CellsOf(row, TABLE_SIZES))
  {
    RowTotalIsSumOfCells(row, TABLE_SIZES);
    RowTotal(row, TABLE_SIZES)
  }

  /**
   * The comparison key of a row: the collation rank of its lower-cased name
   * (supplied as `nameRank`), or its total negated so that larger totals
   * come first.
   */
  function SortKey(sortBy: SortBy, nameRank: string -> int, row: SummaryRow): int {
    match sortBy
    case ByName => nameRank(row.name)
    case ByTotal => -DesignTotal(row)
  }

  predicate SortedBy(s: seq<SummaryRow>, key: SummaryRow -> int) {
    forall p, q :: 0 <= p < q < |s| ==> key(s[p]) <= key(s[q])
  }

  /** The first `n` entries are in key order, except possibly those involving position `gap`. */
  predicate SortedExcept(s: seq<SummaryRow>, key: SummaryRow -> int, n: int, gap: int)
    requires n <= |s|
  {
    forall p, q :: 0 <= p < q < n && q != gap ==> key(s[p]) <= key(s[q])
  }

  /** Exchanges entries `j - 1` and `j`. */
  method Swap(a: array<SummaryRow>, j: int)
    requires 0 < j < a.Length
    modifies a
    ensures a[..] == old(a[..])[j - 1 := old(a[j])][j := old(a[j - 1])]
    ensures multiset(a[..]) == multiset(old(a[..]))
  {
    a[j - 1], a[j] := a[j], a[j - 1];
  }

  /** Moves entry `i` down past every larger key before it; the first `i + 1` entries are then in order. */
  method Insert(a: array<SummaryRow>, i: int, key: SummaryRow -> int)
    requires 0 <= i < a.Length
    requires SortedExcept(a[..], key, i, i)
    modifies a
    ensures SortedExcept(a[..], key, i + 1, i + 1)
    ensures multiset(a[..]) == multiset(old(a[..]))
  {
    var j := i;
    while j > 0 && key(a[j - 1]) > key(a[j])
      invariant 0 <= j <= i
      invariant SortedExcept(a[..], key, i + 1, j)
      invariant multiset(a[..]) == multiset(old(a[..]))
    {
      Swap(a, j);
      j := j - 1;
    }
  }

  /** Sorts the array in place by the key, smallest key first. */
  method SortInPlace(a: array<SummaryRow>, key: SummaryRow -> int)
    modifies a
    ensures SortedBy(a[..], key)
    ensures multiset(a[..]) == multiset(old(a[..]))
  {
    for i := 0 to a.Length
      invariant SortedExcept(a[..], key, i, i)
      invariant multiset(a[..]) == multiset(old(a[..]))
    {
      Insert(a, i, key);
    }
  }

  /** `sortedSummary`: a sorted copy; the summary it was taken from is left as it was. */
  method SortedSummary(filteredSummary: seq<SummaryRow>, sortBy: SortBy, nameRank: string -> int)
    returns (sorted: seq<SummaryRow>)
    ensures multiset(sorted) == multiset(filteredSummary)
    ensures sortBy == ByName ==> forall p, q :: 0 <= p < q < |sorted| ==> nameRank(sorted[p].name) <= nameRank(sorted[q].name)
    ensures sortBy == ByTotal ==> forall p, q :: 0 <= p < q < |sorted| ==> DesignTotal(sorted[p]) >= DesignTotal(sorted[q])
  {
    var copy := new SummaryRow[|filteredSummary|](k requires 0 <= k < |filteredSummary| => filteredSummary[k]);
    assert copy[..] == filteredSummary;
    var key := row => SortKey(sortBy, nameRank, row);
    SortInPlace(copy, key);
    sorted := copy[..];
    assert SortedBy(sorted, key);
  }

  // ---------------------------------------------------------------------------
  // Sorting keeps the totals
  // ---------------------------------------------------------------------------

  lemma {:induction false} SumOfRowTotalsAppend(a: seq<SummaryRow>, b: seq<SummaryRow>, sizes: seq<string>)
    ensures SumOfRowTotals(a + b, sizes) == SumOfRowTotals(a, sizes) + SumOfRowTotals(b, sizes)
  {
    if b == [] {
      assert a + b == a;
    } else {
      SumOfRowTotalsAppend(a, b[..|b| - 1], sizes);
      assert (a + b)[..|a + b| - 1] == a + b[..|b| - 1];
    }
  }

  /** Reordering the rows leaves the sum of their totals unchanged. */
  lemma {:induction false} SumOfRowTotalsPermutation(a: seq<SummaryRow>, b: seq<SummaryRow>, sizes: seq<string>)
    requires multiset(a) == multiset(b)
    ensures SumOfRowTotals(a, sizes) == SumOfRowTotals(b, sizes)
    decreases |a|
  {
    if a == [] {
      assert |b| == |multiset(b)| == 0;
    } else {
      var n := |a|;
      var x := a[n - 1];
      assert a == a[..n - 1] + [x];
      assert x in multiset(b);
      var i :| 0 <= i < |b| && b[i] == x;
      var rest := b[..i] + b[i + 1..];
      assert b == b[..i] + [x] + b[i + 1..];
      assert multiset(a) == multiset(a[..n - 1]) + multiset{x};
      assert multiset(b) == multiset(b[..i]) + multiset{x} + multiset(b[i + 1..]);
      assert multiset(rest) == multiset(b[..i]) + multiset(b[i + 1..]);
      assert multiset(a[..n - 1]) == multiset(a) - multiset{x};
      assert multiset(rest) == multiset(b) - multiset{x};
      SumOfRowTotalsPermutation(a[..n - 1], rest, sizes);
      SumOfRowTotalsAppend(b[..i] + [x], b[i + 1..], sizes);
      SumOfRowTotalsAppend(b[..i], [x], sizes);
      SumOfRowTotalsAppend(b[..i], b[i + 1..], sizes);
      assert [x][..0] == [];
    }
  }

  /** The sorted rows give the table the same grand total as the unsorted ones. */
  lemma SortingKeepsGrandTotal(filteredSummary: seq<SummaryRow>, sorted: seq<SummaryRow>)
    requires multiset(sorted) == multiset(filteredSummary)
    requires filteredSummary != []
    ensures sorted != []
    ensures View(sorted).grandTotal == View(filteredSummary).grandTotal
  {
    assert |sorted| == |multiset(sorted)| == |filteredSummary|;
    TableAddsUp(sorted);
    TableAddsUp(filteredSummary);
    SumOfColumnSums(sorted, TABLE_SIZES);
    SumOfColumnSums(filteredSummary, TABLE_SIZES);
    SumsCommute(sorted, TABLE_SIZES);
    SumsCommute(filteredSummary, TABLE_SIZES);
    SumOfRowTotalsPermutation(sorted, filteredSummary, TABLE_SIZES);
  }
}
