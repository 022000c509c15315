/**
 * The spreadsheet export of the size summary
 * (src/app/api/admin/size-summary/export/route.ts): lines filtered by order
 * status, the summary rows, and one totals row at the end.
 */
module SizeSummaryExport {
  import opened Wrappers
  import opened Http
  import opened OrderTypes
  import opened ShirtSizes
  import opened ComboProducts
  import opened SizeSummary

  // ---------------------------------------------------------------------------
  // The `statuses` parameter
  // ---------------------------------------------------------------------------

  /** `s.split(sep)`: the pieces between separators; there is always at least one. */
  function Split(s: string, sep: char): (parts: seq<string>)
    ensures |parts| >= 1
    ensures forall k :: 0 <= k < |parts| ==> sep !in parts[k]
  {
    if s == [] then [""]
    else
      var rest := Split(s[1..], sep);
      if s[0] == sep then [""] + rest else [[s[0]] + rest[0]] + rest[1..]
  }

  /** `parts.join(sep)`. */
  function Join(parts: seq<string>, sep: char): string {
    if parts == [] then ""
    else if |parts| == 1 then parts[0]
    else parts[0] + [sep] + Join(parts[1..], sep)
  }

  /** Joining the pieces gives the string back. */
  lemma {:induction false} SplitThenJoin(s: string, sep: char)
    ensures Join(Split(s, sep), sep) == s
  {
    if s != [] {
      var rest := Split(s[1..], sep);
      SplitThenJoin(s[1..], sep);
      if s[0] == sep {
        assert ([""] + rest)[1..] == rest;
      } else {
        var parts := [[s[0]] + rest[0]] + rest[1..];
        if |rest| > 1 {
          assert parts[1..] == rest[1..];
          assert Join(rest, sep) == rest[0] + [sep] + Join(rest[1..], sep);
        }
      }
    }
  }

  /** Splitting a join gives the pieces back when none contains the separator. */
  lemma {:induction false} JoinThenSplit(parts: seq<string>, sep: char)
    requires |parts| >= 1
    requires forall k :: 0 <= k < |parts| ==> sep !in parts[k]
    ensures Split(Join(parts, sep), sep) == parts
    decreases |parts|, |parts[0]|
  {
    var first := parts[0];
    if first != [] {
      var shorter := [first[1..]] + parts[1..];
      forall k | 0 <= k < |shorter| ensures sep !in shorter[k] {
        if k > 0 {
          assert shorter[k] == parts[k];
        }
      }
      JoinThenSplit(shorter, sep);
      assert first == [first[0]] + first[1..];
      assert first[0] in first;
      if |parts| == 1 {
        assert Join(parts, sep)[1..] == Join(shorter, sep);
      } else {
        assert shorter[1..] == parts[1..];
        assert Join(parts, sep)[1..] == Join(shorter, sep);
      }
      assert shorter[1..] == parts[1..];
    } else if |parts| > 1 {
      JoinThenSplit(parts[1..], sep);
      assert Join(parts, sep) == [sep] + Join(parts[1..], sep);
      assert ([sep] + Join(parts[1..], sep))[1..] == Join(parts[1..], sep);
    }
  }

  /** `statusParam ? statusParam.split(',') : []`: an absent or empty parameter selects nothing. */
  function ParseStatuses(statusParam: Option<string>): (selected: seq<string>)
    ensures statusParam.None? || statusParam.value == "" ==> selected == []
    ensures statusParam.Some? && statusParam.value != "" ==> Join(selected, ',') == statusParam.value && |selected| >= 1
  {
    if statusParam.None? || statusParam.value == "" then []
    else
      SplitThenJoin(statusParam.value, ',');
      Split(statusParam.value, ',')
  }

  // ---------------------------------------------------------------------------
  // Filtering by status
  // ---------------------------------------------------------------------------

  /** The `id, status` columns of an order. */
  datatype OrderStatus = OrderStatus(id: int, status: string)

  /** `new Map(orders.map(o => [o.id, o.status]))`: the last order with an id wins. */
  function StatusMap(orders: seq<OrderStatus>): map<int, string> {
    if orders == [] then map[]
    else StatusMap(orders[..|orders| - 1])[orders[|orders| - 1].id := orders[|orders| - 1].status]
  }

  /** The line's order has a non-empty status that is selected; lines of unknown orders fail. */
  predicate StatusSelected(item: DBOrderItem, statusMap: map<int, string>, selected: seq<string>) {
    item.orderId.Some? && item.orderId.value in statusMap &&
    statusMap[item.orderId.value] != "" && statusMap[item.orderId.value] in selected
  }

  function KeepSelected(items: seq<DBOrderItem>, statusMap: map<int, string>, selected: seq<string>): (kept: seq<DBOrderItem>)
    ensures forall x :: x in kept <==> x in items && StatusSelected(x, statusMap, selected)
    ensures |kept| <= |items|
  {
    if items == [] then []
    else
      var prefix := items[..|items| - 1];
      var x := items[|items| - 1];
      assert items == prefix + [x];
      KeepSelected(prefix, statusMap, selected) + (if StatusSelected(x, statusMap, selected) then [x] else [])
  }

  /** Filtering a concatenation filters each part: the kept lines stay in their order. */
  lemma {:induction false} KeepSelectedAppend(a: seq<DBOrderItem>, b: seq<DBOrderItem>, statusMap: map<int, string>, selected: seq<string>)
    ensures KeepSelected(a + b, statusMap, selected) == KeepSelected(a, statusMap, selected) + KeepSelected(b, statusMap, selected)
    decreases |b|
  {
    if b == [] {
      assert a + b == a;
    } else {
      var b', x := b[..|b| - 1], b[|b| - 1];
      var tail := if StatusSelected(x, statusMap, selected) then [x] else [];
      assert (a + b)[..|a + b| - 1] == a + b' && (a + b)[|a + b| - 1] == x;
      assert KeepSelected(a + b, statusMap, selected) == KeepSelected(a + b', statusMap, selected) + tail;
      assert KeepSelected(b, statusMap, selected) == KeepSelected(b', statusMap, selected) + tail;
      KeepSelectedAppend(a, b', statusMap, selected);
    }
  }

  /** Each selected line is kept as many times as it occurs; no other line is kept. */
  lemma {:induction false} KeepSelectedCounts(items: seq<DBOrderItem>, statusMap: map<int, string>, selected: seq<string>, x: DBOrderItem)
    ensures multiset(KeepSelected(items, statusMap, selected))[x] ==
      if StatusSelected(x, statusMap, selected) then multiset(items)[x] else 0
  {
    if items != [] {
      var prefix := items[..|items| - 1];
      assert items == prefix + [items[|items| - 1]];
      KeepSelectedCounts(prefix, statusMap, selected, x);
    }
  }

  /** The filter step: no selection keeps every line. */
  function FilterByStatus(items: seq<DBOrderItem>, statusMap: map<int, string>, selected: seq<string>): (kept: seq<DBOrderItem>)
    ensures selected == [] ==> kept == items
    ensures selected != [] ==> forall x :: x in kept <==> x in items && StatusSelected(x, statusMap, selected)
  {
    if |selected| > 0 then KeepSelected(items, statusMap, selected) else items
  }

  /** The lines the export sums: every copy of each passing line, and nothing else. */
  lemma FilterByStatusCounts(items: seq<DBOrderItem>, statusMap: map<int, string>, selected: seq<string>, x: DBOrderItem)
    ensures multiset(FilterByStatus(items, statusMap, selected))[x] ==
      if selected == [] || StatusSelected(x, statusMap, selected) then multiset(items)[x] else 0
  {
    KeepSelectedCounts(items, statusMap, selected, x);
  }

  // ---------------------------------------------------------------------------
  // The sheet
  // ---------------------------------------------------------------------------

  const TOTALS_LABEL: string := "รวมทั้งหมด"

  /** The totals entry: each code of `ALL_SIZES` at its column sum (`sizeTotals[size] || 0`). */
  function TotalsRow(sizeSummary: seq<SummaryRow>): (row: SummaryRow)
    ensures row.name == TOTALS_LABEL
    ensures forall s :: s in row.counts <==> s in ALL_SIZES
    ensures forall s :: s in ALL_SIZES ==> Cell(row.counts, s) == ColumnSum(sizeSummary, s)
  {
    SummaryRow(TOTALS_LABEL, map s | s in ALL_SIZES :: ColumnSum(sizeSummary, s))
  }

  /** Over any list of valid codes, the totals entry adds up to the sum of the columns. */
  lemma {:induction false} TotalsRowAddsUp(sizeSummary: seq<SummaryRow>, sizes: seq<string>)
    requires forall k :: 0 <= k < |sizes| ==> sizes[k] in ALL_SIZES
    ensures RowTotal(TotalsRow(sizeSummary), sizes) == SumOfColumns(sizeSummary, sizes)
  {
    if sizes != [] {
      TotalsRowAddsUp(sizeSummary, sizes[..|sizes| - 1]);
    }
  }

  /** The totals entry's own total is the grand total. */
  lemma TotalsRowIsGrandTotal(sizeSummary: seq<SummaryRow>)
    ensures RowTotal(TotalsRow(sizeSummary), ALL_SIZES) == CalculateGrandTotal(sizeSummary)
  {
    TotalsRowAddsUp(sizeSummary, ALL_SIZES);
  }

  /** `[...sizeSummary, totals]`, built from the summary and `calculateSizeTotals`. */
  method ExcelData(sizeSummary: seq<SummaryRow>) returns (excelData: seq<SummaryRow>)
    ensures excelData == sizeSummary + [TotalsRow(sizeSummary)]
  {
    var sizeTotals := CalculateSizeTotals(sizeSummary);
    var counts := map s | s in ALL_SIZES :: if s in sizeTotals then sizeTotals[s] else 0;
    assert counts == TotalsRow(sizeSummary).counts;
    excelData := sizeSummary + [SummaryRow(TOTALS_LABEL, counts)];
  }

  /** `[{ wch: 20 }, ...sizes.map(() => ({ wch: 10 }))]`. */
  function ColumnWidths(): (widths: seq<int>)
    ensures |widths| == 1 + |ALL_SIZES|
    ensures widths[0] == 20 && forall k :: 1 <= k < |widths| ==> widths[k] == 10
  {
    [20] + seq(|ALL_SIZES|, _ => 10)
  }

  /** The sheet row (1-based) of entry `i` of the data: row 1 holds the header. */
  function SheetRowOf(i: nat): nat {
    i + 2
  }

  /** The row the handler styles, as written: `excelData.length`. */
  function StyledRowAsWritten(excelData: seq<SummaryRow>): nat {
    |excelData|
  }

  /**
   * As written, the styled row is never the totals row: it is the last design
   * row, or the header when there are no design rows.
   */
  lemma StyledRowMissesTotals(excelData: seq<SummaryRow>)
    requires |excelData| >= 1
    ensures StyledRowAsWritten(excelData) != SheetRowOf(|excelData| - 1)
    ensures |excelData| >= 2 ==> StyledRowAsWritten(excelData) == SheetRowOf(|excelData| - 2)
    ensures |excelData| == 1 ==> StyledRowAsWritten(excelData) == 1
  {
  }

  /** A single design: the styled row 2 is that design's row, the totals sit in row 3. */
  lemma OneDesignStylesWrongRow()
    ensures var rows := [SummaryRow("A", map[])];
      var data := rows + [TotalsRow(rows)];
      StyledRowAsWritten(data) == 2 && SheetRowOf(0) == 2 && SheetRowOf(|data| - 1) == 3
  {
  }

  /** The evidently intended index: the sheet row of the last entry, the totals. */
  function TotalsSheetRow(excelData: seq<SummaryRow>): (r: nat)
    requires |excelData| >= 1
    ensures r == SheetRowOf(|excelData| - 1)
    ensures |excelData| >= 2 ==> r == StyledRowAsWritten(excelData) + 1
  {
    |excelData| + 1
  }

  // ---------------------------------------------------------------------------
  // The handler
  // ---------------------------------------------------------------------------

  /**
   * `GET`: 500 when any of the three queries fails; otherwise the summary of
   * the selected lines followed by the totals entry. The styled row is the one
   * the handler writes, `excelData.length`: the sheet row just above the
   * totals, so the totals row itself stays unstyled. A failed registry query
   * is not an error: the registry is then empty.
   */
  method Export(statusParam: Option<string>, orders: Option<seq<OrderStatus>>, items: Option<seq<DBOrderItem>>,
                designs: Option<seq<DesignInfo>>, comboRows: Option<seq<ComboEdge>>)
    returns (status: Status, excelData: seq<SummaryRow>, styledRow: nat)
    ensures orders.None? || items.None? || designs.None? ==> status == ServerError && excelData == []
    ensures orders.Some? && items.Some? && designs.Some? ==>
      var combos := if comboRows.Some? then Grouped(comboRows.value) else map[];
      var selectedItems := FilterByStatus(items.value, StatusMap(orders.value), ParseStatuses(statusParam));
      var rows := Summary(selectedItems, designs.value, combos);
      status == Ok && excelData == rows + [TotalsRow(rows)] && styledRow == StyledRowAsWritten(excelData) &&
      styledRow + 1 == SheetRowOf(|excelData| - 1)
  {
    if orders.None? || items.None? || designs.None? {
      return ServerError, [], 0;
    }
    var selectedStatuses := ParseStatuses(statusParam);
    var orderStatusMap := StatusMap(orders.value);
    var lines := items.value;
    if |selectedStatuses| > 0 {
      lines := KeepSelected(lines, orderStatusMap, selectedStatuses);
    }
    var comboMap := GetComboRelationships(comboRows);
    var sizeSummary := ProcessSizeSummary(lines, designs.value, comboMap);
    excelData := ExcelData(sizeSummary);
    styledRow := StyledRowAsWritten(excelData);
    status := Ok;
  }
}
