/**
 * The full order export (src/app/api/orders/export/route.ts): three sheets
 * (orders, order lines, and an older size summary) with column widths fitted
 * to their contents.
 */
module OrdersExport {
  import opened Wrappers
  import opened Http
  import opened OrderTypes
  import opened ComboProducts
  import opened SizeSummary

  // ---------------------------------------------------------------------------
  // Status labels
  // ---------------------------------------------------------------------------

  const KNOWN_STATUSES: seq<string> := ["pending", "confirmed", "processing", "completed", "cancelled"]

  /** `getStatusLabel`: the Thai label of a known status; any other status is shown as it is. */
  function StatusLabel(status: string): (shown: string)
    ensures status !in KNOWN_STATUSES ==> shown == status
    ensures status in KNOWN_STATUSES ==> shown != "" && shown !in KNOWN_STATUSES
  {
    match status
    case "pending" => "รอตรวจสอบ"
    case "confirmed" => "ยืนยันการชำระเงิน"
    case "processing" => "กำลังจัดส่ง"
    case "completed" => "จัดส่งแล้ว"
    case "cancelled" => "ยกเลิก"
    case _ => status
  }

  /** The five known statuses get five different labels, so the label identifies the status. */
  lemma StatusLabelsDistinct()
    ensures forall i, j :: 0 <= i < j < |KNOWN_STATUSES| ==> StatusLabel(KNOWN_STATUSES[i]) != StatusLabel(KNOWN_STATUSES[j])
  {
  }

  // ---------------------------------------------------------------------------
  // Row formatters
  // ---------------------------------------------------------------------------

  /** The order fields the export reads; `phone` is optional. */
  datatype Order = Order(id: int, name: string, phone: Option<string>, address: string,
                         isPickup: bool, totalPrice: int, status: string)

  /** A row of the orders sheet (the order date is left out). */
  datatype OrderRow = OrderRow(id: int, name: string, phone: string, address: string, total: int, status: string)

  /** A row of the order-lines sheet. */
  datatype ItemRow = ItemRow(orderId: Option<int>, designName: string, size: string, quantity: int,
                             pricePerUnit: int, lineTotal: int)

  const PICKUP_ADDRESS: string := "รับหน้างาน"

  /** `order.phone || '-'`. */
  function PhoneText(phone: Option<string>): (text: string)
    ensures text != ""
    ensures phone.Some? && phone.value != "" ==> text == phone.value
  {
    if phone.Some? && phone.value != "" then phone.value else "-"
  }

  /** One order as a sheet row. */
  function FormatOrder(o: Order): (r: OrderRow)
    ensures r.id == o.id && r.name == o.name && r.total == o.totalPrice
    ensures r.phone == PhoneText(o.phone)
    ensures r.address == if o.isPickup then PICKUP_ADDRESS else o.address
    ensures r.status == StatusLabel(o.status)
  {
    OrderRow(o.id, o.name, PhoneText(o.phone), if o.isPickup then PICKUP_ADDRESS else o.address, o.totalPrice, StatusLabel(o.status))
  }

  /** One order line as a sheet row: the design's name and the line's total. */
  function FormatItem(item: DBOrderItem, names: map<string, string>): (r: ItemRow)
    ensures r.designName == DisplayName(names, item.design) && r.designName != ""
    ensures r.lineTotal == item.quantity * item.pricePerUnit
    ensures r.orderId == item.orderId && r.size == item.size && r.quantity == item.quantity && r.pricePerUnit == item.pricePerUnit
  {
    ItemRow(item.orderId, DisplayName(names, item.design), item.size, item.quantity, item.pricePerUnit,
            item.quantity * item.pricePerUnit)
  }

  /** Whatever the address field holds, a pickup order never shows it. */
  lemma PickupHidesAddress(o: Order, p: Order)
    requires o.isPickup && p == o.(address := p.address)
    ensures FormatOrder(o).address == FormatOrder(p).address == PICKUP_ADDRESS
  {
  }

  // ---------------------------------------------------------------------------
  // The legacy size summary
  // ---------------------------------------------------------------------------

  /** The nine sizes the legacy summary starts each row with (no 4S, SSS or SS). */
  const LEGACY_SIZES: seq<string> := ["S", "M", "L", "XL", "2XL", "3XL", "4XL", "5XL", "6XL"]

  /** The fixed split the legacy summary applies: design 3 is one design 1 and one design 2. */
  function LegacyRegistry(): ComboMap {
    map["3" := [ComponentInfo("1", 1), ComponentInfo("2", 1)]]
  }

  function LegacyZeroCounts(): (c: Counts)
    ensures forall s :: s in c <==> s in LEGACY_SIZES
    ensures forall s :: Cell(c, s) == 0
  {
    map s | s in LEGACY_SIZES :: 0
  }

  /** One zero row over the nine sizes per catalog id. */
  function LegacyInitial(designs: seq<DesignInfo>): (acc: Accumulator)
    ensures acc.Keys == DesignIds(designs)
    ensures forall d :: d in acc ==> acc[d] == LegacyZeroCounts()
  {
    if designs == [] then map[]
    else
      var prefix := designs[..|designs| - 1];
      assert designs == prefix + [designs[|designs| - 1]];
      assert DesignIds(designs) == DesignIds(prefix) + {designs[|designs| - 1].id};
      LegacyInitial(prefix)[designs[|designs| - 1].id := LegacyZeroCounts()]
  }

  /** One line: design 3 adds its quantity to designs 1 and 2; any other adds to its own row. */
  function LegacyAddItem(acc: Accumulator, item: DBOrderItem): Accumulator {
    if item.design == "3" then AddAt(AddAt(acc, "1", item.size, item.quantity), "2", item.size, item.quantity)
    else AddAt(acc, item.design, item.size, item.quantity)
  }

  function LegacyAccumulate(acc: Accumulator, items: seq<DBOrderItem>): Accumulator {
    if items == [] then acc else LegacyAddItem(LegacyAccumulate(acc, items[..|items| - 1]), items[|items| - 1])
  }

  /** The legacy sheet: a row for every catalog design, combo 3 included. */
  function LegacySummary(items: seq<DBOrderItem>, designs: seq<DesignInfo>): seq<SummaryRow> {
    var acc := LegacyAccumulate(LegacyInitial(designs), items);
    LegacyMatchesRegistry(LegacyInitial(designs), items);
    AccumulateKeys(LegacyInitial(designs), items, LegacyRegistry());
    RowsFor(DistinctIds(designs), acc, NameMap(designs))
  }

  /** The hard-coded split is the general accumulation under the fixed registry. */
  lemma {:induction false} LegacyMatchesRegistry(acc: Accumulator, items: seq<DBOrderItem>)
    ensures LegacyAccumulate(acc, items) == Accumulate(acc, items, LegacyRegistry())
  {
    if items != [] {
      var prefix := items[..|items| - 1];
      LegacyMatchesRegistry(acc, prefix);
      var item := items[|items| - 1];
      if item.design == "3" {
        var before := Accumulate(acc, prefix, LegacyRegistry());
        var comps := LegacyRegistry()["3"];
        assert IsComboItem(item, LegacyRegistry());
        assert comps[..1] == [comps[0]] && comps[..1][..0] == [];
        assert AddComponents(before, comps[..1], item.size, item.quantity) == AddAt(before, "1", item.size, item.quantity * 1);
        assert AddComponents(before, comps, item.size, item.quantity)
          == AddAt(AddAt(before, "1", item.size, item.quantity), "2", item.size, item.quantity * 1);
      }
    }
  }

  /** The line loop of the legacy `processSizeSummary`. */
  method LegacyAddLines(acc0: Accumulator, items: seq<DBOrderItem>) returns (sizeCount: Accumulator)
    ensures sizeCount == LegacyAccumulate(acc0, items)
  {
    sizeCount := acc0;
    for i := 0 to |items|
      invariant sizeCount == LegacyAccumulate(acc0, items[..i])
    {
      assert items[..i + 1][..i] == items[..i];
      ghost var before := sizeCount;
      var design, size, quantity := items[i].design, items[i].size, items[i].quantity;
      if design == "3" {
        sizeCount := LegacySplitLine(sizeCount, size, quantity);
      } else if design in sizeCount && size != "" {
        var designSizes := sizeCount[design];
        sizeCount := sizeCount[design := designSizes[size := Cell(designSizes, size) + quantity]];
      }
      assert sizeCount == LegacyAddItem(before, items[i]);
    }
    assert items[..|items|] == items;
  }

  /** The `['1', '2'].forEach` for a design-3 line: its quantity goes to design 1, then to design 2. */
  method LegacySplitLine(acc0: Accumulator, size: string, quantity: int) returns (sizeCount: Accumulator)
    ensures sizeCount == AddAt(AddAt(acc0, "1", size, quantity), "2", size, quantity)
  {
    sizeCount := acc0;
    var targets := ["1", "2"];
    for t := 0 to 2
      invariant sizeCount == (if t == 0 then acc0
        else if t == 1 then AddAt(acc0, "1", size, quantity)
        else AddAt(AddAt(acc0, "1", size, quantity), "2", size, quantity))
    {
      var designId := targets[t];
      if designId in sizeCount && size != "" {
        var designSizes := sizeCount[designId];
        sizeCount := sizeCount[designId := designSizes[size := Cell(designSizes, size) + quantity]];
      }
    }
  }

  /** The initialising loop of the legacy summary: a zero row per design, in first-appearance order. */
  method LegacyInitRows(designs: seq<DesignInfo>) returns (sizeCount: Accumulator, order: seq<string>)
    ensures sizeCount == LegacyInitial(designs)
    ensures order == DistinctIds(designs)
  {
    sizeCount := map[];
    order := [];
    for i := 0 to |designs|
      invariant sizeCount == LegacyInitial(designs[..i])
      invariant order == DistinctIds(designs[..i])
    {
      assert designs[..i + 1][..i] == designs[..i];
      if designs[i].id !in sizeCount {
        order := order + [designs[i].id];
      }
      sizeCount := sizeCount[designs[i].id := LegacyZeroCounts()];
    }
    assert designs[..|designs|] == designs;
  }

  /** The output loop of the legacy summary: every row in key order. */
  method LegacyCollectRows(order: seq<string>, sizeCount: Accumulator, names: map<string, string>)
    returns (sizeSummary: seq<SummaryRow>)
    requires forall x :: x in order ==> x in sizeCount
    ensures sizeSummary == RowsFor(order, sizeCount, names)
  {
    sizeSummary := [];
    for k := 0 to |order|
      invariant sizeSummary == RowsFor(order[..k], sizeCount, names)
    {
      assert order[..k + 1][..k] == order[..k];
      assert order[k] in order;
      sizeSummary := sizeSummary + [SummaryRow(DisplayName(names, order[k]), sizeCount[order[k]])];
    }
    assert order[..|order|] == order;
  }

  /** The legacy `processSizeSummary`: initialise, add the lines, list every row. */
  method LegacyProcessSizeSummary(items: seq<DBOrderItem>, designs: seq<DesignInfo>) returns (sizeSummary: seq<SummaryRow>)
    ensures sizeSummary == LegacySummary(items, designs)
  {
    var sizeCount, order := LegacyInitRows(designs);
    ghost var initial := sizeCount;
    sizeCount := LegacyAddLines(sizeCount, items);
    LegacyMatchesRegistry(initial, items);
    AccumulateKeys(initial, items, LegacyRegistry());
    sizeSummary := LegacyCollectRows(order, sizeCount, NameMap(designs));
  }

  /**
   * Each legacy cell is what the general summary would count under the fixed
   * registry, and the row has the nine sizes plus every size a line wrote to,
   * valid code or not.
   */
  lemma LegacyCell(items: seq<DBOrderItem>, designs: seq<DesignInfo>, k: nat, s: string)
    requires k < |DistinctIds(designs)|
    ensures |LegacySummary(items, designs)| == |DistinctIds(designs)|
    ensures var d := DistinctIds(designs)[k];
      var row := LegacySummary(items, designs)[k];
      Cell(row.counts, s) == Contributions(items, LegacyRegistry(), d, s) &&
      (s in row.counts <==> s in LEGACY_SIZES || TouchedBy(items, LegacyRegistry(), d, s))
  {
    var d := DistinctIds(designs)[k];
    assert d in DistinctIds(designs);
    LegacyMatchesRegistry(LegacyInitial(designs), items);
    AccumulateCell(LegacyInitial(designs), items, LegacyRegistry(), d, s);
  }

  /**
   * Unlike the general summary, the legacy sheet keeps a row for design 3, and
   * that row is always zero: design-3 lines go to designs 1 and 2 only.
   */
  lemma LegacyKeepsZeroComboRow(items: seq<DBOrderItem>, designs: seq<DesignInfo>, k: nat, s: string)
    requires k < |DistinctIds(designs)| && DistinctIds(designs)[k] == "3"
    ensures |LegacySummary(items, designs)| == |DistinctIds(designs)|
    ensures Cell(LegacySummary(items, designs)[k].counts, s) == 0
    ensures "3" !in SummaryIds(designs, LegacyRegistry())
  {
    LegacyCell(items, designs, k, s);
    NoContributionToThree(items, s);
  }

  lemma {:induction false} NoContributionToThree(items: seq<DBOrderItem>, s: string)
    ensures Contributions(items, LegacyRegistry(), "3", s) == 0
  {
    if items != [] {
      NoContributionToThree(items[..|items| - 1], s);
      var comps := LegacyRegistry()["3"];
      assert comps[..1] == [comps[0]] && comps[..1][..0] == [];
      assert Weight(comps, "3") == 0;
    }
  }

  // ---------------------------------------------------------------------------
  // Column widths
  // ---------------------------------------------------------------------------

  /** A sheet row as text: its keys in insertion order and the `String(...)` of each value. */
  datatype SheetRow = SheetRow(keys: seq<string>, cells: map<string, string>)

  /** `String(row[key])`: a key the row lacks reads as "undefined". */
  function CellText(row: SheetRow, key: string): string {
    if key in row.cells then row.cells[key] else "undefined"
  }

  /** The longest text of a column over the rows (0 for no rows). */
  function LongestCell(data: seq<SheetRow>, key: string): nat {
    if data == [] then 0
    else
      var rest := LongestCell(data[..|data| - 1], key);
      var here := |CellText(data[|data| - 1], key)|;
      if here > rest then here else rest
  }

  /** `Math.max(key.length, ...lengths) + 2`. */
  function ColumnWidth(data: seq<SheetRow>, key: string): int {
    (if |key| > LongestCell(data, key) then |key| else LongestCell(data, key)) + 2
  }

  /** The longest cell is as long as every cell of the column and is one of them. */
  lemma {:induction false} LongestCellIsMax(data: seq<SheetRow>, key: string)
    ensures forall i :: 0 <= i < |data| ==> |CellText(data[i], key)| <= LongestCell(data, key)
    ensures data != [] ==> exists i :: 0 <= i < |data| && |CellText(data[i], key)| == LongestCell(data, key)
  {
    if data != [] {
      var prefix := data[..|data| - 1];
      LongestCellIsMax(prefix, key);
      forall i | 0 <= i < |prefix| ensures data[i] == prefix[i] { }
      var last := |data| - 1;
      if |CellText(data[last], key)| <= LongestCell(prefix, key) && prefix != [] {
        var i :| 0 <= i < |prefix| && |CellText(prefix[i], key)| == LongestCell(prefix, key);
        assert data[i] == prefix[i];
      }
    }
  }

  /**
   * Each width leaves two characters beyond the header and beyond every cell of
   * its column, and is tight for one of them.
   */
  lemma ColumnWidthFits(data: seq<SheetRow>, key: string)
    ensures ColumnWidth(data, key) >= |key| + 2
    ensures forall i :: 0 <= i < |data| ==> ColumnWidth(data, key) >= |CellText(data[i], key)| + 2
    ensures ColumnWidth(data, key) == |key| + 2 ||
      exists i :: 0 <= i < |data| && ColumnWidth(data, key) == |CellText(data[i], key)| + 2
  {
    LongestCellIsMax(data, key);
  }

  /** The inner `Math.max` over one column, as a loop. */
  method ColumnWidthOf(data: seq<SheetRow>, key: string) returns (width: int)
    ensures width == ColumnWidth(data, key)
  {
    var maxLength := 0;
    for i := 0 to |data|
      invariant maxLength == LongestCell(data[..i], key)
    {
      assert data[..i + 1][..i] == data[..i];
      var v := CellText(data[i], key);
      if |v| > maxLength {
        maxLength := |v|;
      }
    }
    assert data[..|data|] == data;
    if |key| > maxLength {
      maxLength := |key|;
    }
    width := maxLength + 2;
  }

  /**
   * The width pass over one sheet, as written: the columns are the keys of the
   * first row, so a sheet with no rows fails (`Object.keys(undefined)` throws)
   * and the export answers 500.
   */
  method SheetColumnWidths(data: seq<SheetRow>) returns (widths: Option<seq<int>>)
    ensures data == [] ==> widths.None?
    ensures data != [] ==> (widths.Some? && |widths.value| == |data[0].keys| &&
      forall k :: 0 <= k < |data[0].keys| ==> widths.value[k] == ColumnWidth(data, data[0].keys[k]))
  {
    if data == [] {
      return None;
    }
    var keys := data[0].keys;
    var ws: seq<int> := [];
    for k := 0 to |keys|
      invariant |ws| == k
      invariant forall j :: 0 <= j < k ==> ws[j] == ColumnWidth(data, keys[j])
    {
      var w := ColumnWidthOf(data, keys[k]);
      ws := ws + [w];
    }
    widths := Some(ws);
  }

  /**
   * The end of the handler, as written: 500 when a query failed; otherwise the
   * width pass runs over the orders, items and size sheets in turn, and the
   * first sheet without rows throws and turns the answer into 500. On success
   * the widths are those of the corrected pass below.
   */
  method ExportOutcome(queriesOk: bool, orders: seq<SheetRow>, items: seq<SheetRow>, sizes: seq<SheetRow>)
    returns (status: Status, widths: seq<seq<int>>)
    ensures status == (if queriesOk && orders != [] && items != [] && sizes != [] then Ok else ServerError)
    ensures status == Ok ==> widths == [SafeSheetColumnWidths(orders), SafeSheetColumnWidths(items), SafeSheetColumnWidths(sizes)]
  {
    if !queriesOk {
      return ServerError, [];
    }
    var sheets := [orders, items, sizes];
    widths := [];
    for n := 0 to |sheets|
      invariant |widths| == n
      invariant forall j :: 0 <= j < n ==> sheets[j] != [] && widths[j] == SafeSheetColumnWidths(sheets[j])
    {
      var w := SheetColumnWidths(sheets[n]);
      if w.None? {
        assert sheets[n] == [] && (n == 0 || n == 1 || n == 2);
        return ServerError, [];
      }
      SameWidths(sheets[n], w.value);
      widths := widths + [w.value];
    }
    assert orders == sheets[0] && items == sheets[1] && sizes == sheets[2];
    assert widths == [widths[0], widths[1], widths[2]];
    status := Ok;
  }

  /** Widths that match the written pass on a sheet with rows are the corrected pass's widths. */
  lemma SameWidths(data: seq<SheetRow>, ws: seq<int>)
    requires data != []
    requires |ws| == |data[0].keys|
    requires forall k :: 0 <= k < |data[0].keys| ==> ws[k] == ColumnWidth(data, data[0].keys[k])
    ensures ws == SafeSheetColumnWidths(data)
  {
  }

  /**
   * As written, a store with no orders yet cannot be exported: the orders
   * sheet is empty, the width pass throws, and the handler answers 500.
   */
  method EmptyStoreExportFails(items: seq<SheetRow>, sizes: seq<SheetRow>) returns (status: Status)
    ensures status == ServerError
  {
    var widths;
    status, widths := ExportOutcome(true, [], items, sizes);
  }

  /** The evidently intended width pass: an empty sheet simply has no columns. */
  function SafeSheetColumnWidths(data: seq<SheetRow>): (widths: seq<int>)
    ensures data == [] ==> widths == []
    ensures data != [] ==> (|widths| == |data[0].keys| &&
      forall k :: 0 <= k < |widths| ==> widths[k] == ColumnWidth(data, data[0].keys[k]))
  {
    if data == [] then []
    else seq(|data[0].keys|, k requires 0 <= k < |data[0].keys| => ColumnWidth(data, data[0].keys[k]))
  }

  /**
   * The corrected end of the handler: the same pass over the three sheets with
   * the corrected widths, so only a failed query answers 500.
   */
  method SafeExportOutcome(queriesOk: bool, orders: seq<SheetRow>, items: seq<SheetRow>, sizes: seq<SheetRow>)
    returns (status: Status, widths: seq<seq<int>>)
    ensures status == (if queriesOk then Ok else ServerError)
    ensures status == Ok ==> widths == [SafeSheetColumnWidths(orders), SafeSheetColumnWidths(items), SafeSheetColumnWidths(sizes)]
  {
    if !queriesOk {
      return ServerError, [];
    }
    var sheets := [orders, items, sizes];
    widths := [];
    for n := 0 to |sheets|
      invariant |widths| == n
      invariant forall j :: 0 <= j < n ==> widths[j] == SafeSheetColumnWidths(sheets[j])
    {
      widths := widths + [SafeSheetColumnWidths(sheets[n])];
    }
    status := Ok;
  }

  /** Corrected, a store with no orders yet exports, and its orders sheet has no columns. */
  method EmptyStoreExportsSafely(items: seq<SheetRow>, sizes: seq<SheetRow>) returns (status: Status, ordersWidths: seq<int>)
    ensures status == Ok && ordersWidths == []
  {
    var widths;
    status, widths := SafeExportOutcome(true, [], items, sizes);
    ordersWidths := widths[0];
  }
}
