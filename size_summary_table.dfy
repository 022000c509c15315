/**
 * The on-screen size table (src/components/SizeSummaryTable.tsx): one line
 * per summary row over the nine sizes S..6XL, a total per line, and a totals
 * line at the bottom.
 */
module SizeSummaryTable {
  import opened ShirtSizes
  import opened SizeSummary

  /** The table's columns: the codes of `ALL_SIZES` from "S" on. */
  const TABLE_SIZES: seq<string> := ["S", "M", "L", "XL", "2XL", "3XL", "4XL", "5XL", "6XL"]

  const NO_DATA: string := "ไม่มีข้อมูล"

  /** One table line: the design's name, its nine cells and the line total. */
  datatype RowView = RowView(name: string, cells: seq<int>, total: int)

  /** The table body: a placeholder spanning every column, or the lines and the totals line. */
  datatype TableView =
    | NoData(colSpan: int, message: string)
    | Rows(rows: seq<RowView>, totals: seq<int>, grandTotal: int)

  /** The sum of a list of numbers. */
  function Sum(xs: seq<int>): int {
    if xs == [] then 0 else Sum(xs[..|xs| - 1]) + xs[|xs| - 1]
  }

  /** The cells a line shows: `row[size] || 0` for each size. */
  function CellsOf(row: SummaryRow, sizes: seq<string>): (cells: seq<int>)
    ensures |cells| == |sizes|
    ensures forall j :: 0 <= j < |sizes| ==> cells[j] == Cell(row.counts, sizes[j])
  {
    seq(|sizes|, j requires 0 <= j < |sizes| => Cell(row.counts, sizes[j]))
  }

  /** The totals line: each column's sum over the data. */
  function ColumnSums(data: seq<SummaryRow>, sizes: seq<string>): (sums: seq<int>)
    ensures |sums| == |sizes|
    ensures forall j :: 0 <= j < |sizes| ==> sums[j] == ColumnSum(data, sizes[j])
  {
    seq(|sizes|, j requires 0 <= j < |sizes| => ColumnSum(data, sizes[j]))
  }

  /** `calculateRowTotal(row, sizes)` is the sum of the cells the line shows. */
  lemma {:induction false} RowTotalIsSumOfCells(row: SummaryRow, sizes: seq<string>)
    ensures Sum(CellsOf(row, sizes)) == RowTotal(row, sizes)
  {
    if sizes != [] {
      var n := |sizes|;
      RowTotalIsSumOfCells(row, sizes[..n - 1]);
      assert CellsOf(row, sizes)[..n - 1] == CellsOf(row, sizes[..n - 1]);
    }
  }

  /** The grand total, the sum of the totals line, is the sum of the column sums. */
  lemma {:induction false} SumOfColumnSums(data: seq<SummaryRow>, sizes: seq<string>)
    ensures Sum(ColumnSums(data, sizes)) == SumOfColumns(data, sizes)
  {
    if sizes != [] {
      var n := |sizes|;
      SumOfColumnSums(data, sizes[..n - 1]);
      assert ColumnSums(data, sizes)[..n - 1] == ColumnSums(data, sizes[..n - 1]);
    }
  }

  function LineOf(row: SummaryRow): RowView {
    RowView(row.name, CellsOf(row, TABLE_SIZES), RowTotal(row, TABLE_SIZES))
  }

  /** What the table shows for `data`. */
  function View(data: seq<SummaryRow>): (v: TableView)
    ensures data == [] <==> v.NoData?
    ensures v.NoData? ==> v.colSpan == |TABLE_SIZES| + 2 && v.message == NO_DATA
    ensures v.Rows? ==> |v.rows| == |data| && |v.totals| == |TABLE_SIZES|
  {
    if data == [] then NoData(|TABLE_SIZES| + 2, NO_DATA)
    else
      var totals := ColumnSums(data, TABLE_SIZES);
      Rows(seq(|data|, k requires 0 <= k < |data| => LineOf(data[k])), totals, Sum(totals))
  }

  /** The line totals shown in the right-hand column. */
  function LineTotals(v: TableView): seq<int>
    requires v.Rows?
  {
    seq(|v.rows|, k requires 0 <= k < |v.rows| => v.rows[k].total)
  }

  lemma {:induction false} SumOfLineTotals(data: seq<SummaryRow>)
    ensures Sum(seq(|data|, k requires 0 <= k < |data| => RowTotal(data[k], TABLE_SIZES))) == SumOfRowTotals(data, TABLE_SIZES)
  {
    if data != [] {
      var n := |data|;
      SumOfLineTotals(data[..n - 1]);
      assert seq(|data|, k requires 0 <= k < |data| => RowTotal(data[k], TABLE_SIZES))[..n - 1]
          == seq(n - 1, k requires 0 <= k < n - 1 => RowTotal(data[..n - 1][k], TABLE_SIZES));
    }
  }

  /**
   * The table adds up: every line total is the sum of its cells, and the
   * bottom-right grand total is both the sum of the totals line and the sum
   * of the line totals.
   */
  lemma TableAddsUp(data: seq<SummaryRow>)
    requires data != []
    ensures var v := View(data);
      (forall k :: 0 <= k < |v.rows| ==> v.rows[k].total == Sum(v.rows[k].cells)) &&
      v.grandTotal == Sum(v.totals) &&
      v.grandTotal == Sum(LineTotals(v))
  {
    var v := View(data);
    forall k | 0 <= k < |v.rows| ensures v.rows[k].total == Sum(v.rows[k].cells) {
      RowTotalIsSumOfCells(data[k], TABLE_SIZES);
    }
    SumOfColumnSums(data, TABLE_SIZES);
    SumsCommute(data, TABLE_SIZES);
    SumOfLineTotals(data);
    assert LineTotals(v) == seq(|data|, k requires 0 <= k < |data| => RowTotal(data[k], TABLE_SIZES));
  }

  /** `calculateTotals`: one entry per listed size, that column's sum. */
  method CalculateTotals(data: seq<SummaryRow>, sizes: seq<string>) returns (totals: map<string, int>)
    ensures forall s :: s in totals <==> s in sizes
    ensures forall s :: s in totals ==> totals[s] == ColumnSum(data, s)
  {
    totals := map[];
    for i := 0 to |sizes|
      invariant forall s :: s in totals <==> s in sizes[..i]
      invariant forall s :: s in totals ==> totals[s] == ColumnSum(data, s)
    {
      assert sizes[..i + 1] == sizes[..i] + [sizes[i]];
      var total := 0;
      for r := 0 to |data|
        invariant total == ColumnSum(data[..r], sizes[i])
      {
        assert data[..r + 1][..r] == data[..r];
        total := total + Cell(data[r].counts, sizes[i]);
      }
      assert data[..|data|] == data;
      totals := totals[sizes[i] := total];
    }
    assert sizes[..|sizes|] == sizes;
  }

  /** The component: the placeholder for no data, otherwise the lines, the totals and the grand total. */
  method Render(data: seq<SummaryRow>) returns (v: TableView)
    ensures v == View(data)
  {
    if |data| == 0 {
      return NoData(|TABLE_SIZES| + 2, NO_DATA);
    }
    var totals := CalculateTotals(data, TABLE_SIZES);
    var column := seq(|TABLE_SIZES|, j requires 0 <= j < |TABLE_SIZES| => totals[TABLE_SIZES[j]]);
    assert column == ColumnSums(data, TABLE_SIZES);
    var grandTotal := 0;
    for j := 0 to |column|
      invariant grandTotal == Sum(column[..j])
    {
      assert column[..j + 1][..j] == column[..j];
      grandTotal := grandTotal + column[j];
    }
    assert column[..|column|] == column;
    v := Rows(seq(|data|, k requires 0 <= k < |data| => LineOf(data[k])), column, grandTotal);
  }

  // ---------------------------------------------------------------------------
  // The table against the library's statistics
  // ---------------------------------------------------------------------------

  lemma {:induction false} RowTotalSplit(row: SummaryRow, a: seq<string>, b: seq<string>)
    ensures RowTotal(row, a + b) == RowTotal(row, a) + RowTotal(row, b)
  {
    if b != [] {
      var n := |b|;
      RowTotalSplit(row, a, b[..n - 1]);
      assert (a + b)[..|a + b| - 1] == a + b[..n - 1];
      assert (a + b)[|a + b| - 1] == b[n - 1];
    } else {
      assert a + b == a;
    }
  }

  lemma {:induction false} SumOfRowTotalsSplit(data: seq<SummaryRow>, a: seq<string>, b: seq<string>)
    ensures SumOfRowTotals(data, a + b) == SumOfRowTotals(data, a) + SumOfRowTotals(data, b)
  {
    if data != [] {
      SumOfRowTotalsSplit(data[..|data| - 1], a, b);
      RowTotalSplit(data[|data| - 1], a, b);
    }
  }

  /**
   * The table's grand total leaves out the three smallest codes that
   * `calculateGrandTotal` counts: the two differ by exactly the 4S, SSS and
   * SS counts.
   */
  lemma TableGrandTotalOmitsSmallSizes(data: seq<SummaryRow>)
    requires data != []
    ensures CalculateGrandTotal(data) == View(data).grandTotal + SumOfRowTotals(data, ["4S", "SSS", "SS"])
  {
    assert ALL_SIZES == ["4S", "SSS", "SS"] + TABLE_SIZES;
    SumOfRowTotalsSplit(data, ["4S", "SSS", "SS"], TABLE_SIZES);
    SumOfColumnSums(data, TABLE_SIZES);
    SumsCommute(data, TABLE_SIZES);
  }

  /** A line with only a 4S count shows nothing in the table but counts in the library's grand total. */
  lemma SmallSizeOnlyInLibraryTotal()
    ensures var data := [SummaryRow("A", map["4S" := 1])];
      View(data).grandTotal == 0 && CalculateGrandTotal(data) == 1
  {
    var data := [SummaryRow("A", map["4S" := 1])];
    TableGrandTotalOmitsSmallSizes(data);
    assert data[..0] == [];
    var small: seq<string> := ["4S", "SSS", "SS"];
    assert small[..2] == ["4S", "SSS"] && small[..2][..1] == ["4S"] && small[..2][..1][..0] == [];
    assert RowTotal(data[0], small[..2][..1][..0]) == 0;
    assert RowTotal(data[0], small[..2][..1]) == 1;
    assert RowTotal(data[0], small[..2]) == 1;
    assert RowTotal(data[0], small) == 1;
    assert SumOfRowTotals(data, small) == 1;
    assert View(data).grandTotal == Sum(ColumnSums(data, TABLE_SIZES));
    SumOfColumnSums(data, TABLE_SIZES);
    SumsCommute(data, TABLE_SIZES);
    RowTotalOnSizes(data[0], SummaryRow("A", map[]), TABLE_SIZES);
    ZeroRowTotal(TABLE_SIZES);
  }

  lemma {:induction false} ZeroRowTotal(sizes: seq<string>)
    ensures RowTotal(SummaryRow("A", map[]), sizes) == 0
  {
    if sizes != [] {
      ZeroRowTotal(sizes[..|sizes| - 1]);
    }
  }
}
