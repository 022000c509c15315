/**
 * The status filter above the size table (src/components/SizeSummaryFilters.tsx):
 * five status buttons that toggle, an "all" button, and a note showing how
 * many statuses are selected.
 */
module SizeSummaryFilters {
  import OrdersExport

  /** A status button: the status value and its Thai label. */
  datatype StatusOption = StatusOption(value: string, caption: string)

  const STATUS_OPTIONS: seq<StatusOption> := [
    StatusOption("pending", "รอตรวจสอบ"),
    StatusOption("confirmed", "ยืนยันการชำระเงิน"),
    StatusOption("processing", "กำลังจัดส่ง"),
    StatusOption("completed", "จัดส่งแล้ว"),
    StatusOption("cancelled", "ยกเลิก")
  ]

  function OptionValues(): (values: seq<string>)
    ensures |values| == |STATUS_OPTIONS|
    ensures forall k :: 0 <= k < |values| ==> values[k] == STATUS_OPTIONS[k].value
  {
    seq(|STATUS_OPTIONS|, k requires 0 <= k < |STATUS_OPTIONS| => STATUS_OPTIONS[k].value)
  }

  /** The buttons cover exactly the known statuses and use the export's labels. */
  lemma OptionsMatchExportLabels()
    ensures OptionValues() == OrdersExport.KNOWN_STATUSES
    ensures forall k :: 0 <= k < |STATUS_OPTIONS| ==>
      STATUS_OPTIONS[k].caption == OrdersExport.StatusLabel(STATUS_OPTIONS[k].value)
  {
    assert OptionValues() == ["pending", "confirmed", "processing", "completed", "cancelled"];
  }

  /** `selectedStatuses.filter(s => s !== status)`. */
  function Without(selected: seq<string>, status: string): (r: seq<string>)
    ensures forall x :: x in r <==> x in selected && x != status
    ensures |r| <= |selected|
  {
    if selected == [] then []
    else
      var prefix := selected[..|selected| - 1];
      var last := selected[|selected| - 1];
      assert selected == prefix + [last];
      Without(prefix, status) + (if last == status then [] else [last])
  }

  lemma {:induction false} WithoutAbsent(selected: seq<string>, status: string)
    requires status !in selected
    ensures Without(selected, status) == selected
  {
    if selected != [] {
      var prefix := selected[..|selected| - 1];
      assert selected == prefix + [selected[|selected| - 1]];
      WithoutAbsent(prefix, status);
    }
  }

  lemma {:induction false} WithoutKeepsDistinct(selected: seq<string>, status: string)
    requires Distinct(selected)
    ensures Distinct(Without(selected, status))
  {
    if selected != [] {
      var prefix := selected[..|selected| - 1];
      assert selected == prefix + [selected[|selected| - 1]];
      WithoutKeepsDistinct(prefix, status);
      var last := selected[|selected| - 1];
      forall k | 0 <= k < |prefix| ensures prefix[k] != last {
        assert selected[k] == prefix[k];
      }
      assert last !in Without(prefix, status);
    }
  }

  predicate Distinct(s: seq<string>) {
    forall i, j :: 0 <= i < j < |s| ==> s[i] != s[j]
  }

  /** `handleStatusToggle`: a selected status is removed (every copy), any other is appended. */
  function Toggle(selected: seq<string>, status: string): (r: seq<string>)
    ensures status in selected ==> status !in r && forall x :: x != status ==> (x in r <==> x in selected)
    ensures status !in selected ==> r == selected + [status]
  {
    if status in selected then Without(selected, status) else selected + [status]
  }

  /** Toggling flips the one status and leaves the others as they were. */
  lemma ToggleFlips(selected: seq<string>, status: string, other: string)
    requires other != status
    ensures status in Toggle(selected, status) <==> status !in selected
    ensures other in Toggle(selected, status) <==> other in selected
  {
  }

  /** Toggling twice gives back the same statuses; the very same list when the status was off at first. */
  lemma ToggleTwice(selected: seq<string>, status: string)
    ensures status !in selected ==> Toggle(Toggle(selected, status), status) == selected
    ensures forall x :: x in Toggle(Toggle(selected, status), status) <==> x in selected
  {
    if status !in selected {
      assert (selected + [status])[..|selected|] == selected;
      WithoutAbsent(selected, status);
      assert Without(selected + [status], status) == Without(selected, status) + [];
    }
  }

  /** A selection without repeats keeps none under toggling. */
  lemma ToggleKeepsDistinct(selected: seq<string>, status: string)
    requires Distinct(selected)
    ensures Distinct(Toggle(selected, status))
  {
    if status in selected {
      WithoutKeepsDistinct(selected, status);
    }
  }

  /** `handleSelectAll`: with as many entries as there are options it clears, otherwise it selects every option. */
  function SelectAll(selected: seq<string>): (r: seq<string>)
    ensures |selected| == |STATUS_OPTIONS| ==> r == []
    ensures |selected| != |STATUS_OPTIONS| ==> r == OrdersExport.KNOWN_STATUSES
  {
    OptionsMatchExportLabels();
    if |selected| == |STATUS_OPTIONS| then [] else OptionValues()
  }

  /** The "all" button is highlighted when the selection has as many entries as there are options. */
  predicate AllHighlighted(selected: seq<string>) {
    |selected| == |STATUS_OPTIONS|
  }

  /** `selectedStatuses.length > 0 && selectedStatuses.length < statusOptions.length`: the count shown, if any. */
  function Indicator(selected: seq<string>): (count: int)
    ensures count == 0 <==> (selected == [] || |selected| >= |STATUS_OPTIONS|)
    ensures count != 0 ==> count == |selected| && !AllHighlighted(selected)
  {
    if |selected| > 0 && |selected| < |STATUS_OPTIONS| then |selected| else 0
  }

  lemma {:induction false} DistinctCardinality(s: seq<string>)
    requires Distinct(s)
    ensures |set x | x in s| == |s|
  {
    if s != [] {
      var prefix := s[..|s| - 1];
      var last := s[|s| - 1];
      assert s == prefix + [last];
      DistinctCardinality(prefix);
      assert (set x | x in s) == (set x | x in prefix) + {last};
      assert last !in (set x | x in prefix);
    }
  }

  /**
   * For a selection of known statuses without repeats, the "all" button is
   * highlighted exactly when every status is selected.
   */
  lemma AllHighlightedIff(selected: seq<string>)
    requires Distinct(selected)
    requires forall x :: x in selected ==> x in OrdersExport.KNOWN_STATUSES
    ensures AllHighlighted(selected) <==> forall v :: v in OrdersExport.KNOWN_STATUSES ==> v in selected
  {
    var chosen := set x | x in selected;
    var known := set x | x in OrdersExport.KNOWN_STATUSES;
    DistinctCardinality(selected);
    assert Distinct(OrdersExport.KNOWN_STATUSES);
    DistinctCardinality(OrdersExport.KNOWN_STATUSES);
    assert chosen <= known;
    if AllHighlighted(selected) {
      assert |known - chosen| == |known| - |chosen| == 0;
      forall v | v in OrdersExport.KNOWN_STATUSES ensures v in selected {
        assert v in known;
        assert v !in known - chosen;
      }
    }
    if forall v :: v in OrdersExport.KNOWN_STATUSES ==> v in selected {
      assert known <= chosen;
      assert chosen == known;
    }
  }

  /** Starting from the screen's four default statuses, "all" selects the fifth, and a second press clears. */
  lemma SelectAllFromDefaults()
    ensures var defaults := ["pending", "confirmed", "processing", "completed"];
      Indicator(defaults) == 4 &&
      SelectAll(defaults) == OrdersExport.KNOWN_STATUSES &&
      AllHighlighted(SelectAll(defaults)) &&
      SelectAll(SelectAll(defaults)) == []
  {
  }
}
