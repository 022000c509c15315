# shirt-order-next, modelled in Dafny

shirt-order-next is a Next.js shop for event shirts. Customers fill in an
order form. Administrators manage orders, "combo" products and the size
summary that tells the print shop how many shirts of each design and size to
make.

This project models that core in Dafny and proves properties of it.

- **Sizes**: the twelve size codes and `isValidSize` (`ShirtSizes`).
- **Combo products** (`ComboProducts`):
  - the registry built from the `shirt_combo_components` rows;
  - `expandComboItems`, which replaces one combo line by one line per component, with the quantity scaled.
- **The size summary** (`SizeSummary`):
  - `processSizeSummary` and its statistics: `calculateSizeTotals`, `calculateGrandTotal`, `getMostPopularDesign` and `getMostPopularSize`.
  - The matrix is proved cell by cell against a closed form. Each cell is the sum of what the lines contribute, combo lines split by multiplier.
- **The combo API route** (`CombosRoute`):
  - GET groups the rows per combo.
  - POST validates, sets the flag, deletes the old rows and inserts the new ones.
  - DELETE removes the rows and clears the flag.
  - Each database write can fail. The store is a class whose fields those writes update.
- **The admin combo screen** (`AdminCombosClient`): the edit dialog as a class, its four validation checks, and the design lists it offers.
- **The orders export** (`OrdersExport`):
  - status labels and row formatting;
  - the legacy hard-coded size summary;
  - the automatic column widths.
- **The size-summary export** (`SizeSummaryExport`):
  - the `statuses` parameter and the status filter;
  - the totals row, the column widths and the styled row.
- **The size-summary screen**:
  - the client filter and sort, as an in-place array insertion sort (`SizeSummaryClient`);
  - the table with its row, column and grand totals (`SizeSummaryTable`);
  - the status filter buttons (`SizeSummaryFilters`).
- **The order form** (`ShirtOrderForm`): prices, running total, line edits, validation and submission, with the form as a class.
- **The admin order table** (`AdminOrderTable`): selection states, status labels and the per-row update flags.
- **The image carousel** (`ImageCarousel`): a class holding the current index.
- **The admin gate** (`Middleware`).

Helper modules:
- `Wrappers`: `Option`.
- `Http`: response statuses.
- `ListOps`: index removal.
- `OrderTypes`: order lines, designs, the combo registry and its rows, and summary rows.

Several contrasts between parts of the system are stated as lemmas:
- With no status selected, the screen shows nothing, but the export includes every line.
- Lines whose order id is 0 are kept only by the export.
- The table's grand total leaves out the 4S, SSS and SS columns, which the library's grand total counts.
- The gate wants a non-empty cookie, while the combo API only asks that the cookie be present.
- The server accepts combos that the admin screen refuses: a component listed twice, or a combo that contains itself.

`src/components/ShirtOrderForm.tsx` reads its catalogue from a `SHIRT_DESIGNS` constant. `src/constants/shirt-designs.ts` does not define that constant, so the form takes the catalogue as a parameter.

## Model

| member | source | states |
|---|---|---|
| ShirtSizes.SizesAreTwelveCodes | src/constants/shirt-designs.ts:7-11 | The size list is exactly 4S, SSS, SS, S, M, L, XL, 2XL, 3XL, 4XL, 5XL, 6XL in that order, and ALL_SIZES is the same list |
| ShirtSizes.SizesDistinct | src/constants/shirt-designs.ts:7 | No size code appears twice |
| ShirtSizes.IsValidSizeIff | src/constants/shirt-designs.ts:17-19 | A size is valid exactly when it is one of the twelve codes; the match is case-sensitive, so "m" and "" are rejected |
| ListOps.RemoveAt | src/components/ShirtOrderForm.tsx:100 | Filtering out index i keeps every earlier entry in place and shifts every later one down by one; an out-of-range index changes nothing |
| ListOps.RemoveAtIsSplice | src/components/AdminCombosClient.tsx:102 | Removing a valid index is the same as joining the parts before and after it |
| ComboProducts.ComponentsOfNonEmpty | src/lib/combo-products.ts:39-49 | A combo has a non-empty component list exactly when some row names it |
| ComboProducts.RowPlacedInOrder | src/lib/combo-products.ts:39-49 | Each row's component sits in its combo's list at the position given by how many earlier rows name that combo, so query order is kept |
| ComboProducts.GroupedSnoc | src/lib/combo-products.ts:40-48 | One more row creates its combo's list on first sight, or else appends to it; every other combo is untouched |
| ComboProducts.GroupEdges | src/lib/combo-products.ts:39-51 | The grouping loop builds the registry of the rows: its keys are exactly the combos named, and no list is empty |
| ComboProducts.GetComboRelationships | src/lib/combo-products.ts:27-52 | A failed query gives the empty registry; otherwise the result is the grouping of the rows, with a non-empty list per key |
| ComboProducts.ReadOrderSorted | src/lib/combo-products.ts:28-32 | The query returns the rows sorted by combo id, then by component id |
| ComboProducts.ReadOrderComponents | src/lib/combo-products.ts:28-32 | Reading the rows back gives each combo the components stored for it, as a multiset |
| ComboProducts.SortedComponents | src/lib/combo-products.ts:28-32 | In rows read in that order, each combo's components are sorted by component id |
| ComboProducts.ReadRegistry | src/lib/combo-products.ts:28-51 | The registry read back has a key exactly for each combo with rows. Its list is the stored components, as a multiset, sorted by component id |
| ComboProducts.ExpandOne | src/lib/combo-products.ts:163-171 | A combo line becomes one line per component, in order. Each takes the component's design and quantity times its multiplier, and keeps the size, price and order id |
| ComboProducts.ExpandComboItems | src/lib/combo-products.ts:151-179 | The loop's output is the expansion of the input: each line's own expansion, in input order |
| ComboProducts.ExpandedAppend | src/lib/combo-products.ts:160-176 | Expanding a concatenation is concatenating the expansions |
| ComboProducts.ExpandedLength | src/lib/combo-products.ts:160-176 | The output length is the number of components of each combo line plus one for each other line |
| ComboProducts.ExpandedAt | src/lib/combo-products.ts:160-176 | Line i's expansion appears contiguously in the output, right after the expansions of the lines before it |
| ComboProducts.ExpandedWithoutCombos | src/lib/combo-products.ts:172-175 | A list without combo lines comes back unchanged |
| ComboProducts.ExpansionIsOneLevel | src/lib/combo-products.ts:163-171 | Expansion is not recursive: a combo whose component is itself a combo yields that component's line, and only a second pass expands it |
| ComboProducts.ExpandedKeepsUnits | src/lib/combo-products.ts:151-179 | Expansion preserves units: the output's total quantity equals the input's, where a combo line counts its quantity times the sum of its multipliers |
| SizeSummary.ZeroCounts | src/lib/size-summary.ts:57 | A fresh row has exactly the ALL_SIZES keys, each at 0 |
| SizeSummary.AddComponentsCell | src/lib/size-summary.ts:72-77 | A combo line adds quantity times the component's multiplier total to that component's cell at the line's size, and nothing elsewhere. An empty size adds nothing |
| SizeSummary.AccumulateCell | src/lib/size-summary.ts:62-83 | After all lines, each cell of a known design is its starting value plus the contributions of all lines. A cell is present exactly when it started present or some line wrote it |
| SizeSummary.DistinctIds | src/lib/size-summary.ts:54-59 | The design order of the Map is the catalogue ids, each once, at first appearance |
| SizeSummary.InitialAccumulator | src/lib/size-summary.ts:54-59 | One zero row for each catalogue id |
| SizeSummary.KeptIds | src/lib/size-summary.ts:87-88 | The rows kept are exactly the ids that are not combo keys, in order |
| SizeSummary.RowsFor | src/lib/size-summary.ts:89-92 | Each kept id becomes one row with its display name ("ไม่ระบุ" when unnamed) and its counts |
| SizeSummary.FinalAccumulator | src/lib/size-summary.ts:54-83 | Processing the lines never adds or drops a design: the keys stay the catalogue ids |
| SizeSummary.BuildNameMap | src/lib/size-summary.ts:52 | The name map is built from the catalogue; a later duplicate id overrides the earlier name |
| SizeSummary.InitRows | src/lib/size-summary.ts:54-59 | The initialising loop gives the zero accumulator and the first-appearance id order |
| SizeSummary.AddComboLine | src/lib/size-summary.ts:72-77 | The inner component loop adds the combo line's contribution |
| SizeSummary.AddLines | src/lib/size-summary.ts:62-83 | The line loop gives the accumulation of all lines |
| SizeSummary.CollectRows | src/lib/size-summary.ts:87-92 | The output loop gives one row per non-combo id, in key order |
| SizeSummary.KeptRowsAreRowsFor | src/lib/size-summary.ts:87-92 | Filtering out combo ids while building the rows gives the rows of exactly the non-combo ids, in the same order |
| SizeSummary.ProcessSizeSummary | src/lib/size-summary.ts:43-95 | processSizeSummary returns the summary function's rows, which the lemmas below characterise |
| SizeSummary.SummaryCell | src/lib/size-summary.ts:43-95 | Row k is the k-th non-combo catalogue design, under its display name. Each cell is the sum of all lines' contributions. A size key is present exactly when it is in ALL_SIZES or some line wrote it |
| SizeSummary.SummaryRowsAreNonComboCatalog | src/lib/size-summary.ts:54-59 | The rows are exactly the catalogue designs that are not combos, each once |
| SizeSummary.UniqueCatalogKeepsOrder | src/lib/size-summary.ts:54-59 | With unique catalogue ids, the row order is the catalogue order |
| SizeSummary.UntouchedDesignHasZeroRow | src/lib/size-summary.ts:55-59 | A design that no line writes to has the all-zero row over ALL_SIZES |
| SizeSummary.SummaryAddsLine | src/lib/size-summary.ts:62-83 | Appending one line changes each cell by exactly that line's contribution and keeps the names |
| SizeSummary.WorkedExample | src/lib/size-summary.ts:68-82 | With combo 3 = 1 + 2, lines 3/L×2 and 1/L×1 give A:L = 3 and B:L = 2, and no combo row |
| SizeSummary.ExampleRows | src/lib/size-summary.ts:87-92 | In the worked example, combo 3 is dropped and designs 1 and 2 keep their names |
| SizeSummary.ExampleCells | src/lib/size-summary.ts:68-82 | The worked example's cells, computed from the contributions |
| SizeSummary.SumsCommute | src/lib/size-summary.ts:103-125 | Adding the column sums gives the same number as adding the row totals |
| SizeSummary.CalculateSizeTotals | src/lib/size-summary.ts:103-115 | One key per code of ALL_SIZES, each that column's sum over the rows (a missing cell counts 0) |
| SizeSummary.CalculateGrandTotal | src/lib/size-summary.ts:123-125 | The grand total is the sum of every row's total over ALL_SIZES |
| SizeSummary.GrandTotalIgnoresOtherSizes | src/lib/size-summary.ts:103-125 | Summaries that agree on every ALL_SIZES cell have the same grand total; other keys do not count |
| SizeSummary.GetMostPopularDesign | src/lib/size-summary.ts:133-151 | "" when no row total is positive; otherwise the name of the first row with the largest total |
| SizeSummary.GetMostPopularSize | src/lib/size-summary.ts:159-172 | "" when no column total is positive; otherwise the first size code, in ALL_SIZES order, with the largest column total |
| CombosRoute.FirstRejected | src/app/api/admin/combos/route.ts:105-112 | Finds the first component without an id or with a multiplier that is not positive, or reports that none exists |
| CombosRoute.NewEdges | src/app/api/admin/combos/route.ts:132-136 | POST inserts one row per submitted component, in order, carrying the combo id |
| CombosRoute.SetFlag | src/app/api/admin/combos/route.ts:116-121 | Setting is_combo changes only that design's flag, and only if it exists |
| CombosRoute.RemoveEdgesOfComponents | src/app/api/admin/combos/route.ts:123-129 | After deleting a combo's rows, the registry has no components for it and keeps every other combo's components |
| CombosRoute.NewEdgesComponents | src/app/api/admin/combos/route.ts:132-142 | The inserted rows, in insert order, carry exactly the submitted components under the combo and no other combo |
| CombosRoute.RemoveEdgesOfIdempotent | src/app/api/admin/combos/route.ts:183-188 | Deleting a combo's rows twice is the same as once |
| CombosRoute.ServerAcceptsDuplicateAndSelfReference | src/app/api/admin/combos/route.ts:97-112 | The server accepts a repeated component and a self-reference. It rejects a zero multiplier, an empty list and a missing combo id |
| CombosRoute.ComboStore.Post | src/app/api/admin/combos/route.ts:84-156 | 401 without the cookie and 400 for a bad body, with no change. Otherwise each step applies in turn (flag, delete, insert); the first failing write answers 500 with the earlier writes kept; all succeeding answers 200 |
| CombosRoute.ComboStore.Delete | src/app/api/admin/combos/route.ts:162-210 | 401 or 400 with no change. Otherwise rows are deleted, then the flag is cleared; a failure answers 500 with the earlier writes kept |
| CombosRoute.PostComponents | src/app/api/admin/combos/route.ts:123-142 | After a full POST the table's rows for the combo are the submitted components, and other combos keep their rows |
| CombosRoute.PostReplacesComponents | src/app/api/admin/combos/route.ts:123-142 | After a full POST, the registry read back lists the combo with exactly the submitted components, as a multiset and sorted by component id rather than in submission order. Every other combo reads back what it had |
| CombosRoute.FailedInsertLeavesEmptyCombo | src/app/api/admin/combos/route.ts:116-142 | If the insert fails after the flag and the delete succeeded, the design is flagged as a combo but has no components |
| CombosRoute.DeleteIsIdempotent | src/app/api/admin/combos/route.ts:183-196 | Repeating a successful DELETE changes nothing more, and other combos keep their components |
| CombosRoute.ViewsOf | src/app/api/admin/combos/route.ts:58-63 | Each component row is shown with its id, its multiplier and the design's name ("Unknown" when missing), in order |
| CombosRoute.FirstAppearance | src/app/api/admin/combos/route.ts:48-56 | The combos are listed in order of first appearance, each once, exactly those named by some row |
| CombosRoute.GroupViewSnoc | src/app/api/admin/combos/route.ts:49-63 | One more row appends one component view to its own combo's group only |
| CombosRoute.AddRow | src/app/api/admin/combos/route.ts:50-63 | One forEach step keeps the groups equal to the grouping of the rows seen so far |
| CombosRoute.GroupRows | src/app/api/admin/combos/route.ts:48-64 | The forEach builds one group per combo, in first-appearance order, each holding its rows' components in row order |
| CombosRoute.InOrder | src/app/api/admin/combos/route.ts:67 | The groups are listed in key order |
| CombosRoute.Get | src/app/api/admin/combos/route.ts:10-78 | 401 without the cookie and 500 when a query fails. Otherwise 200, with one view per combo in first-appearance order |
| CombosRoute.GetMatchesRegistry | src/app/api/admin/combos/route.ts:48-64 | The admin view lists, for each combo, the same components and multipliers in the same order as the registry used for the size summary |
| AdminCombosClient.DuplicateCheckIff | src/components/AdminCombosClient.tsx:143-144 | The check that the list size differs from its set's size detects exactly the lists that repeat an id |
| AdminCombosClient.ValidateCombo | src/components/AdminCombosClient.tsx:119-164 | Reports the first failed check, each as an if-and-only-if: no combo chosen; a component without an id or with a multiplier that is not positive; a repeated id; the combo among its own components. Otherwise the combo is sent |
| AdminCombosClient.ClientChecksIncludeServerChecks | src/components/AdminCombosClient.tsx:119-175 | A non-empty list the screen sends passes the server's POST validation |
| AdminCombosClient.ServerIsLaxer | src/components/AdminCombosClient.tsx:143-164 | The screen refuses a repeated component and a self-reference, and the server accepts both |
| AdminCombosClient.ComponentChoices | src/components/AdminCombosClient.tsx:231-233 | The component picker offers exactly the designs not flagged as combos |
| AdminCombosClient.ComponentChoicesCounts | src/components/AdminCombosClient.tsx:231-233 | Each non-combo design is offered as often as the catalogue lists it, and no combo is offered |
| AdminCombosClient.ComponentChoicesAppend | src/components/AdminCombosClient.tsx:231-233 | The picker of a concatenated catalogue is the two pickers concatenated, so catalogue order is kept |
| AdminCombosClient.ComboChoices | src/components/AdminCombosClient.tsx:227-229 | The combo picker offers exactly the designs not flagged as combos, plus the combo being edited |
| AdminCombosClient.ChoicesRelated | src/components/AdminCombosClient.tsx:227-233 | The combo picker is the component picker plus the edited combo, and the component picker never offers a combo |
| AdminCombosClient.MultiplierEntry | src/components/AdminCombosClient.tsx:380 | A typed multiplier that cannot be parsed, or is 0, becomes 1; any other number is kept as is, negatives included |
| AdminCombosClient.NegativeEntryRejected | src/components/AdminCombosClient.tsx:131-140 | A negative multiplier gets through the field but makes validation report an incomplete component |
| AdminCombosClient.FormEntries | src/components/AdminCombosClient.tsx:80-85 | Editing loads the combo's components and multipliers in order |
| AdminCombosClient.ComboDialog.constructor | src/components/AdminCombosClient.tsx:40-48 | The dialog starts closed, with no combo and one blank component |
| AdminCombosClient.ComboDialog.OpenCreate | src/components/AdminCombosClient.tsx:74-78 | Opening for a new combo clears the choice and leaves one blank component |
| AdminCombosClient.ComboDialog.OpenEdit | src/components/AdminCombosClient.tsx:80-87 | Opening for a combo loads its id and components |
| AdminCombosClient.ComboDialog.AddComponent | src/components/AdminCombosClient.tsx:89-91 | Adds one blank entry at the end and leaves the rest |
| AdminCombosClient.ComboDialog.RemoveComponent | src/components/AdminCombosClient.tsx:93-103 | Refused when one entry is left; otherwise removes the entry at that index |
| AdminCombosClient.ComboDialog.UpdateComponent | src/components/AdminCombosClient.tsx:105-112 | Changes one field of one entry and nothing else |
| AdminCombosClient.ComboDialog.Submit | src/components/AdminCombosClient.tsx:114-197 | The verdict is the validation of the dialog's contents, and a request is sent exactly when it passes. The dialog closes only after an accepted request, and the submitting flag always ends false |
| AdminCombosClient.RemoveKeepsOneEntry | src/components/AdminCombosClient.tsx:93-103 | The dialog never drops below one component entry |
| OrdersExport.StatusLabel | src/app/api/orders/export/route.ts:34-43 | The five known statuses get a non-empty Thai label that is not itself a status; any other status is shown unchanged |
| OrdersExport.StatusLabelsDistinct | src/app/api/orders/export/route.ts:35-41 | The five labels are pairwise different |
| OrdersExport.PhoneText | src/app/api/orders/export/route.ts:49 | A missing or empty phone is shown as "-"; any other is shown as is |
| OrdersExport.FormatOrder | src/app/api/orders/export/route.ts:46-54 | An order row carries the id, name, total, the phone text, "รับหน้างาน" for pickup or else the address, and the status label |
| OrdersExport.FormatItem | src/app/api/orders/export/route.ts:56-63 | An item row carries the design's name ("ไม่ระบุ" when unknown) and quantity times unit price as the line total |
| OrdersExport.PickupHidesAddress | src/app/api/orders/export/route.ts:50 | A pickup order never shows its address, whatever the field holds |
| OrdersExport.LegacyInitial | src/app/api/orders/export/route.ts:70-75 | The legacy summary starts with one zero row per design over its nine sizes, S to 6XL |
| OrdersExport.LegacyMatchesRegistry | src/app/api/orders/export/route.ts:77-96 | The hard-coded rule (design 3 counts once for designs 1 and 2) is the general combo accumulation under the fixed registry 3 = 1×1 + 2×1 |
| OrdersExport.LegacyInitRows | src/app/api/orders/export/route.ts:70-75 | The initialising loop yields the legacy zero rows and the design ids in first-seen order, the order a Map keeps |
| OrdersExport.LegacyAddLines | src/app/api/orders/export/route.ts:77-96 | The legacy line loop performs that accumulation |
| OrdersExport.LegacySplitLine | src/app/api/orders/export/route.ts:84-90 | A design-3 line adds its quantity at its size to design 1 and then to design 2, each only when that design has a row |
| OrdersExport.LegacyCollectRows | src/app/api/orders/export/route.ts:99-102 | The output loop gives one named row per design id in map order, combos included |
| OrdersExport.LegacyProcessSizeSummary | src/app/api/orders/export/route.ts:66-105 | The legacy summary lists every catalogue design once, with no combo row removed |
| OrdersExport.LegacyCell | src/app/api/orders/export/route.ts:66-105 | Each legacy cell is the sum of the contributions under the fixed registry; a key is present for the nine sizes or a size some line wrote |
| OrdersExport.LegacyKeepsZeroComboRow | src/app/api/orders/export/route.ts:99-102 | The legacy summary keeps a row for design 3, all zeros, which the current summary drops |
| OrdersExport.LongestCellIsMax | src/app/api/orders/export/route.ts:138-142 | The longest cell is at least as long as every cell of the column and is one of them |
| OrdersExport.ColumnWidthFits | src/app/api/orders/export/route.ts:137-144 | A column is 2 wider than its longest text, header included, and exactly that |
| OrdersExport.ColumnWidthOf | src/app/api/orders/export/route.ts:138-143 | The max loop computes that width |
| OrdersExport.SheetColumnWidths | src/app/api/orders/export/route.ts:133-147 | As written, an empty sheet has no first row and the pass fails. Otherwise there is one width per key of the first row |
| OrdersExport.ExportOutcome | src/app/api/orders/export/route.ts:123-168 | As written, the answer is 500 exactly when a query fails or one of the three sheets has no rows. On success each sheet's widths are the corrected pass's widths |
| OrdersExport.EmptyStoreExportFails | src/app/api/orders/export/route.ts:125-134 | As written, exporting a store with no orders answers 500 |
| OrdersExport.SafeSheetColumnWidths | src/app/api/orders/export/route.ts:133-147 | The corrected pass gives an empty sheet no columns and agrees with the written pass on every non-empty sheet |
| OrdersExport.SafeExportOutcome | src/app/api/orders/export/route.ts:123-168 | The corrected export fails exactly when a query fails. Its widths are the corrected pass's widths, which are the written export's widths whenever that succeeds |
| OrdersExport.EmptyStoreExportsSafely | src/app/api/orders/export/route.ts:125-134 | Corrected, a store with no orders exports, and its orders sheet has no column widths |
| SizeSummaryExport.Split | src/app/api/admin/size-summary/export/route.ts:19 | Splitting gives at least one piece, and no piece holds the separator |
| SizeSummaryExport.SplitThenJoin | src/app/api/admin/size-summary/export/route.ts:19 | Joining the pieces of a split gives the string back |
| SizeSummaryExport.JoinThenSplit | src/app/api/admin/size-summary/export/route.ts:19 | Splitting a join of comma-free pieces gives the pieces back |
| SizeSummaryExport.ParseStatuses | src/app/api/admin/size-summary/export/route.ts:18-19 | An absent or empty parameter selects nothing. Otherwise the selection is the comma-separated pieces, at least one, joining back to the parameter |
| SizeSummaryExport.KeepSelected | src/app/api/admin/size-summary/export/route.ts:41-44 | Keeps exactly the lines whose order has a non-empty status that is selected |
| SizeSummaryExport.KeepSelectedCounts | src/app/api/admin/size-summary/export/route.ts:41-44 | Each kept line is kept as many times as it occurs, so no selected shirt is lost or doubled |
| SizeSummaryExport.KeepSelectedAppend | src/app/api/admin/size-summary/export/route.ts:41-44 | Filtering a concatenation filters each part, so the kept lines stay in their order |
| SizeSummaryExport.FilterByStatus | src/app/api/admin/size-summary/export/route.ts:40-45 | An empty selection keeps every line; otherwise only the selected lines are kept |
| SizeSummaryExport.FilterByStatusCounts | src/app/api/admin/size-summary/export/route.ts:40-45 | Every copy of each passing line is kept, and nothing else |
| SizeSummaryExport.TotalsRow | src/app/api/admin/size-summary/export/route.ts:59-62 | The last entry is labelled "รวมทั้งหมด" and has one cell per ALL_SIZES code, each that column's total |
| SizeSummaryExport.TotalsRowAddsUp | src/app/api/admin/size-summary/export/route.ts:59-62 | Over any list of valid codes, the totals entry adds up to the sum of those columns |
| SizeSummaryExport.TotalsRowIsGrandTotal | src/app/api/admin/size-summary/export/route.ts:52-62 | The totals entry's own total is the grand total |
| SizeSummaryExport.ExcelData | src/app/api/admin/size-summary/export/route.ts:57-63 | The sheet data are the summary rows followed by the totals entry |
| SizeSummaryExport.ColumnWidths | src/app/api/admin/size-summary/export/route.ts:70-74 | Width 20 for the name column and 10 for each of the twelve size columns |
| SizeSummaryExport.StyledRowMissesTotals | src/app/api/admin/size-summary/export/route.ts:77-85 | As written, the styled row is never the totals row: it is the last design row, or the header when there is no design |
| SizeSummaryExport.OneDesignStylesWrongRow | src/app/api/admin/size-summary/export/route.ts:77-85 | With one design, row 2 (the design) is styled while the totals sit in row 3 |
| SizeSummaryExport.TotalsSheetRow | src/app/api/admin/size-summary/export/route.ts:77 | The corrected index is the sheet row of the totals entry, one below the row the code styles |
| SizeSummaryExport.Export | src/app/api/admin/size-summary/export/route.ts:14-107 | 500 if the orders, items or designs query fails. Otherwise the data are the summary of the status-filtered lines, followed by the totals entry. The styled row is `excelData.length`, the sheet row just above the totals row |
| SizeSummaryClient.FilteredItems | src/components/SizeSummaryClient.tsx:64-70 | Shows exactly the lines whose order id is set and non-zero and whose order's status is non-empty and selected |
| SizeSummaryClient.FilteredItemsCounts | src/components/SizeSummaryClient.tsx:64-70 | Each shown line appears as many times as it occurs among all lines |
| SizeSummaryClient.FilteredItemsAppend | src/components/SizeSummaryClient.tsx:64-70 | Filtering a concatenation filters each part, so the shown lines stay in their order |
| SizeSummaryClient.EmptySelectionShowsNothing | src/components/SizeSummaryClient.tsx:64-70 | With no status selected the screen shows no line |
| SizeSummaryClient.ScreenFilterMatchesExport | src/components/SizeSummaryClient.tsx:64-70 | For a non-empty selection and no line of order 0, the screen's lines are the export's lines |
| SizeSummaryClient.OrderZeroOnlyInExport | src/components/SizeSummaryClient.tsx:66 | A line of order 0 is hidden on screen but exported when its order is selected |
| SizeSummaryClient.EmptySelectionExportsEverything | src/components/SizeSummaryClient.tsx:115-116 | An empty selection shows nothing but exports every line |
| SizeSummaryClient.ExportParam | src/components/SizeSummaryClient.tsx:115-116 | The export sends the comma-joined selection, and no parameter when nothing is selected |
| SizeSummaryClient.ExportReadsSelection | src/components/SizeSummaryClient.tsx:115-116 | The route reads back exactly the selection sent, when statuses are non-empty and comma-free |
| SizeSummaryClient.ExportMatchesScreen | src/components/SizeSummaryClient.tsx:64-75 | For such a selection, and no line of order 0, the exported rows are the rows on screen |
| SizeSummaryClient.DesignTotal | src/components/SizeSummaryClient.tsx:181-187 | A design's total is the sum of its nine table cells |
| SizeSummaryClient.Swap | src/components/SizeSummaryClient.tsx:81-91 | Exchanges two neighbouring rows and keeps the multiset of rows |
| SizeSummaryClient.Insert | src/components/SizeSummaryClient.tsx:81-91 | One insertion step extends the sorted prefix by one and keeps the multiset |
| SizeSummaryClient.SortInPlace | src/components/SizeSummaryClient.tsx:81-91 | The array ends sorted by the key and is a permutation of what it held |
| SizeSummaryClient.SortedSummary | src/components/SizeSummaryClient.tsx:78-94 | The sorted copy is a permutation of the rows. By name it is ascending in name order; by total it is descending in design total |
| SizeSummaryClient.SumOfRowTotalsPermutation | src/components/SizeSummaryClient.tsx:78-94 | Reordering rows keeps the sum of their totals |
| SizeSummaryClient.SortingKeepsGrandTotal | src/components/SizeSummaryClient.tsx:78-94 | The table shows the same grand total for the sorted rows as for the unsorted ones |
| SizeSummaryTable.CellsOf | src/components/SizeSummaryTable.tsx:73 | A line shows one cell per size, the count or 0 |
| SizeSummaryTable.ColumnSums | src/components/SizeSummaryTable.tsx:121-132 | The totals line holds each column's sum |
| SizeSummaryTable.RowTotalIsSumOfCells | src/components/SizeSummaryTable.tsx:111-116 | A row total is the sum of the cells the line shows |
| SizeSummaryTable.SumOfColumnSums | src/components/SizeSummaryTable.tsx:26-27 | The grand total is the sum of the column sums |
| SizeSummaryTable.View | src/components/SizeSummaryTable.tsx:23-58 | No data exactly when the placeholder is shown, spanning the nine sizes plus two columns with "ไม่มีข้อมูล". Otherwise one line per row and nine column totals |
| SizeSummaryTable.TableAddsUp | src/components/SizeSummaryTable.tsx:26-132 | Each line total is the sum of its cells, and the grand total is both the sum of the totals line and the sum of the line totals |
| SizeSummaryTable.CalculateTotals | src/components/SizeSummaryTable.tsx:121-132 | One key per listed size, each that column's sum |
| SizeSummaryTable.Render | src/components/SizeSummaryTable.tsx:22-108 | The component shows the view of its data |
| SizeSummaryTable.TableGrandTotalOmitsSmallSizes | src/components/SizeSummaryTable.tsx:23-27 | The library's grand total is the table's plus the 4S, SSS and SS counts |
| SizeSummaryTable.SmallSizeOnlyInLibraryTotal | src/components/SizeSummaryTable.tsx:23 | A single 4S shirt counts 0 in the table and 1 in the library's grand total |
| SizeSummaryFilters.OptionsMatchExportLabels | src/components/SizeSummaryFilters.tsx:34-40 | The five buttons are the known statuses, captioned with the export's labels |
| SizeSummaryFilters.Without | src/components/SizeSummaryFilters.tsx:44 | Keeps exactly the other statuses |
| SizeSummaryFilters.WithoutKeepsDistinct | src/components/SizeSummaryFilters.tsx:44 | Removing keeps a selection without repeats |
| SizeSummaryFilters.Toggle | src/components/SizeSummaryFilters.tsx:42-48 | A selected status is removed, every copy of it, and the others are kept; an unselected one is appended |
| SizeSummaryFilters.ToggleFlips | src/components/SizeSummaryFilters.tsx:42-48 | Toggling flips that status's membership and no other |
| SizeSummaryFilters.ToggleTwice | src/components/SizeSummaryFilters.tsx:42-48 | Toggling twice restores the same statuses, and the same list when the status started off |
| SizeSummaryFilters.ToggleKeepsDistinct | src/components/SizeSummaryFilters.tsx:42-48 | Toggling never introduces a repeat |
| SizeSummaryFilters.SelectAll | src/components/SizeSummaryFilters.tsx:50-56 | With five entries it clears; otherwise it selects all five statuses |
| SizeSummaryFilters.Indicator | src/components/SizeSummaryFilters.tsx:149-151 | The count is shown exactly when some but fewer than five are selected, and then "all" is not highlighted |
| SizeSummaryFilters.AllHighlightedIff | src/components/SizeSummaryFilters.tsx:69 | For a selection of known statuses without repeats, "all" is highlighted exactly when every status is selected |
| SizeSummaryFilters.SelectAllFromDefaults | src/components/SizeSummaryFilters.tsx:50-56 | From the four default statuses, "all" adds cancelled and highlights, and a second press clears |
| ShirtOrderForm.FindPrice | src/components/ShirtOrderForm.tsx:61 | The price of the first catalogue design with that id, or none exactly when no design has it |
| ShirtOrderForm.PriceOrFallback | src/components/ShirtOrderForm.tsx:79-80 | Never 0: the catalogue price, or 750 for an unknown design or a price of 0 |
| ShirtOrderForm.DefaultItem | src/components/ShirtOrderForm.tsx:41-50 | The starting line is design 1, size M, quantity 1, at a non-zero price |
| ShirtOrderForm.LineCost | src/components/ShirtOrderForm.tsx:61-62 | A line costs the catalogue price times the quantity, or 0 for an unknown design |
| ShirtOrderForm.TotalPriceReplace | src/components/ShirtOrderForm.tsx:59-64 | Replacing a line changes the total by the difference of the two lines' costs |
| ShirtOrderForm.TotalPriceRemove | src/components/ShirtOrderForm.tsx:59-64 | Removing a line takes its cost off the total |
| ShirtOrderForm.SubmittedPrice | src/components/ShirtOrderForm.tsx:166-174 | The sent price is never 0: the line's own price, else the catalogue price, else 750 |
| ShirtOrderForm.ItemsForSubmission | src/components/ShirtOrderForm.tsx:166-174 | One order line per form line, in order, with design, size and quantity kept and the price filled in |
| ShirtOrderForm.ChangeItem | src/components/ShirtOrderForm.tsx:66-84 | Editing changes only that field; choosing a design also resets the unit price from the catalogue |
| ShirtOrderForm.FormPricesAreSent | src/components/ShirtOrderForm.tsx:41-80 | A price the form set itself, on the default line or after a design choice, is sent unchanged |
| ShirtOrderForm.QuantityChangeShiftsTotal | src/components/ShirtOrderForm.tsx:59-84 | Changing a quantity moves the total by the design's price times the difference |
| ShirtOrderForm.ValidateForm | src/components/ShirtOrderForm.tsx:134-152 | Each message, as an if-and-only-if, is the first failed check, in this order: no lines, a blank name, a blank address for delivery, a missing slip. It is none exactly when all pass |
| ShirtOrderForm.PickupSkipsAddress | src/components/ShirtOrderForm.tsx:143 | A pickup order never needs an address; a delivery order with a blank one is refused |
| ShirtOrderForm.OrderForm.constructor | src/components/ShirtOrderForm.tsx:36-57 | The form starts with one default line, blank details and no error |
| ShirtOrderForm.OrderForm.HandleItemChange | src/components/ShirtOrderForm.tsx:66-84 | Only the indexed line changes |
| ShirtOrderForm.OrderForm.AddItem | src/components/ShirtOrderForm.tsx:86-96 | Appends the default line |
| ShirtOrderForm.OrderForm.RemoveItem | src/components/ShirtOrderForm.tsx:98-103 | Removes the indexed line unless it is the only one |
| ShirtOrderForm.OrderForm.HandleCustomerInfoChange | src/components/ShirtOrderForm.tsx:105-122 | One customer field changes and nothing else |
| ShirtOrderForm.OrderForm.HandleSubmit | src/components/ShirtOrderForm.tsx:154-227 | An invalid form sends nothing and shows the message. A valid one sends the details, the lines at their sent prices and the total. Success resets the form and shows success; failure keeps it and shows the server's message or the fallback |
| ShirtOrderForm.AtLeastOneLine | src/components/ShirtOrderForm.tsx:98-103 | Removing never leaves the form without a line |
| AdminOrderTable.SelectionStates | src/components/AdminOrderTable.tsx:43-44 | "All" and "some" never hold together. For a non-empty list, exactly one of none, some and all holds. An empty list is never all selected |
| AdminOrderTable.ChoiceCaptionsAreStatusLabels | src/components/AdminOrderTable.tsx:46-61 | The table's status captions are the export's labels, and an unknown status is shown unchanged |
| AdminOrderTable.ToastFor | src/components/AdminOrderTable.tsx:63-98 | A success notice names the new status's label. A reported failure shows the server's error and an exception the retry text, both marked destructive |
| AdminOrderTable.StatusUpdater.constructor | src/components/AdminOrderTable.tsx:39-40 | No update is running at first |
| AdminOrderTable.StatusUpdater.Begin | src/components/AdminOrderTable.tsx:63-66 | Disables exactly that order's control |
| AdminOrderTable.StatusUpdater.Finish | src/components/AdminOrderTable.tsx:70-97 | Shows one notice and refreshes only after success; afterwards no control is disabled |
| AdminOrderTable.StatusUpdater.HandleStatusChange | src/components/AdminOrderTable.tsx:63-98 | The whole change: one notice, one refresh on success, and the flags cleared |
| ImageCarousel.NextIndex | src/components/ImageCarousel.tsx:16 | Moves to the next image and wraps from the last to the first |
| ImageCarousel.PrevIndex | src/components/ImageCarousel.tsx:17 | Moves to the previous image and wraps from the first to the last |
| ImageCarousel.PrevUndoesNext | src/components/ImageCarousel.tsx:16-17 | Back after forward, and forward after back, return to the same image |
| ImageCarousel.NextTimes | src/components/ImageCarousel.tsx:16 | Any number of forward presses stays within the images |
| ImageCarousel.NextTimesIsRotation | src/components/ImageCarousel.tsx:16 | Up to a full turn, k presses move k places and wrap at most once |
| ImageCarousel.FullTurnReturns | src/components/ImageCarousel.tsx:16 | As many presses as images return to the start |
| ImageCarousel.Carousel.constructor | src/components/ImageCarousel.tsx:14 | Starts on the first image |
| ImageCarousel.Carousel.Next | src/components/ImageCarousel.tsx:16 | The right arrow shows the next image |
| ImageCarousel.Carousel.Prev | src/components/ImageCarousel.tsx:17 | The left arrow shows the previous image |
| ImageCarousel.Carousel.GoTo | src/components/ImageCarousel.tsx:56-58 | A dot shows its image |
| ImageCarousel.Carousel.Counter | src/components/ImageCarousel.tsx:69 | The counter reads current + 1 of count, both between 1 and count |
| Middleware.Gate | middleware.ts:5-21 | Paths outside "/admin" and the login page pass. Any other admin path is redirected exactly when the cookie is missing or empty |
| Middleware.PassesIff | middleware.ts:5-21 | A request passes exactly when it is outside "/admin", is the login page, or carries a non-empty cookie |
| Middleware.PrefixIsTextual | middleware.ts:7 | The prefix test is textual and case-sensitive: "/administrator" is gated and "/Admin/orders" is not |
| Middleware.EmptyCookieGateVersusApi | middleware.ts:13-17 | An empty cookie is refused by the gate but accepted by the combo API |

## Left out

- Database access (Supabase queries), XLSX workbook writing, `fetch`, toasts and other UI rendering, timers, and `router.refresh` are left out. Query results and server answers are parameters of the modelled operations; failures are `Option` values or booleans.
- Every write of the combo route reports its own success as a parameter. The route has no transaction, so a partial write is modelled as partial.
- SizeSummaryClient.SortedSummary: the name order is a ranking function `nameRank` standing in for `toLowerCase` plus `localeCompare`. Stability of `Array.prototype.sort` is not stated.
- ShirtOrderForm.IsBlank: `trim()` is modelled for space, tab, line feed, carriage return, vertical tab, form feed and no-break space only. The other Unicode spaces are not modelled.
- ShirtOrderForm.OrderForm.HandleItemChange requires a valid index. The form only calls it for rows it renders.
- The slip image is a boolean (present or not). File previews, object URLs and the form-data encoding are left out.
- ImageCarousel: an empty image list, where the JavaScript remainder gives NaN, is left out. The component renders no arrows in that case.
- The `matcher` configuration of the middleware is left out. `Gate` decides every path itself.
- Dates (`toLocaleString('th-TH')`, the file-name timestamps), alternate row shading, and URL encoding of the `statuses` parameter are left out.
- The order export as a whole is modelled through its row formatting, its legacy summary and its width pass, and not as a single handler.
- ComboProducts.ReadOrder: the database sorts by its text collation; the model sorts by code point. Rows with the same combo and component come back in an order the database does not fix, so the lemmas state only sortedness and the multiset. The query results passed to `GetComboRelationships`, `CombosRoute.Get` and the report handlers are taken to be rows in that order.
- OrdersExport.StatusLabel: `statusLabels[status] || status` also finds the members of `Object.prototype` for keys such as "constructor". The model treats it as the plain five-entry table, like the order table's `switch`.
- OrdersExport.ColumnWidth: JavaScript `length` counts UTF-16 code units. The model counts characters, so text outside the Basic Multilingual Plane gets a narrower width.
- SizeSummary.RowsFor: a size key spelled like the name column would overwrite the name in the `...sizeData` spread. Size keys are shirt size codes, so this is not modelled.
- CombosRoute.ComboStore.Post: a body that is not JSON, or a `null` entry in `components`, throws and answers 500. The model's body is already parsed, with missing fields as "" and 0.
- CombosRoute.Get: the JSON answer also carries the `designs` list and each component row's `id`. The model's views leave them out.
- Integers are unbounded. JavaScript numbers are doubles, and sums beyond 2^53 are not modelled.

## Findings

| source | as written | input that shows it | evidently intended | confidence | as-written member | corrected member |
|---|---|---|---|---|---|---|
| src/app/api/admin/size-summary/export/route.ts:77-85 | styles sheet row `excelData.length`, but row 1 is the header, so the totals sit in row `excelData.length + 1` | one design: row 2 (the design) is styled and the totals are in row 3 | style the totals row | high, not executed | SizeSummaryExport.StyledRowMissesTotals | SizeSummaryExport.TotalsSheetRow |
| src/app/api/orders/export/route.ts:133-134 | `Object.keys(data[0])` on a sheet with no rows throws, and the whole export answers 500 | a store with no orders yet | an empty sheet gets no column widths and the export succeeds | high, not executed | OrdersExport.EmptyStoreExportFails | OrdersExport.SafeExportOutcome |
