# pic-system core in Dafny

A model of the business logic of the pic-system BI front end (a Vue/TypeScript application):

- **Cannibalization engine.** For every client's product families it compares each SKU's average monthly sales before and after a split month. It classifies the SKU as a *victim* (its sales dropped) or a *cannibal* (its sales grew). It pairs the largest victim with the largest cannibal of each family into a case, and ranks the cases by impact. The store around the engine keeps the rules, the raw data and the detected cases.
- **PIC report.** Two pieces build on the same data:
  - the month × year pivot of the sales records (`processChartData`, `useChartData.processData`);
  - the table with footer totals, year-over-year difference and growth, the target comparison and the "frozen current month" rule (`calculateTableData`).
- **PIC filter store.** Cascading selections, the toggled client selection, the default years and the filter maps sent to the server.
- **PIC chat store.** The conversation, the ten-message history window and the visual context injected into the prompt.
- **Customer segmentation.** The store's state transitions and getters, the formatters and colour lookups, and the CSV export (RFC 4180 quoting). The export comes with a reader that proves an exported file reads back cell by cell.
- **Setup store.** The role-filtered menu, its grouping by category, and the optimistic module switch with its revert.
- **Client validation store.** Review navigation, the neighbour search guard, and the homologation merge rules.
- **Two decision functions.** The filter-response coercion of the client service, and the router's authentication guard.

Layout: one Dafny module per source file. Shared pieces live in two modules:

- `Prelude`: `Option`/`Result`, a JavaScript `Number` with NaN and infinities for the divisions that can divide by zero, truthiness, `slice` helpers and `String(n)`.
- `Sorting`: the stable insertion sort that stands for `Array.prototype.sort`, proved sorted, a permutation, and with the first best element at its head.

Numbers are `real`. Server calls, the clock, random ids, `parseFloat`/`parseInt`, `toFixed` rounding and `Intl.NumberFormat` are parameters of the members that use them. A server call is a parameter returning `Option`/`Result`, where `None`/`Err` stands for a rejected promise. Stores are classes whose methods update their fields. Loops in the source are `while` loops proved against a specification function.

## Model

| member | source | states |
|---|---|---|
| CannibalizationEngine.Slice | src/modules/Cannibalization/composables/useCannibalizationEngine.ts:30 | `slice(start, end)` has the clamped length and holds the vector's elements from the clamped start |
| CannibalizationEngine.AverageTimesCount | src/modules/Cannibalization/composables/useCannibalizationEngine.ts:29-34 | the average is 0 for an empty slice, and average × length is the slice sum |
| CannibalizationEngine.AverageBounds | src/modules/Cannibalization/composables/useCannibalizationEngine.ts:29-34 | the average of a non-empty range lies between any lower and upper bound of its months |
| CannibalizationEngine.ClassifySku | src/modules/Cannibalization/composables/useCannibalizationEngine.ts:61-93 | the per-SKU step (noise filter, victim test, cannibal test) yields exactly the victim and cannibal of the specification |
| CannibalizationEngine.ClassifySkus | src/modules/Cannibalization/composables/useCannibalizationEngine.ts:57-94 | the SKU loop builds the victim and cannibal lists of the family, in SKU order |
| CannibalizationEngine.MatchFamily | src/modules/Cannibalization/composables/useCannibalizationEngine.ts:101-139 | sorting both lists and pairing their heads gives the family's case (none unless both lists are non-empty) |
| CannibalizationEngine.MatchClient | src/modules/Cannibalization/composables/useCannibalizationEngine.ts:50-140 | the family loop collects one case per family that yields one, in family order |
| CannibalizationEngine.RunAnalysis | src/modules/Cannibalization/composables/useCannibalizationEngine.ts:39-145 | the analysis is empty when the split month is outside 2..11; otherwise it is the cases of all clients sorted by non-increasing impact score |
| CannibalizationEngine.AnalysisRanked | src/modules/Cannibalization/composables/useCannibalizationEngine.ts:143-144 | impact scores never increase along the result |
| CannibalizationEngine.VictimCriterion | src/modules/Cannibalization/composables/useCannibalizationEngine.ts:62-76 | a SKU is a victim iff it passes the minimum volume, sold before the split and its drop rate reaches the threshold; its loss is the drop times the post-split months |
| CannibalizationEngine.CannibalCriterion | src/modules/Cannibalization/composables/useCannibalizationEngine.ts:78-93 | a cannibal passed the minimum volume and grew; with pre-split sales it qualifies iff its growth rate reaches the threshold; without them iff the threshold is at most 999; its gain is the growth times the post-split months |
| CannibalizationEngine.VictimCannibalExclusive | src/modules/Cannibalization/composables/useCannibalizationEngine.ts:64-93 | with a non-negative drop threshold no SKU is both a victim and a cannibal |
| CannibalizationEngine.VictimLossPositive | src/modules/Cannibalization/composables/useCannibalizationEngine.ts:64-76 | with a positive drop threshold a victim's loss is positive |
| CannibalizationEngine.SilentSkuIgnored | src/modules/Cannibalization/composables/useCannibalizationEngine.ts:58-93 | a SKU without sales averages 0 on both sides and is neither victim nor cannibal |
| CannibalizationEngine.MainVictimLargest | src/modules/Cannibalization/composables/useCannibalizationEngine.ts:103-106 | the main victim has the largest loss, and every victim before it lost strictly less |
| CannibalizationEngine.MainCannibalLargest | src/modules/Cannibalization/composables/useCannibalizationEngine.ts:104-107 | the main cannibal has the largest gain, and every cannibal before it gained strictly less |
| CannibalizationEngine.FamilyCaseMeaning | src/modules/Cannibalization/composables/useCannibalizationEngine.ts:101-138 | a family yields a case iff it has a victim and a cannibal; the case's id, names, rounded loss, gain and balance, rounded substitution percentage and unrounded impact score (loss + gain) come from the main victim and main cannibal |
| CannibalizationEngine.AllCasesMembership | src/modules/Cannibalization/composables/useCannibalizationEngine.ts:49-141 | a case is collected iff some client yields it |
| CannibalizationEngine.ClientCasesMembership | src/modules/Cannibalization/composables/useCannibalizationEngine.ts:50-140 | a client's case is the case of one of its families |
| CannibalizationEngine.AtMostOneCasePerFamily | src/modules/Cannibalization/composables/useCannibalizationEngine.ts:49-141 | there are never more cases than families |
| CannibalizationEngine.CannibalGainPositive | src/modules/Cannibalization/composables/useCannibalizationEngine.ts:81-92 | a cannibal's gain is positive when the split leaves post-split months |
| CannibalizationEngine.VictimsLossPositive | src/modules/Cannibalization/composables/useCannibalizationEngine.ts:57-76 | every listed victim lost volume when the drop threshold is positive |
| CannibalizationEngine.CannibalsGainPositive | src/modules/Cannibalization/composables/useCannibalizationEngine.ts:78-93 | every listed cannibal gained volume |
| CannibalizationEngine.FamilyRatePositive | src/modules/Cannibalization/composables/useCannibalizationEngine.ts:114-136 | with a positive drop threshold a family's substitution rate is the rounding of a positive percentage |
| CannibalizationEngine.SubstitutionRatePositive | src/modules/Cannibalization/composables/useCannibalizationEngine.ts:115-136 | with a positive drop threshold every reported substitution rate is finite (the division never divides by zero) and rounds a positive percentage |
| CannibalizationEngine.TwoLevelAverages | src/modules/Cannibalization/composables/useCannibalizationEngine.ts:29-34 | a vector at one level for six months and another for six averages to each level on its half |
| CannibalizationEngine.ExampleCandidates | src/modules/Cannibalization/composables/useCannibalizationEngine.ts:57-94 | in the worked example the falling SKU is the only victim (loss 360) and the new SKU the only cannibal (gain 420) |
| CannibalizationEngine.WorkedExample | src/modules/Cannibalization/composables/useCannibalizationEngine.ts:39-145 | the worked example yields exactly one case, with 360 lost, 420 gained and balance 60 |
| Sorting.SortStringsAscending | src/modules/PIC/stores/picFilterStore.ts:64 | `[...strings].sort()` is ascending and a permutation of its input |
| Sorting.SortHead | src/modules/Cannibalization/composables/useCannibalizationEngine.ts:103-107 | the head of the stable sort is the first best element of the input |
| Sorting.SortSorted | src/modules/Cannibalization/composables/useCannibalizationEngine.ts:144 | the sort's result is ordered by any total preorder it is given |
| Sorting.SortInOrder | src/modules/Cannibalization/composables/useCannibalizationEngine.ts:144 | inserting the elements one after another gives the specified stable sort |
| Prelude.FirstIndex | src/modules/ClientValidation/stores/validationStore.ts:76 | `findIndex` gives the first position whose element satisfies the test, or -1 when none does; the stores' searches by id are this search |
| Prelude.LastN | src/modules/PIC/stores/picFilterStore.ts:65 | `slice(-n)` holds the last min(n, length) elements in order |
| Prelude.Divide | src/modules/Cannibalization/composables/useCannibalizationEngine.ts:115 | a JavaScript division is finite iff the divisor is non-zero, and otherwise NaN or an infinity by the dividend's sign |
| CannibalizationStore.ApplyPatch | src/modules/Cannibalization/stores/cannibalizationStore.ts:76-79 | `Object.assign(rules, patch)` takes each supplied field and keeps every other one |
| CannibalizationStore.PatchLaws | src/modules/Cannibalization/stores/cannibalizationStore.ts:76-79 | an empty patch changes nothing, and a patch is idempotent |
| CannibalizationStore.FullPatchReplaces | src/modules/Cannibalization/stores/cannibalizationStore.ts:76-79 | a patch that supplies every field replaces the rules |
| CannibalizationStore.AnalyzedIsAnalysis | src/modules/Cannibalization/stores/cannibalizationStore.ts:68-74 | the empty-data shortcut agrees with the engine, which finds nothing in no data |
| CannibalizationStore.YearsDescendingOrdered | src/modules/Cannibalization/stores/cannibalizationStore.ts:59-61 | `years.sort().reverse()` is a permutation, greatest first |
| CannibalizationStore.Store.constructor | src/modules/Cannibalization/stores/cannibalizationStore.ts:10-26 | the store starts empty and idle with rules drop 0.5, growth 0.2, minimum volume 10, split month 8 |
| CannibalizationStore.Store.Analyze | src/modules/Cannibalization/stores/cannibalizationStore.ts:68-74 | the detected cases become the engine's analysis of the raw data under the rules; nothing else changes |
| CannibalizationStore.Store.UpdateRules | src/modules/Cannibalization/stores/cannibalizationStore.ts:76-79 | the rules take the patch, then the cases are re-analysed under the new rules |
| CannibalizationStore.Store.FetchData | src/modules/Cannibalization/stores/cannibalizationStore.ts:36-47 | success stores the data and re-analyses; failure empties the data and keeps the old cases; loading ends either way |
| CannibalizationStore.Store.LoadMetadata | src/modules/Cannibalization/stores/cannibalizationStore.ts:51-66 | success stores the families and the years in descending order; failure changes nothing |
| PicUtils.PricePerKiloMeaning | src/modules/PIC/utils/picUtils.ts:38-40 | the average price times the kilos gives the pesos, and it is 0 for zero kilos |
| PicUtils.PercentOfMeaning | src/modules/PIC/utils/picUtils.ts:161 | a percentage times its base gives 100 times the part, and it is 0 for a zero base |
| PicUtils.ProcessChartData | src/modules/PIC/utils/picUtils.ts:15-46 | the record loop builds the specified pivot |
| PicUtils.ChartDataShape | src/modules/PIC/utils/picUtils.ts:16-21 | twelve rows, January first, with month index i+1, each holding exactly the requested years and their targets |
| PicUtils.IgnoredRecord | src/modules/PIC/utils/picUtils.ts:25-28 | a record with a month outside 1..12 or an unrequested year changes nothing |
| PicUtils.ChartDataCell | src/modules/PIC/utils/picUtils.ts:24-43 | each cell holds the value of the last record for its month and year (later ones overwrite), or 0; the target cell likewise for kilos, else 0 |
| PicUtils.AccumulateRow | src/modules/PIC/utils/picUtils.ts:134-144 | the year loop adds one row to the totals as specified |
| PicUtils.CountMonthsWithData | src/modules/PIC/utils/picUtils.ts:185-186 | one pass counts the rows with a positive current-year value and a positive previous-year value |
| PicUtils.CompareOne | src/modules/PIC/utils/picUtils.ts:146-169 | one row's comparison fields are the specified comparison |
| PicUtils.BuildFooter | src/modules/PIC/utils/picUtils.ts:173-202 | the footer is the specified footer of the totals |
| PicUtils.ProcessRows | src/modules/PIC/utils/picUtils.ts:122-171 | the row pass yields the compared rows and the footer accumulators |
| PicUtils.CalculateTableData | src/modules/PIC/utils/picUtils.ts:106-205 | the whole table is the specified table |
| PicUtils.TableYears | src/modules/PIC/utils/picUtils.ts:112-115 | the years are sorted ascending; the current year exists iff there is a year and is the greatest; the previous year exists iff there are two and is not greater |
| PicUtils.AddYearsYear | src/modules/PIC/utils/picUtils.ts:134-140 | one row adds its value to a year's accumulator once per occurrence of the year |
| PicUtils.AddYearsTarget | src/modules/PIC/utils/picUtils.ts:141-143 | for kilos one row adds its current-year target once per occurrence of that year |
| PicUtils.TotalsAreColumnSums | src/modules/PIC/utils/picUtils.ts:122-144 | each footer accumulator is its column sum (per occurrence of the year), missing values counting 0; for kilos, the current year's target accumulator likewise |
| PicUtils.CompareRowMeaning | src/modules/PIC/utils/picUtils.ts:146-169 | there is no comparison iff there is no previous year; it is hidden iff the month is hidden; otherwise diff = current − previous, growth × previous = diff × 100 (0 for a zero previous), and target fields iff kilos, with diffMeta = current − target and varMeta × target = current × 100 (0 for a zero target) |
| PicUtils.FreezeOnlyCurrentMonth | src/modules/PIC/utils/picUtils.ts:130-151 | the lock matters only for the current calendar month, and nothing is hidden when the newest year is not the running one |
| PicUtils.FooterAverage | src/modules/PIC/utils/picUtils.ts:184-195 | for the average price the footer values of the newest and the previous year are each their column sum over their count of positive months, or 0; the footer diff is between these two means |
| PicUtils.CurrentYearTotal | src/modules/PIC/utils/picUtils.ts:122-144 | when the newest year occurs once, its accumulator (and, for kilos, its target accumulator) is its column sum |
| PicUtils.FooterTarget | src/modules/PIC/utils/picUtils.ts:197-201 | for kilos the footer's target fields are the total minus the target and the total as a percentage of the target |
| ChartData.Find | src/modules/PIC/composables/useChartData.ts:39 | `find` gives the first record of the month and year, and finds one iff one exists |
| ChartData.FindRecord | src/modules/PIC/composables/useChartData.ts:39 | the search loop gives the specified first match |
| ChartData.BuildRow | src/modules/PIC/composables/useChartData.ts:30-58 | the year loop fills the specified month row |
| ChartData.ProcessData | src/modules/PIC/composables/useChartData.ts:9-95 | the month loop and the datasets give the specified chart |
| ChartData.BuildDatasets | src/modules/PIC/composables/useChartData.ts:63-86 | the dataset loop gives the specified datasets |
| ChartData.RowsInOrder | src/modules/PIC/composables/useChartData.ts:25-61 | one row and one label per month from start to end, in order; none when start > end |
| ChartData.CellMeaning | src/modules/PIC/composables/useChartData.ts:41-51 | a cell is `undefined` iff a matched record lacks the pesos or kilos the metric reads, NaN iff the average price lacks the pesos with non-zero kilos, and otherwise a number, pesos per kilo for the average price; a target cell is `undefined` iff a matched kilo record lacks its target |
| ChartData.RowCells | src/modules/PIC/composables/useChartData.ts:36-58 | each year cell holds the first matching record's cell, or 0 without a record; target keys exist only for kilos |
| ChartData.DatasetsShape | src/modules/PIC/composables/useChartData.ts:63-86 | one bar dataset per year in order, coloured at its index modulo the palette; for kilos exactly one more, the target line of the last year |
| PicFilterStore.DefaultYearsMostRecent | src/modules/PIC/stores/picFilterStore.ts:63-66 | the default years are the (at most) three greatest available years, ascending |
| PicFilterStore.LastNOfSorted | src/modules/PIC/stores/picFilterStore.ts:64-65 | the last n of an ascending list are its own, ascending, and no smaller than the rest |
| PicFilterStore.Remove | src/modules/PIC/stores/picFilterStore.ts:254 | `map.delete(id)` keeps exactly the entries with other ids |
| PicFilterStore.LookupMeaning | src/modules/PIC/stores/picFilterStore.ts:253 | `has`/`get` find the entry of an id iff one exists |
| PicFilterStore.RemoveUnique | src/modules/PIC/stores/picFilterStore.ts:254 | deleting keeps the ids unique |
| PicFilterStore.Toggle | src/modules/PIC/stores/picFilterStore.ts:252-258 | the id is selected afterwards iff it was not selected before |
| PicFilterStore.ToggleMeaning | src/modules/PIC/stores/picFilterStore.ts:252-258 | toggling flips the presence of the id (storing the name when it adds), keeps ids unique and leaves every other id's entry |
| PicFilterStore.ToggleTwiceAbsent | src/modules/PIC/stores/picFilterStore.ts:252-258 | toggling an absent id twice restores the selection |
| PicFilterStore.RemoveAbsent | src/modules/PIC/stores/picFilterStore.ts:254 | deleting an absent id changes nothing |
| PicFilterStore.ToggleTwicePresent | src/modules/PIC/stores/picFilterStore.ts:252-258 | toggling a present id twice keeps the others and puts the id back at the end of the insertion order |
| PicFilterStore.ArrayFiltersMeaning | src/modules/PIC/stores/picFilterStore.ts:207-217 | a key's column is present iff its array selection is non-empty, holding that selection |
| PicFilterStore.ArrayFiltersKeys | src/modules/PIC/stores/picFilterStore.ts:207-217 | only the columns of the listed keys appear |
| PicFilterStore.ReportFiltersMeaning | src/modules/PIC/stores/picFilterStore.ts:207-228 | every non-empty selection under its mapped column, the month texts always, and IDCLIENTE with the selected ids in selection order iff a client is selected |
| PicFilterStore.FinishFilters | src/modules/PIC/stores/picFilterStore.ts:220-228 | the month texts and client ids go on top of the array filters without touching any other column |
| PicFilterStore.ReportColumnsDistinct | src/modules/PIC/stores/picFilterStore.ts:198-204 | no two selection keys map to the same column, and none to IDCLIENTE |
| PicFilterStore.ReportColumnRenames | src/modules/PIC/stores/picFilterStore.ts:198-204 | two keys share a column only when one is a renamed column's own name |
| PicFilterStore.ClientSearchFiltersMeaning | src/modules/PIC/stores/picFilterStore.ts:266-281 | only channel, management, supervision, route and client format (as `formatocte`) appear, each iff its selection is non-empty |
| PicFilterStore.Store.constructor | src/modules/PIC/stores/picFilterStore.ts:8-49 | empty options, the default selection (transactions, months 1 and 12), idle, lock on, no client; each selected client is held once |
| PicFilterStore.Store.InitFilters | src/modules/PIC/stores/picFilterStore.ts:56-72 | success stores the options and, with years, selects the three most recent; failure keeps the options; loading ends |
| PicFilterStore.Store.HandleGerenciaChange | src/modules/PIC/stores/picFilterStore.ts:77-89 | supervision and route selections and options are cleared, then supervisions load for a non-empty management selection |
| PicFilterStore.Store.HandleJefaturaChange | src/modules/PIC/stores/picFilterStore.ts:92-100 | the route selection and options are cleared, then routes load for a non-empty supervision selection |
| PicFilterStore.Store.HandleMarcaChange | src/modules/PIC/stores/picFilterStore.ts:103-119 | group, category and SKU are cleared, then groups and SKUs load together for a non-empty brand selection |
| PicFilterStore.Store.HandleGrupoChange | src/modules/PIC/stores/picFilterStore.ts:122-141 | category and SKU are cleared, then categories and SKUs load for brand and group, or the brand's SKUs without a group |
| PicFilterStore.Store.GenerateReport | src/modules/PIC/stores/picFilterStore.ts:191-244 | the report filters are sent; the records are stored iff the request succeeds, which is the result; generating ends |
| PicFilterStore.Store.ToggleComparisonLock | src/modules/PIC/stores/picFilterStore.ts:247-249 | the lock flag is negated and nothing else changes |
| PicFilterStore.Store.ToggleClientSelection | src/modules/PIC/stores/picFilterStore.ts:252-258 | the selection becomes the toggled selection, which still holds each client once |
| PicFilterStore.Store.ClearSelectedClients | src/modules/PIC/stores/picFilterStore.ts:260-262 | the selection is empty, so each client is held once, and nothing else changes |
| PicFilterStore.Store.GetFiltersForClientSearch | src/modules/PIC/stores/picFilterStore.ts:266-281 | the loop builds the specified client-search filters |
| PicFilterStore.Store.ResetFilters | src/modules/PIC/stores/picFilterStore.ts:283-317 | every selection is empty except the defaults and the three most recent years; no client, so each client is held once; every dependent list is empty |
| Export.DoubleQuotes | src/modules/CustomerSegmentation/composables/useExport.ts:21 | doubling quotes never shortens the text and leaves it as it is without quotes |
| Export.Escape | src/modules/CustomerSegmentation/composables/useExport.ts:17-24 | a missing value gives ""; a text with a comma, quote or line break is quoted with inner quotes doubled; any other is unchanged |
| Export.QuotedRoundTrip | src/modules/CustomerSegmentation/composables/useExport.ts:20-21 | a quoted body with doubled quotes reads back as the original text |
| Export.PlainRoundTrip | src/modules/CustomerSegmentation/composables/useExport.ts:23 | an unquoted text without commas or line breaks reads back as itself |
| Export.FieldRoundTrip | src/modules/CustomerSegmentation/composables/useExport.ts:17-24 | every escaped cell reads back as the cell's text |
| Export.RecordRoundTrip | src/modules/CustomerSegmentation/composables/useExport.ts:98-99 | a comma-joined line of escaped cells reads back as the cells' texts |
| Export.CsvRoundTrip | src/modules/CustomerSegmentation/composables/useExport.ts:97-100 | a whole export reads back row by row and cell by cell, whatever the cells contain |
| Export.BeforeT | src/modules/CustomerSegmentation/composables/useExport.ts:40 | `split('T')[0]` is the longest prefix without a `T` |
| Export.BuildFilenameMeaning | src/modules/CustomerSegmentation/composables/useExport.ts:39-42 | the name is prefix, underscore, the date part of the timestamp, dot and extension |
| Export.SummaryShape | src/modules/CustomerSegmentation/composables/useExport.ts:51-95 | header, one row per segment in order, then the TOTAL row, all of twelve cells |
| Export.SummaryReadsBack | src/modules/CustomerSegmentation/composables/useExport.ts:97-100 | the summary file reads back as its rows |
| Export.SegmentClientRowsRanked | src/modules/CustomerSegmentation/composables/useExport.ts:186-200 | a segment's block has one row per client in order, ranked from 1 |
| Export.ClientRowsBlocks | src/modules/CustomerSegmentation/composables/useExport.ts:184-202 | segment blocks follow one another, ranks restart at 1, and a segment missing from the map adds no row |
| Export.BuildClientRows | src/modules/CustomerSegmentation/composables/useExport.ts:182-202 | the nested loop builds the specified client rows |
| Export.ClientsCsv | src/modules/CustomerSegmentation/composables/useExport.ts:204-207 | the client file is the header and the client rows, escaped and joined |
| Formatters.NormalizedPercent | src/modules/CustomerSegmentation/composables/useFormatters.ts:45 | values above 1 stay, others are multiplied by 100 |
| Formatters.NormalizedPercentRange | src/modules/CustomerSegmentation/composables/useFormatters.ts:44-47 | fractions of [0, 1] become percentages of [0, 100], 1 and 100 print alike, no non-negative value shrinks |
| Formatters.FormatPercent | src/modules/CustomerSegmentation/composables/useFormatters.ts:44-47 | the formatted normalised value followed by `%` |
| Formatters.CompactScaleMeaning | src/modules/CustomerSegmentation/composables/useFormatters.ts:54-62 | the scale is the largest unit the value reaches; the scaled value times the unit is the value |
| Formatters.FormatCompact | src/modules/CustomerSegmentation/composables/useFormatters.ts:54-62 | one decimal with `M` from a million, with `K` from a thousand, else the format without decimals |
| Formatters.CompactScaleMonotone | src/modules/CustomerSegmentation/composables/useFormatters.ts:54-62 | a larger value never takes a smaller suffix |
| Formatters.FormatRange | src/modules/CustomerSegmentation/composables/useFormatters.ts:68-70 | the formatted minimum, then ` - `, then the formatted maximum, then a space and the unit |
| Formatters.FormatGini | src/modules/CustomerSegmentation/composables/useFormatters.ts:76-79 | the index times 100 with two decimals, then `%` |
| Formatters.BandMeaning | src/modules/CustomerSegmentation/composables/useFormatters.ts:85-91 | band b holds the values from 20b below 20(b+1), and bands are monotone |
| Formatters.PercentileColorBands | src/modules/CustomerSegmentation/composables/useFormatters.ts:85-91 | two values get the same classes iff they are in the same band; green from 80, red below 20 |
| Formatters.StrategyColor | src/modules/CustomerSegmentation/composables/useFormatters.ts:96-104 | a known strategy's classes, the monitor classes otherwise |
| Formatters.StrategyColorDistinct | src/modules/CustomerSegmentation/composables/useFormatters.ts:97-102 | the four strategies get four different class lists |
| SegmentColors.Palette | src/modules/CustomerSegmentation/composables/useSegmentColors.ts:12-44 | quartiles 4 colours, deciles 10, any other group type the 5 quintile colours |
| SegmentColors.SegmentColorClamps | src/modules/CustomerSegmentation/composables/useSegmentColors.ts:43-54 | outside percentiles the colour at the index, clamped to the palette's last |
| SegmentColors.PercentileQuintile | src/modules/CustomerSegmentation/composables/useSegmentColors.ts:59-68 | percentile i takes quintile colour min(floor(i/25), 4); below 100 never the worst |
| SegmentColors.ChartColors | src/modules/CustomerSegmentation/composables/useSegmentColors.ts:73-76 | the palette's hex codes, one per entry, in order |
| SegmentColors.ProgressColorMonotone | src/modules/CustomerSegmentation/composables/useSegmentColors.ts:81-87 | the 80/60/40/20 bands, monotone in the percentage |
| SegmentColors.BadgeClasses | src/modules/CustomerSegmentation/composables/useSegmentColors.ts:92-95 | the colour's background, border and text classes, then the fixed suffix |
| SegmentationStore.ErrorText | src/modules/CustomerSegmentation/stores/segmentationStore.ts:108 | the server's error text when truthy, the default otherwise |
| SegmentationStore.GettersMeaning | src/modules/CustomerSegmentation/stores/segmentationStore.ts:65-69 | without data totals are 0 and segments empty; with data they are the analysis's own |
| SegmentationStore.FindSegment | src/modules/CustomerSegmentation/stores/segmentationStore.ts:77 | `find` by id gives the first segment with the id, or none |
| SegmentationStore.ActiveSegmentMeaning | src/modules/CustomerSegmentation/stores/segmentationStore.ts:75-78 | the active segment exists iff there is a truthy id, data and a segment with that id, and it is the first such |
| SegmentationStore.MetricUnitMeaning | src/modules/CustomerSegmentation/stores/segmentationStore.ts:80-86 | the unit is `KG` iff the metric is kilograms, and the label ends with the unit |
| SegmentationStore.WithoutPeriod | src/modules/CustomerSegmentation/stores/segmentationStore.ts:200 | every filter but the period is kept |
| SegmentationStore.WithoutPeriodIgnoresPeriod | src/modules/CustomerSegmentation/stores/segmentationStore.ts:200 | the period does not reach the comparison request |
| SegmentationStore.ExportPayload | src/modules/CustomerSegmentation/stores/segmentationStore.ts:164-168 | one entry per segment, with its id, label and client ids |
| SegmentationStore.Store.constructor | src/modules/CustomerSegmentation/stores/segmentationStore.ts:22-57 | no data, no errors, quintiles, the default filters, master chart |
| SegmentationStore.Store.Analyze | src/modules/CustomerSegmentation/stores/segmentationStore.ts:95-115 | success stores response, group type and filters and drops the focus; failure drops the data and records the error; the other loading flags stay |
| SegmentationStore.Store.FetchSegmentClients | src/modules/CustomerSegmentation/stores/segmentationStore.ts:120-153 | success stores the page and focuses the segment; failure drops the page and records the error; no other field changes |
| SegmentationStore.Store.ExportClients | src/modules/CustomerSegmentation/stores/segmentationStore.ts:158-181 | the export request gets the payload and the current filters, and its answer is passed on |
| SegmentationStore.Store.CompareSegmentation | src/modules/CustomerSegmentation/stores/segmentationStore.ts:186-219 | the comparison request gets the filters without their period; success stores it, failure records the error; no other field changes |
| SegmentationStore.Store.SetChartType | src/modules/CustomerSegmentation/stores/segmentationStore.ts:224-226 | the chart type is set; no other field changes |
| SegmentationStore.Store.SetActiveSegment | src/modules/CustomerSegmentation/stores/segmentationStore.ts:231-233 | the segment in focus is set; no other field changes |
| SegmentationStore.Store.ClearData | src/modules/CustomerSegmentation/stores/segmentationStore.ts:238-246 | every answer, error and the focus are dropped; the configuration stays |
| SegmentationStore.Store.ResetFilters | src/modules/CustomerSegmentation/stores/segmentationStore.ts:251-268 | the filters are the default record; no other field changes |
| SetupStore.UserLevel | src/modules/Setup/stores/setupStores.ts:49-51 | the level is always 1..3 |
| SetupStore.UserLevelMeaning | src/modules/Setup/stores/setupStores.ts:49-51 | a missing or unknown role is level 1; a known role its own level, 1..3 |
| SetupStore.UserMenuMeaning | src/modules/Setup/stores/setupStores.ts:47-57 | the menu holds exactly the active modules the level reaches, as often as listed, ascending by display order |
| SetupStore.IndexOfCategory | src/modules/Setup/stores/setupStores.ts:69 | the first group of a category, or none |
| SetupStore.OfCategory | src/modules/Setup/stores/setupStores.ts:67-71 | the menu's modules of one category |
| SetupStore.GroupsMeaning | src/modules/Setup/stores/setupStores.ts:67-71 | grouping gives one group per category, holding that category's modules in menu order |
| SetupStore.AppendNewPrefix | src/modules/Setup/stores/setupStores.ts:82-86 | adding the other categories keeps the ordered groups and adds only new categories |
| SetupStore.AppendNewDistinct | src/modules/Setup/stores/setupStores.ts:82-86 | no category is repeated |
| SetupStore.AppendNewCovers | src/modules/Setup/stores/setupStores.ts:82-86 | every category gets a group |
| SetupStore.PredefinedPrefix | src/modules/Setup/stores/setupStores.ts:75-79 | the fixed categories come in their order, each present iff it has modules |
| SetupStore.OrderedGroups | src/modules/Setup/stores/setupStores.ts:73-88 | the ordered groups are groups of the list, one per category, all categories, fixed ones first |
| SetupStore.GroupedMenuMeaning | src/modules/Setup/stores/setupStores.ts:60-89 | one non-empty group per category of the menu with its modules in menu order, fixed categories first in the order Analítica, Gestión, Sistema, Otro |
| SetupStore.FindGroup | src/modules/Setup/stores/setupStores.ts:69 | `groups[cat]` finds the category's group, or the end |
| SetupStore.BuildGroups | src/modules/Setup/stores/setupStores.ts:67-71 | the grouping loop gives the specified groups |
| SetupStore.GroupMenu | src/modules/Setup/stores/setupStores.ts:60-89 | the three loops give the specified grouped menu |
| SetupStore.FindModule | src/modules/Setup/stores/setupStores.ts:93 | `find` by id gives the first module with the id, or none |
| SetupStore.Store.constructor | src/modules/Setup/stores/setupStores.ts:10-11 | no modules, idle |
| SetupStore.Store.FetchModules | src/modules/Setup/stores/setupStores.ts:34-44 | the server's modules, or the mock modules when the request fails; loading ends |
| SetupStore.Store.ToggleModuleStatus | src/modules/Setup/stores/setupStores.ts:92-108 | an accepted switch sets the first module with the id to the negated status; a refused one leaves the modules as they were; the result says which |
| SetupStore.ToggleEffect | src/modules/Setup/stores/setupStores.ts:92-108 | an accepted switch changes only that module's status |
| SetupStore.MockLevels | src/modules/Setup/stores/setupStores.ts:15-31 | every mock module is active, and the first four are open to the lowest role |
| SetupStore.MockMenuSizes | src/modules/Setup/stores/setupStores.ts:15-31 | a level-1 user sees four mock modules |
| ValidationStore.MatchMergeMeaning | src/modules/ClientValidation/stores/validationStore.ts:147-179 | identity, address and route stay; the hierarchy is the candidate's; channel and format pairs come from the candidate's pair; UMAF and client type from the candidate when truthy |
| ValidationStore.MatchMergeIdempotent | src/modules/ClientValidation/stores/validationStore.ts:147-179 | homologating twice with the same neighbour changes nothing more |
| ValidationStore.MatchMergeForgetsMaster | src/modules/ClientValidation/stores/validationStore.ts:155-163 | two masters differing only in the copied fields end up equal |
| ValidationStore.Split | src/modules/ClientValidation/stores/validationStore.ts:45 | `split` gives at least one part and no part holds the separator |
| ValidationStore.SplitJoin | src/modules/ClientValidation/stores/validationStore.ts:44-45 | joining the parts gives the text back; two parts or more iff the separator occurs |
| ValidationStore.SearchGuard | src/modules/ClientValidation/stores/validationStore.ts:43-49 | no search without a comma or with unparsable coordinates; otherwise the search around the first two parts |
| ValidationStore.IndexOf | src/modules/ClientValidation/stores/validationStore.ts:76 | `findIndex` gives the first position of the id, or -1 |
| ValidationStore.NextIndexMeaning | src/modules/ClientValidation/stores/validationStore.ts:76-81 | there is a next client iff the id occurs before the last position, and it follows the first occurrence |
| ValidationStore.Store.constructor | src/modules/ClientValidation/stores/validationStore.ts:8-15 | nothing pending or selected, page 1 |
| ValidationStore.Store.FetchPendingClients | src/modules/ClientValidation/stores/validationStore.ts:18-32 | a successful answer stores clients, total and page; otherwise they stay; loading ends |
| ValidationStore.Store.SetCandidateForComparison | src/modules/ClientValidation/stores/validationStore.ts:34-36 | the candidate is set |
| ValidationStore.Store.SelectClientForReview | src/modules/ClientValidation/stores/validationStore.ts:38-71 | the client is selected, neighbours and comparison are reset, and the guarded search fills them |
| ValidationStore.Store.SelectNextClient | src/modules/ClientValidation/stores/validationStore.ts:73-83 | moves to the next pending client when there is one, otherwise changes nothing |
| ValidationStore.Store.SaveClientAction | src/modules/ClientValidation/stores/validationStore.ts:85-112 | saves the selection; success moves on, failure reports false |
| ValidationStore.Store.ApplyMatchLogic | src/modules/ClientValidation/stores/validationStore.ts:147-179 | with a selection and a candidate the selection becomes the merge and a route conflict is reported; otherwise nothing |
| ValidationStore.Store.ApplyNewClientLogic | src/modules/ClientValidation/stores/validationStore.ts:181-186 | the selection's client type becomes `Nuevo` and the year |
| ValidationStore.Store.ApplySkipLogic | src/modules/ClientValidation/stores/validationStore.ts:188-193 | the selection's client type becomes `SA`, and the marked client is saved: an accepted save moves the review to the next pending client as `saveClientAction` does; paging is kept |
| ValidationStore.ReviewCandidateIsNearest | src/modules/ClientValidation/stores/validationStore.ts:55-62 | after a review the candidate is the nearest neighbour, present iff any was found |
| PicChatStore.History | src/modules/PIC/stores/picChatStore.ts:75-82 | never more than ten entries |
| PicChatStore.HistoryMeaning | src/modules/PIC/stores/picChatStore.ts:75-82 | at most ten entries, roles user and model only, exactly the entries of the ten latest earlier non-system messages |
| PicChatStore.HistoryShortConversation | src/modules/PIC/stores/picChatStore.ts:75-82 | at most ten earlier messages without a system message are sent whole: one entry per message, in order, `user` for the user's and `model` for the others, with the message's text |
| PicChatStore.Prompt | src/modules/PIC/stores/picChatStore.ts:85-97 | the typed text without a context; a longer text with one whose data has a JSON text; no prompt (the `slice` on `undefined` throws) when it has none |
| PicChatStore.PromptMeaning | src/modules/PIC/stores/picChatStore.ts:85-97 | without context the text itself; with a context whose data has no JSON text no prompt; otherwise the prompt ends with the quoted question and carries the first 5000 characters at most of the data's JSON |
| PicChatStore.Store.constructor | src/modules/PIC/stores/picChatStore.ts:18-21 | no messages, idle, no context, report view off |
| PicChatStore.Store.AddMessage | src/modules/PIC/stores/picChatStore.ts:32-42 | exactly one message is appended and its id returned |
| PicChatStore.Store.InitChat | src/modules/PIC/stores/picChatStore.ts:26-30 | the greeting is added only to an empty conversation |
| PicChatStore.Store.SetContext | src/modules/PIC/stores/picChatStore.ts:44-52 | the context is set, with the JSON text of its data or none |
| PicChatStore.Store.ClearContext | src/modules/PIC/stores/picChatStore.ts:54-56 | the context is dropped |
| PicChatStore.Store.ClearChat | src/modules/PIC/stores/picChatStore.ts:58-62 | only the greeting is left, and no context |
| PicChatStore.FeedbackAsWritten | src/modules/PIC/stores/picChatStore.ts:126-195 | as written, an answer with rows ends in the technical error message |
| PicChatStore.FeedbackAsWrittenLosesCharts | src/modules/PIC/stores/picChatStore.ts:136-192 | as written, every query that returns rows is reported as a technical failure |
| PicChatStore.Feedback | src/modules/PIC/stores/picChatStore.ts:126-195 | no message exactly for an answer with rows, which becomes a chart |
| PicChatStore.FeedbackMeaning | src/modules/PIC/stores/picChatStore.ts:136-192 | an empty answer gets the no-results text, a 400 refusal the invalid-query text with the server's detail, any other failure the technical error; the intended feedback agrees with the code as written except on answers with rows |
| PicChatStore.Widget | src/modules/PIC/stores/picChatStore.ts:145-175 | one label and one value per answer row, in order: the row's dimensions joined by " - " and its `TotalMetric` or 0; the dataset is captioned with the metric; the id and timestamp come from the clock; the query is kept |
| PicChatStore.FindMessage | src/modules/PIC/stores/picChatStore.ts:127 | `find` gives the first message with the id, or none |
| PicChatStore.RunChartMeaning | src/modules/PIC/stores/picChatStore.ts:126-195 | a chart query adds a widget exactly when it returns rows, and otherwise exactly one system message; without a query nothing changes |
| PicChatStore.Store.VisualizeData | src/modules/PIC/stores/picChatStore.ts:126-195 | the query of the first message with the id is run, as the corrected `visualizeData` of the picChatStore.ts:177 finding does it: rows become a widget and switch the report view on, any other outcome posts its system message; the loading flag ends as it started |
| PicChatStore.Store.SendMessage | src/modules/PIC/stores/picChatStore.ts:64-123 | blank text is ignored; otherwise the question is appended; a context whose data has no JSON text ends in the default error message and keeps the context; otherwise the prompt and history are sent, a reply with text is appended, its chart query is run by the corrected `visualizeData` of the picChatStore.ts:177 finding, and the context is dropped; a failure appends a system message and keeps the context |
| ClientApi.DataField | src/modules/Clients/services/clientApi.ts:50 | `data.data` throws exactly on `null` and `undefined` |
| ClientApi.ParseFilterResponseAsWritten | src/modules/Clients/services/clientApi.ts:48-52 | the code as written fails exactly on `null` and `undefined` |
| ClientApi.ParseFilterResponse | src/modules/Clients/services/clientApi.ts:48-52 | an array comes back as it is; `null` and `undefined` give the empty list |
| ClientApi.ParseFilterResponseThrowsOnNull | src/modules/Clients/services/clientApi.ts:48-52 | a `null` or `undefined` body throws instead of giving an empty list |
| ClientApi.ParseFilterResponseMeaning | src/modules/Clients/services/clientApi.ts:48-52 | an array is returned as it is, a wrapped array unwrapped, anything else empty; the code as written agrees except on `null`/`undefined` |
| ClientApi.ParseFilterResponseWrap | src/modules/Clients/services/clientApi.ts:48-52 | parsing is stable on its output, and a wrapped array parses like the bare one |
| Router.Guard | src/router/index.ts:53-58 | a redirect only ever goes to `/login` or `/` |
| Router.GuardMeaning | src/router/index.ts:53-58 | a navigation proceeds iff the user's state meets both flags; redirects go to `/login` signed out and `/` signed in; the auth check comes first |
| Router.RouteTable | src/router/index.ts:8-50 | `/` and `/admin` with its children need a session, `/login` is for guests, anything else resolves to `/` |
| Router.DestinationSettles | src/router/index.ts:8-58 | every navigation settles after at most one redirect: signed out on `/login`, signed in anywhere but `/login` |

## Left out

- Intl and `toFixed` output: `formatNumber`, `formatCurrency` and `formatVolume` are not modelled. The locale number format and `toFixed` are function parameters, and the engine's `parseFloat(x.toFixed(n))` rounding is a `round` parameter.
- `getChartConfig` (chart-library options) is not modelled: a chart widget keeps its labels, its values and its dataset caption only.
- Server calls are modelled as their answers, passed in as parameters: promises, concurrency and request interleaving are not modelled.
- `console`, `alert` and the Blob/DOM download (`downloadFile`) are not modelled.
- The clock, `Date.now()`/`Math.random()` ids and `new Date().toISOString()` are parameters.
- `parseFloat` of positions and `parseInt` of months are parameters or inputs.
- `exportStatisticsCSV` and `exportFullReportCSV`: statistics and Pareto figures arrive precomputed from the server and are only printed.
- The statistics and Pareto getters of the segmentation store are not modelled, for the same reason.
- The `!currentFilters.value` guards of the segmentation store are not modelled: the filters are never null there.
- JavaScript compares strings by UTF-16 code units. The model compares code points, which gives the same order outside the astral planes.
- StrategyColor (`Formatters.StrategyColor`): a strategy named like an inherited `Object.prototype` member (`"constructor"`, `"toString"`) yields that function in the source; the model gives the monitor classes.
- UserLevelMeaning (`SetupStore.UserLevel`): a role named like an inherited `Object.prototype` member yields a function in the source, so no module passes the level comparison and the menu is empty; the model gives level 1. Likewise a category named so makes the grouping's `push` throw; the model groups it like any other.
- `PicFilterStore.Store`: the `handle*Change` methods treat a failed options request as leaving the cleared lists empty; in the source the promise also rejects to the caller.
- `PicChatStore.Store.VisualizeData`: models the corrected `visualizeData` of the picChatStore.ts:177 finding, where an answer with rows becomes a widget. As written, the call to the missing `addDynamicWidget` throws, so such an answer posts the technical error message and the report view stays off (`PicChatStore.FeedbackAsWritten`). The `isLoading` flag is set and reset around the query only when it was off; the model states that it ends as it started.
- `PicChatStore.Store.SendMessage`: runs the chart query of a reply through the corrected `VisualizeData`, so the code as written differs on answers with rows as stated there. The context's `dataJson` stands for the outcome of `JSON.stringify`: `None` covers both an `undefined` result and a throw, without modelling which data cause them.
- Object key order: a category name that looks like an array index would come first among `Object.keys`. The model keeps insertion order.
- vue-router's case-insensitive and trailing-slash matching is not modelled.
- JavaScript numbers are `real`: floating-point rounding and overflow are not modelled. The source's divisions by zero are modelled by `Prelude.Number`.
- `CannibalizationTypes.WellFormedSku`: the twelve-month length of the sales and target vectors is a predicate the engine does not require. `slice` handles other lengths as the source does.
- `PicUtils.FooterTarget`: states `varMeta` through `PercentOf`, and requires the newest year to occur once in the request.
- `PicUtils.FooterAverage`: requires distinct newest years, each occurring once in the request. With duplicate years the source's footer adjustments overwrite each other.
- `CannibalizationEngine.MatchFamily`: builds the case through `BuildCase`, whose rounding is the uninterpreted `round`. Exact decimal results are not proved.
- `ValidationStore.Store.SaveClientAction`: a failed save returns `false` instead of rethrowing.
- The client address fields that the merge neither reads nor writes are not modelled.
- `PicFilterStore.Store.GenerateReport` models the live version of `generateReport`. The commented-out earlier version is not modelled.

## Findings

| source | as written | input that shows it | evidently intended | confidence | as-written member | corrected member |
|---|---|---|---|---|---|---|
| src/modules/Clients/services/clientApi.ts:48-52 | `parseFilterResponse` reads `data.data` after the array check, which throws a TypeError when the body is `null` or `undefined` | a filter endpoint answering `null` | every body that is neither an array nor an object wrapping one gives `[]`, as the final `return []` suggests | not executed | ClientApi.ParseFilterResponseThrowsOnNull | ClientApi.ParseFilterResponseMeaning |
| src/modules/PIC/stores/picChatStore.ts:177 | `visualizeData` calls `filterStore.addDynamicWidget`, which the PIC filter store does not define; the TypeError is caught and reported as `Error técnico al generar el gráfico.` | a chat reply with a query whose answer has one row | the chart becomes a dashboard widget and the report view switches on, with no error message | not executed | PicChatStore.FeedbackAsWrittenLosesCharts | PicChatStore.Feedback |
