# FF 26S planning and validation layer in Dafny

This project models the planning and validation layer of the F&F 26S sales-plan dashboard:

- the sales-plan data model: the fixed channel, season and category tables, the lookups that turn typed text into a table code, and the generator of an empty scenario;
- the two browser-side scenario stores (the 26S plan store and the simulation-scenario store) and their summaries;
- the spreadsheet upload: the row parser, the download template and the file, buffer and workbook checks that guard it;
- the ordering, filtering and grouping rules of the sales tables and of the end-stock breakdown;
- the plan simulation arithmetic;
- the pre- and post-processing of the P&L API routes: season codes such as `24S` become YYYYMM windows, and the rows a query returns are split into channel rows, total rows and defaults.

The modules follow the source files:

| module | source file |
|---|---|
| `Plan26S` | src/features/dashboard/types/plan26s.ts |
| `PlanStore` | src/features/dashboard/hooks/usePlan26SStore.ts |
| `ScenarioStore` | src/features/dashboard/hooks/useScenarios.ts |
| `ExcelUploader` | src/features/dashboard/components/ExcelUploader.tsx |
| `XlsxSecurity` | src/lib/xlsx-security.ts |
| `SalesInputTable` | src/features/dashboard/components/SalesInputTable.tsx |
| `SalesData` | src/features/dashboard/hooks/useSalesData.ts |
| `VatExcludedSales` | src/features/dashboard/hooks/useVatExcludedSalesData.ts |
| `EndStockTooltip` | src/features/dashboard/components/EndStockTooltip.tsx |
| `Calc` | src/features/dashboard/lib/calc.ts |
| `SeasonPeriods` | the season-window branches shared by the routes under src/app/api/pnl/ |
| `ActualSalesRoute`, `VatExcludedSalesRoute`, `DirectCostRoute`, `CostOfSalesRoute`, `OrderAmountRoute`, `EndStockRoute`, `OperatingExpenseRoute` | the `route.ts` of each P&L route |

Four helper modules give the JavaScript semantics the source relies on:

- `Wrappers`: `Option`, which stands for `undefined`/`null`.
- `JsText`: `trim`, case mapping, `includes`, `split`, `join`.
- `JsNumber`: `Math.round` as round-half-up, `x || 0`, decimal text, `parseInt` and template literals of numbers that may be NaN.
- `JsArray`: `find`, `findIndex`, `filter`, `map`, `reduce` and grouping.

`StableSort` models `Array.prototype.sort` with a rank comparator. That sort has been stable since ECMAScript 2019, and the module proves the result sorted, stable, a permutation and unique.

Amounts are `real`. A JavaScript number that is not finite (a division by zero in the simulation) is `None`.

The state of the two stores is held in classes whose methods replace map fields, as the stores' `set` calls do. Loops the source writes as `forEach` or `for` are methods with loop invariants, proved against the functions that specify them. Examples are the uploader's row loop, the end-stock grouping and the operating-expense classification.

## Model

| member | source | states |
|---|---|---|
| Plan26S.CalculateActualSales | src/features/dashboard/types/plan26s.ts:113-115 | the actual sales are a whole number within one half of the tag sales less the discount percentage |
| Plan26S.CalculateDiscountRate | src/features/dashboard/types/plan26s.ts:117-120 | 0 without tag sales; otherwise a multiple of 0.1 within 0.05 of the discount percentage that turns the tag sales into the actual sales |
| Plan26S.ActualSalesUndiscounted | src/features/dashboard/types/plan26s.ts:113-115 | with no discount a whole tag amount is its own actual sales |
| Plan26S.DiscountRateRecoversActual | src/features/dashboard/types/plan26s.ts:113-120 | applying the computed discount rate to the tag sales gives back the actual sales up to the rounding of the rate |
| Plan26S.LookupCode | src/features/dashboard/types/plan26s.ts:123-144 | blank input has no code; a code match (trimmed, any case) wins over a name match; any result is the code of an entry whose code or name matches |
| Plan26S.Codes | src/features/dashboard/types/plan26s.ts:32-34 | the codes of a table, one per entry, in table order |
| Plan26S.GetChannelCode | src/features/dashboard/types/plan26s.ts:123-132 | the channel lookup: blank gives null, code match before name match, the result is a channel's code |
| Plan26S.GetCategoryCode | src/features/dashboard/types/plan26s.ts:135-144 | the category lookup: blank gives null, code match before name match, the result is a category's code |
| Plan26S.GetSeasonCode | src/features/dashboard/types/plan26s.ts:147-152 | a season is found exactly when the trimmed, upper-cased text is in the season list, and the result is that text |
| Plan26S.LookupFindsEntry | src/features/dashboard/types/plan26s.ts:123-144 | in a table without clashes every entry is found by its own code and by its own name |
| Plan26S.ChannelLookupComplete | src/features/dashboard/types/plan26s.ts:4-15 | every channel is found by its code and by its Korean name |
| Plan26S.CategoryLookupComplete | src/features/dashboard/types/plan26s.ts:24-30 | every category is found by its code and by its Korean name |
| Plan26S.SeasonLookupComplete | src/features/dashboard/types/plan26s.ts:18-21 | every listed season code is found by itself |
| Plan26S.ApartNotMatching | src/features/dashboard/types/plan26s.ts:127-130 | two texts of different length or first letters differ both exactly and ignoring case |
| Plan26S.ApartTableDistinct | src/features/dashboard/types/plan26s.ts:123-144 | a table whose codes and names are pairwise apart has no clashing lookups |
| Plan26S.ChannelTableDistinct | src/features/dashboard/types/plan26s.ts:4-15 | no two channels share a code or a name ignoring case, and no code reads as another channel's name |
| Plan26S.ChannelCodesApart | src/features/dashboard/types/plan26s.ts:4-15 | the channel codes are pairwise apart |
| Plan26S.ChannelNamesApart | src/features/dashboard/types/plan26s.ts:4-15 | the channel names are pairwise apart |
| Plan26S.ChannelCodeNameApart | src/features/dashboard/types/plan26s.ts:4-15 | a channel's code is apart from every other channel's name |
| Plan26S.CategoryTableDistinct | src/features/dashboard/types/plan26s.ts:24-30 | no two categories share a code or a name ignoring case, and no code reads as another category's name |
| Plan26S.CategoryCodesApart | src/features/dashboard/types/plan26s.ts:24-30 | the category codes are pairwise apart |
| Plan26S.CategoryCodeNameApart | src/features/dashboard/types/plan26s.ts:24-30 | a category's code is apart from every other category's name |
| Plan26S.CategoryNamesApart | src/features/dashboard/types/plan26s.ts:24-30 | the category names are pairwise apart |
| Plan26S.SeasonsUpperCase | src/features/dashboard/types/plan26s.ts:18-21 | every season code is already upper case |
| Plan26S.SeasonsTrimmed | src/features/dashboard/types/plan26s.ts:18-21 | no season code has white space at its edges |
| Plan26S.SeasonsDistinct | src/features/dashboard/types/plan26s.ts:18-21 | the twenty season codes are pairwise different |
| Plan26S.GridRowOf | src/features/dashboard/types/plan26s.ts:160-173 | the row at the position of a (channel, season, category) triple carries that triple, is numbered by its position and has zero amounts |
| Plan26S.CreateEmptyScenario | src/features/dashboard/types/plan26s.ts:155-189 | the new scenario has the given brand, the clock's id and times, zero cost plan with target M/U 250, and exactly the 1000 zero rows `row-1` to `row-1000` in channel-season-category order |
| Plan26S.PosDecode | src/features/dashboard/types/plan26s.ts:160-173 | every position decodes to a triple that encodes back to it |
| Plan26S.PosInjective | src/features/dashboard/types/plan26s.ts:160-173 | a triple's position decodes back to that triple |
| Plan26S.GridAmountsZero | src/features/dashboard/types/plan26s.ts:163-171 | every generated row has zero amounts and the id `row-` followed by its 1-based place |
| Plan26S.GridIdsDistinct | src/features/dashboard/types/plan26s.ts:164 | the generated row ids are pairwise distinct |
| Plan26S.RowIdInjective | src/features/dashboard/types/plan26s.ts:164 | two row numbers with the same `row-` id are equal |
| Plan26S.GridTripleUnique | src/features/dashboard/types/plan26s.ts:160-173 | each (channel, season, category) triple appears in the grid exactly once, at its position |
| ExcelUploader.FirstPresent | src/features/dashboard/components/ExcelUploader.tsx:81-92 | the cell under the first accepted header that is present in the row, and null only when none is |
| ExcelUploader.NumericSum | src/features/dashboard/components/ExcelUploader.tsx:95-98 | the sum of the three amount cells (missing counts as 0) is a number exactly when none of them reads as NaN |
| ExcelUploader.ActualFor | src/features/dashboard/components/ExcelUploader.tsx:118-125 | a non-zero numeric actual-sales cell is kept; a missing, NaN or zero one is replaced by the rounded tag sales less the discount |
| ExcelUploader.RowErrors | src/features/dashboard/components/ExcelUploader.tsx:94-116 | a skipped blank row gives no error; any other row gives one error per failed lookup |
| ExcelUploader.RowErrorsHeaded | src/features/dashboard/components/ExcelUploader.tsx:108-116 | every error line of a row starts with that row's number |
| ExcelUploader.ErrorLine | src/features/dashboard/components/ExcelUploader.tsx:108-112 | an error line starts with the decimal row number followed by `행` |
| ExcelUploader.IsBlankRow | src/features/dashboard/components/ExcelUploader.tsx:95-102 | a skipped row has no amount cell reading as NaN, and a row with no channel, season or category text and no amount cells is skipped |
| ExcelUploader.PushIfHeaded | src/features/dashboard/components/ExcelUploader.tsx:108-116 | a conditional push of a headed line keeps every line headed |
| ExcelUploader.AllHeadedAppend | src/features/dashboard/components/ExcelUploader.tsx:108-116 | headed error lists stay headed when joined |
| ExcelUploader.RowIdFor | src/features/dashboard/components/ExcelUploader.tsx:129-137 | the id of the first current input in the same cell when it has one, and `row-<now>-<rowNum>` when no input is in that cell |
| ExcelUploader.RowParsed | src/features/dashboard/components/ExcelUploader.tsx:94-145 | a plan row is produced exactly when the row is not blank and all three lookups succeed, and it carries the found codes, the amounts with NaN as 0, the actual sales and the kept or new id |
| ExcelUploader.RowParsedFound | src/features/dashboard/components/ExcelUploader.tsx:127-145 | a non-blank row whose lookups give a triple becomes the plan row of that triple |
| ExcelUploader.RowParsedIffNoErrors | src/features/dashboard/components/ExcelUploader.tsx:104-145 | a row becomes a plan row exactly when it is not blank and has no error |
| ExcelUploader.RowParsedValid | src/features/dashboard/components/ExcelUploader.tsx:127-144 | a parsed row's channel, season and category are codes of the tables |
| ExcelUploader.CheckRow | src/features/dashboard/components/ExcelUploader.tsx:79-147 | one pass of the loop body: whether the row is skipped, its errors in order and its plan row |
| ExcelUploader.LoopStep | src/features/dashboard/components/ExcelUploader.tsx:79-148 | one more sheet row appends that row's errors and plan row to those of the rows before it |
| ExcelUploader.ValidateAndParse | src/features/dashboard/components/ExcelUploader.tsx:74-155 | the errors are every row's errors in sheet order numbered from line 2, the plan rows are every parsed row in order, and the upload is valid exactly when there is no error |
| ExcelUploader.ParsedBounded | src/features/dashboard/components/ExcelUploader.tsx:79-148 | there are at most as many plan rows as sheet rows |
| ExcelUploader.ParsedRowsValid | src/features/dashboard/components/ExcelUploader.tsx:127-145 | every plan row of an upload has a channel, season and category of the tables |
| ExcelUploader.ParseStepValid | src/features/dashboard/components/ExcelUploader.tsx:127-145 | what one sheet row contributes has table codes |
| ExcelUploader.ValidIffEveryRowClean | src/features/dashboard/components/ExcelUploader.tsx:150-151 | an upload is free of errors exactly when each of its rows is |
| ExcelUploader.NoErrorsParsesAll | src/features/dashboard/components/ExcelUploader.tsx:127-151 | when no row is blank and there are no errors, every sheet row becomes exactly one plan row |
| ExcelUploader.ParseStepOne | src/features/dashboard/components/ExcelUploader.tsx:127-145 | a non-blank row without errors contributes exactly one plan row |
| ExcelUploader.ErrorsBounded | src/features/dashboard/components/ExcelUploader.tsx:108-116 | an upload has at most three errors per sheet row |
| ExcelUploader.TemplateLineOf | src/features/dashboard/components/ExcelUploader.tsx:221-234 | the template line at a triple's position is that triple's line |
| ExcelUploader.TemplateData | src/features/dashboard/components/ExcelUploader.tsx:218-234 | the template has 1000 lines, one per (channel, season, category) triple in channel-major order, with the channel name, the season code, the category name and zero amounts |
| ExcelUploader.AsRawRows | src/features/dashboard/components/ExcelUploader.tsx:178-181 | the sheet reader gives each template line back as the row with its three texts under the first headers and its three numbers |
| ExcelUploader.TemplateRowTexts | src/features/dashboard/components/ExcelUploader.tsx:81-92 | a template line's texts are found under the first accepted headers |
| ExcelUploader.TemplateRowLookups | src/features/dashboard/components/ExcelUploader.tsx:104-106 | the lookups of a template line give back its own triple's codes |
| ExcelUploader.TemplateRowNoErrors | src/features/dashboard/components/ExcelUploader.tsx:108-116 | a template line gives no error |
| ExcelUploader.GridRowIdKept | src/features/dashboard/components/ExcelUploader.tsx:129-137 | against the rows of an empty scenario, an uploaded triple keeps the id of that triple's row |
| ExcelUploader.TemplateRowParses | src/features/dashboard/components/ExcelUploader.tsx:127-145 | a template line uploaded over an empty scenario becomes exactly that scenario's row of the triple |
| ExcelUploader.TemplateLineTriple | src/features/dashboard/components/ExcelUploader.tsx:221-234 | line n of the template is the line of the triple n encodes |
| ExcelUploader.TemplateLineClean | src/features/dashboard/components/ExcelUploader.tsx:221-234 | every template line uploads without error |
| ExcelUploader.TemplateLineParses | src/features/dashboard/components/ExcelUploader.tsx:127-145 | template line n parses to row n of an empty scenario |
| ExcelUploader.TemplateUploadClean | src/features/dashboard/components/ExcelUploader.tsx:218-234 | uploading the unchanged template gives no error |
| ExcelUploader.TemplateRoundTrip | src/features/dashboard/components/ExcelUploader.tsx:218-234 | uploading the unchanged template over an empty scenario gives back exactly that scenario's 1000 rows, ids included |
| ExcelUploader.TemplateLineStep | src/features/dashboard/components/ExcelUploader.tsx:79-148 | the loop's contribution for template line n is row n of the empty scenario |
| SalesInputTable.CalculateGroupTotal | src/features/dashboard/components/SalesInputTable.tsx:49-57 | the pair accumulator ends with the tag-price total and the actual-sales total of the rows |
| SalesInputTable.GroupTotalAppend | src/features/dashboard/components/SalesInputTable.tsx:49-57 | the totals of two runs of rows add up to the totals of both together |
| SalesInputTable.ToggleGroup | src/features/dashboard/components/SalesInputTable.tsx:65-75 | the new set flips the membership of the toggled key and keeps every other key as it was |
| SalesInputTable.FlippedUnique | src/features/dashboard/components/SalesInputTable.tsx:65-75 | the toggle's outcome is determined: two sets that flip the same key are equal |
| SalesInputTable.ToggleTwiceRestores | src/features/dashboard/components/SalesInputTable.tsx:65-75 | toggling a key twice gives back the starting set |
| SalesInputTable.AddEach | src/features/dashboard/components/SalesInputTable.tsx:80-84 | adding each key of a list one by one gives the old set joined with the list's keys |
| SalesInputTable.ExpandAll | src/features/dashboard/components/SalesInputTable.tsx:77-87 | the expanded set is exactly the channel codes, the season codes or the category codes of the grouping, and empty for 'none' |
| SalesInputTable.IndexMap | src/features/dashboard/components/SalesInputTable.tsx:94-105 | the order map holds exactly the table's keys, each mapped to an index where that key sits |
| SalesInputTable.RanksBounded | src/features/dashboard/components/SalesInputTable.tsx:117-121 | every rank is between 0 and 999 |
| SalesInputTable.CompareAgreesWithKey | src/features/dashboard/components/SalesInputTable.tsx:116-122 | the comparator orders two rows as their base-1000 (channel, season, category) rank keys do, both for "before" and "tied" |
| SalesInputTable.Base1000 | src/features/dashboard/components/SalesInputTable.tsx:116-122 | three-digit base-1000 numbers compare lexicographically digit by digit |
| SalesInputTable.FilteredInputs | src/features/dashboard/components/SalesInputTable.tsx:107-123 | the filtered, sorted list is no longer than the input |
| SalesInputTable.FilteredInputsMembers | src/features/dashboard/components/SalesInputTable.tsx:108-113 | the list is a permutation of the rows passing every non-'all' filter, and a row is in it exactly when it is an input passing the filters |
| SalesInputTable.FilteredInputsOrdered | src/features/dashboard/components/SalesInputTable.tsx:116-122 | the list is ordered by the comparator: channel rank, then season rank, then category rank |
| SalesInputTable.FilteredInputsStable | src/features/dashboard/components/SalesInputTable.tsx:116-122 | rows the comparator ties keep their input order |
| SalesInputTable.UnknownChannelsLast | src/features/dashboard/components/SalesInputTable.tsx:117 | once a row of an unknown channel appears, every later row's channel is unknown too |
| SalesInputTable.IndexMapAt | src/features/dashboard/components/SalesInputTable.tsx:94-97 | in a table without duplicates the rank of the key at index i is i |
| SalesInputTable.KnownChannelsInOrder | src/features/dashboard/components/SalesInputTable.tsx:117-118 | rows of known channels come in the channel table's order |
| SalesInputTable.CodesDistinct | src/features/dashboard/types/plan26s.ts:4-30 | a table without case-insensitive clashes has distinct codes |
| SalesInputTable.ChannelCodesDistinct | src/features/dashboard/types/plan26s.ts:4-15 | the channel codes are distinct |
| SalesInputTable.BaselineFor | src/features/dashboard/components/SalesInputTable.tsx:133 | the baseline record's entry for a channel, absent exactly when the record has no entry for it |
| SalesInputTable.SeasonEntries | src/features/dashboard/components/SalesInputTable.tsx:154-159 | the seasons as groups keyed and labelled by the season code |
| SalesInputTable.GroupedData | src/features/dashboard/components/SalesInputTable.tsx:125-128 | ungrouped, there is one group `all` holding every filtered row |
| SalesInputTable.KeyedGroupsSpec | src/features/dashboard/components/SalesInputTable.tsx:154-167 | an entry's group appears exactly when some filtered row carries that entry's key |
| SalesInputTable.KeyedGroupsOrder | src/features/dashboard/components/SalesInputTable.tsx:154-167 | every group is the non-empty group of an entry, and groups follow the table's order |
| SalesInputTable.SeasonGroupsSpec | src/features/dashboard/components/SalesInputTable.tsx:154-159 | grouped by season, a season has a group exactly when some filtered row has that season |
| SalesInputTable.CategoryGroupsSpec | src/features/dashboard/components/SalesInputTable.tsx:162-167 | grouped by category, a category has a group exactly when some filtered row has that category |
| SalesInputTable.ChannelGroupsSpec | src/features/dashboard/components/SalesInputTable.tsx:130-151 | grouped by channel, a channel's group is shown exactly when its rows have data or its baseline is non-zero |
| SalesInputTable.ChannelGroupsOrder | src/features/dashboard/components/SalesInputTable.tsx:130-151 | channel groups are the groups of shown channels, in the channel table's order |
| SalesInputTable.KeyedGroupAt | src/features/dashboard/components/SalesInputTable.tsx:154-167 | every group of a keyed grouping is the non-empty group of one entry |
| SalesInputTable.ChannelGroupAt | src/features/dashboard/components/SalesInputTable.tsx:130-151 | every channel group belongs to a table channel that has data or a baseline |
| SalesInputTable.ExpandAllOpensEveryGroup | src/features/dashboard/components/SalesInputTable.tsx:77-87 | after expanding all, every group of the same grouping is shown open |
| SalesInputTable.NamePartAt | src/features/dashboard/components/SalesInputTable.tsx:174-175 | the name found for a table's own code is that entry's name |
| SalesInputTable.NamePartUnknown | src/features/dashboard/components/SalesInputTable.tsx:174-175 | a code the table does not hold contributes no label part |
| SalesInputTable.ChannelNamePart | src/features/dashboard/components/SalesInputTable.tsx:174-175 | a channel code's label part is that channel's name |
| SalesInputTable.CategoryNamePart | src/features/dashboard/components/SalesInputTable.tsx:181-182 | a category code's label part is that category's name |
| SalesInputTable.ItemLabelOfTableRow | src/features/dashboard/components/SalesInputTable.tsx:170-186 | a row's label joins channel name, season code and category name with ` / `, leaving out exactly the grouped dimension |
| SalesInputTable.ItemLabelUnknownChannel | src/features/dashboard/components/SalesInputTable.tsx:173-176 | a row of an unknown channel gets a label without a channel part |
| SalesInputTable.GetItemLabel | src/features/dashboard/components/SalesInputTable.tsx:170-186 | unless the rows are grouped by season, the label contains the row's season code |
| SalesInputTable.TotalSalesIsGroupTotal | src/features/dashboard/components/SalesInputTable.tsx:196-198 | the 26S total is the actual-sales total the group accumulator gives for the same rows |
| SalesInputTable.VsChangeRate | src/features/dashboard/components/SalesInputTable.tsx:209-210 | 0 without a positive 25S total, otherwise the change against it in percent |
| SalesInputTable.CalculateBaselineTotals | src/features/dashboard/components/SalesInputTable.tsx:201-207 | the discount is 0 unless the summed tag amount is positive, then the percentage that turns the tag sum into the actual sum, within 0 to 100 when the actual sum is between 0 and the tag sum |
| SalesInputTable.BaselineDiscountRecoversActual | src/features/dashboard/components/SalesInputTable.tsx:201-207 | applying the summed discount to the summed tag amount gives back the summed actual sales |
| PlanStore.ApplyRowPatch | src/features/dashboard/hooks/usePlan26SStore.ts:188-204 | every field the update sets replaces the row's own; the actual sales are the given ones when set, recomputed from the merged tag price and discount when either of those is set, and kept otherwise |
| PlanStore.ApplyRowPatchIdempotent | src/features/dashboard/hooks/usePlan26SStore.ts:188-204 | applying the same update twice is the same as applying it once |
| PlanStore.UpdateRows | src/features/dashboard/hooks/usePlan26SStore.ts:185-205 | the rows keep their number and order; a row whose id matches gets the update, every other row is unchanged |
| PlanStore.UpdateRowsTotal | src/features/dashboard/hooks/usePlan26SStore.ts:185-205 | updating the one row with that id changes the actual-sales total by exactly that row's change |
| PlanStore.UpdateRowsNoMatch | src/features/dashboard/hooks/usePlan26SStore.ts:185-186 | updating a row id no row has leaves the rows unchanged |
| PlanStore.ApplyEdit | src/features/dashboard/hooks/usePlan26SStore.ts:162-236 | an edit keeps the scenario's id, creation time and brand, sets the update time, and changes only the name, the rows or the cost-plan fields it concerns |
| PlanStore.EditMatching | src/features/dashboard/hooks/usePlan26SStore.ts:166-170 | the list keeps its length and order; scenarios with the id are edited and the others stay as they are |
| PlanStore.EditKeepsFind | src/features/dashboard/hooks/usePlan26SStore.ts:166-170 | after an edit the same ids are found, and the scenario found under the edited id is the edited one |
| PlanStore.FindScenario | src/features/dashboard/hooks/usePlan26SStore.ts:120-122 | the index of the first scenario with the id, or none when no scenario has it |
| PlanStore.FindById | src/features/dashboard/hooks/usePlan26SStore.ts:120-122 | a scenario of the list with that id, absent exactly when no scenario has it |
| PlanStore.Without | src/features/dashboard/hooks/usePlan26SStore.ts:98-100 | what remains after removing the id holds no scenario with that id, only scenarios of the list, and keeps their order |
| PlanStore.WithoutKeeps | src/features/dashboard/hooks/usePlan26SStore.ts:98-100 | every scenario with another id remains |
| PlanStore.ActiveAfterDelete | src/features/dashboard/hooks/usePlan26SStore.ts:110-112 | an active id other than the deleted one stays; the deleted active id moves to the first remaining scenario's id, or to null when none remains |
| PlanStore.ActiveAfterDeleteExists | src/features/dashboard/hooks/usePlan26SStore.ts:96-116 | an active id that named a scenario before a deletion still names one after it |
| PlanStore.Duplicate | src/features/dashboard/hooks/usePlan26SStore.ts:126-137 | the copy has a new id, the name with ` (복사본)`, fresh times, the original's brand and cost plan, and the same rows with new ids `row-<now>-<index>` |
| PlanStore.DuplicateRowIdsDistinct | src/features/dashboard/hooks/usePlan26SStore.ts:133-136 | the copy's row ids are pairwise distinct |
| PlanStore.SameFiguresSameSums | src/features/dashboard/hooks/usePlan26SStore.ts:133-136 | rows that differ only in their ids have the same totals, overall and per key |
| PlanStore.DuplicateSameTotal | src/features/dashboard/hooks/usePlan26SStore.ts:126-137 | the copy's actual-sales total equals the original's |
| PlanStore.ChannelSummaryOf | src/features/dashboard/hooks/usePlan26SStore.ts:272-289 | a channel's entry: its code and name, its rows' actual-sales sum as 26S, the given 25S figure, their difference, and the change rate (0 when 25S is not positive) |
| PlanStore.ChannelSummaries | src/features/dashboard/hooks/usePlan26SStore.ts:272-290 | one entry per channel, in table order |
| PlanStore.SeasonSummaries | src/features/dashboard/hooks/usePlan26SStore.ts:299-316 | one entry per season, in table order, with the season's actual-sales sum, 25S 0, change equal to 26S and rate 0 |
| PlanStore.CategorySummaries | src/features/dashboard/hooks/usePlan26SStore.ts:325-342 | one entry per category, in table order, with the category's actual-sales sum, 25S 0, change equal to 26S and rate 0 |
| PlanStore.ChannelSummariesSumOver | src/features/dashboard/hooks/usePlan26SStore.ts:272-290 | the 26S figures of the channel entries add up to the actual sales of the rows whose channel is listed |
| PlanStore.SeasonSummariesSumOver | src/features/dashboard/hooks/usePlan26SStore.ts:299-316 | the 26S figures of the season entries add up to the actual sales of the rows whose season is listed |
| PlanStore.CategorySummariesSumOver | src/features/dashboard/hooks/usePlan26SStore.ts:325-342 | the 26S figures of the category entries add up to the actual sales of the rows whose category is listed |
| PlanStore.ChannelCodesDistinct | src/features/dashboard/types/plan26s.ts:4-15 | the channel codes are distinct |
| PlanStore.CategoryCodesDistinct | src/features/dashboard/types/plan26s.ts:24-30 | the category codes are distinct |
| PlanStore.ChannelSummaryTotal | src/features/dashboard/hooks/usePlan26SStore.ts:272-290 | when every row's channel is a table channel, the channel entries' 26S figures add up to the scenario's total |
| PlanStore.SeasonSummaryTotal | src/features/dashboard/hooks/usePlan26SStore.ts:299-316 | when every row's season is a table season, the season entries' 26S figures add up to the scenario's total |
| PlanStore.CategorySummaryTotal | src/features/dashboard/hooks/usePlan26SStore.ts:325-342 | when every row's category is a table category, the category entries' 26S figures add up to the scenario's total |
| PlanStore.Plan26SStore.constructor | src/features/dashboard/hooks/usePlan26SStore.ts:72-74 | the store starts with no scenarios, no active ids and no 25S totals |
| PlanStore.Plan26SStore.GetScenarios | src/features/dashboard/hooks/usePlan26SStore.ts:247-249 | the brand's list, or the empty list for an unknown brand |
| PlanStore.Plan26SStore.CreateScenario | src/features/dashboard/hooks/usePlan26SStore.ts:76-94 | appends exactly one fresh empty scenario (named when a non-empty name is given) to the brand's list, creating the list when absent, makes it the brand's active scenario and returns its id; other brands and the 25S totals are unchanged |
| PlanStore.Plan26SStore.DeleteScenario | src/features/dashboard/hooks/usePlan26SStore.ts:96-116 | removes every scenario with the id from the brand's list; the active id moves as the fallback rule says, and a brand without an entry gets a null one; nothing else changes, and an active id that named a scenario still does |
| PlanStore.Plan26SStore.DuplicateScenario | src/features/dashboard/hooks/usePlan26SStore.ts:118-151 | an unknown id returns "" and changes nothing; a known one appends the copy of the first scenario with that id, makes it active and returns its id |
| PlanStore.Plan26SStore.SetActiveScenario | src/features/dashboard/hooks/usePlan26SStore.ts:153-160 | only the brand's active id changes |
| PlanStore.Plan26SStore.Edit | src/features/dashboard/hooks/usePlan26SStore.ts:162-236 | only the brand's list changes, and only in the scenarios with the id |
| PlanStore.Plan26SStore.UpdateScenarioName | src/features/dashboard/hooks/usePlan26SStore.ts:162-173 | renames the scenarios with the id and refreshes their update time; nothing else changes |
| PlanStore.Plan26SStore.UpdateSalesInput | src/features/dashboard/hooks/usePlan26SStore.ts:175-210 | updates only the rows with the row id inside the scenarios with the scenario id; all other scenarios, rows and brands are unchanged |
| PlanStore.Plan26SStore.BulkUpdateSalesInputs | src/features/dashboard/hooks/usePlan26SStore.ts:212-223 | replaces the rows of the scenarios with the id; nothing else changes |
| PlanStore.Plan26SStore.UpdateCostPlan | src/features/dashboard/hooks/usePlan26SStore.ts:225-236 | merges the given cost-plan fields into the scenarios with the id; nothing else changes |
| PlanStore.Plan26SStore.SetSeason25SData | src/features/dashboard/hooks/usePlan26SStore.ts:238-245 | only the brand's 25S total changes |
| PlanStore.Plan26SStore.GetActiveScenario | src/features/dashboard/hooks/usePlan26SStore.ts:251-256 | null without a (non-empty) active id; otherwise the brand's scenario with that id, or null when it is gone |
| PlanStore.Plan26SStore.GetSeason25STotal | src/features/dashboard/hooks/usePlan26SStore.ts:258-260 | the brand's 25S total, or 0 when none is set |
| PlanStore.Plan26SStore.GetChannelSummary | src/features/dashboard/hooks/usePlan26SStore.ts:262-291 | [] for an unknown scenario; otherwise one entry per channel in order with the channel's actual-sales sum, a tenth of the brand's 25S total, the change, and the change rate (26S − 25S) / 25S × 100 when 25S is positive, else 0 |
| PlanStore.Plan26SStore.GetSeasonSummary | src/features/dashboard/hooks/usePlan26SStore.ts:293-317 | [] for an unknown scenario; otherwise one entry per season in order, with code and name the season code, 25S 0, 26S the season's actual-sales sum, change equal to 26S and rate 0 |
| PlanStore.Plan26SStore.GetItemCategorySummary | src/features/dashboard/hooks/usePlan26SStore.ts:319-343 | [] for an unknown scenario; otherwise one entry per category in order, with its code and name, 25S 0, 26S the category's actual-sales sum, change equal to 26S and rate 0 |
| PlanStore.Plan26SStore.GetTotalSales26S | src/features/dashboard/hooks/usePlan26SStore.ts:345-355 | 0 for an unknown scenario, otherwise the sum of its rows' actual sales |
| PlanStore.TotalMatchesChannelSummary | src/features/dashboard/hooks/usePlan26SStore.ts:262-291 | when every row's channel is a table channel, the channel summary's 26S figures add up to the 26S total |
| ScenarioStore.Merge | src/features/dashboard/hooks/useScenarios.ts:88 | each top-level field the update sets replaces the scenario's own; the others are kept |
| ScenarioStore.MergeLaws | src/features/dashboard/hooks/useScenarios.ts:88 | an empty update changes nothing, and merging the same update twice is merging it once |
| ScenarioStore.MergeMatching | src/features/dashboard/hooks/useScenarios.ts:87-89 | the list keeps its length and order; scenarios with the id are merged and the others kept |
| ScenarioStore.MergeMatchingAbsent | src/features/dashboard/hooks/useScenarios.ts:87-89 | updating an id no scenario has leaves the list unchanged |
| ScenarioStore.Without | src/features/dashboard/hooks/useScenarios.ts:98 | what remains holds no scenario with the id, only scenarios of the list, and keeps their order |
| ScenarioStore.WithoutKeeps | src/features/dashboard/hooks/useScenarios.ts:98 | every scenario with another id remains, and removing an absent id changes nothing |
| ScenarioStore.FindById | src/features/dashboard/hooks/useScenarios.ts:123 | the first scenario with the id, absent exactly when no scenario has it |
| ScenarioStore.Scenarios.constructor | src/features/dashboard/hooks/useScenarios.ts:71-72 | the store starts with no scenarios and no active ids |
| ScenarioStore.Scenarios.GetScenarios | src/features/dashboard/hooks/useScenarios.ts:116-118 | the brand's list, or [] for an unknown brand |
| ScenarioStore.Scenarios.AddScenario | src/features/dashboard/hooks/useScenarios.ts:74-81 | appends the scenario to the brand's list (creating it when absent) and changes no active id |
| ScenarioStore.Scenarios.UpdateScenario | src/features/dashboard/hooks/useScenarios.ts:83-92 | merges the data only into the scenarios with the id; the list keeps its length and the active ids are unchanged |
| ScenarioStore.Scenarios.DeleteScenario | src/features/dashboard/hooks/useScenarios.ts:94-105 | removes every scenario with the id; the brand's active id becomes null exactly when it was that id, with no fallback, a brand without an entry gets a null one, and any other entry is unchanged |
| ScenarioStore.Scenarios.SetActiveScenario | src/features/dashboard/hooks/useScenarios.ts:107-114 | only the given brand's active id changes |
| ScenarioStore.Scenarios.GetActiveScenario | src/features/dashboard/hooks/useScenarios.ts:120-124 | null when no (non-empty) active id is set; otherwise the listed scenario with that id, null exactly when none is listed |
| ScenarioStore.DeleteActiveLeavesNone | src/features/dashboard/hooks/useScenarios.ts:94-105 | after a deletion no remaining scenario has the deleted id |
| XlsxSecurity.Resolve | src/lib/xlsx-security.ts:37-44 | every supplied option overrides its default field by field; missing ones take 10 MB, 10 sheets, 10000 rows, 100 columns and formulas off |
| XlsxSecurity.ResolveSupplied | src/lib/xlsx-security.ts:210-213 | passing resolved limits on as options resolves to the same limits, and no options resolve to the defaults |
| XlsxSecurity.ValidateMagicNumber | src/lib/xlsx-security.ts:49-63 | a buffer passes exactly when it starts with the ZIP bytes 50 4B or the OLE2 bytes D0 CF 11 E0 |
| XlsxSecurity.ValidateArrayBuffer | src/lib/xlsx-security.ts:122-133 | valid exactly when there is no error, exactly when the signature is right; otherwise the one format error |
| XlsxSecurity.TestDangerous | src/lib/xlsx-security.ts:109 | a name matches the dangerous-character class exactly when one of its characters is `<>:"\|?*` or a control character below 0x20 |
| XlsxSecurity.PushIf | src/lib/xlsx-security.ts:76-111 | a conditional push appends the error exactly when its check failed |
| XlsxSecurity.ValidateFile | src/lib/xlsx-security.ts:68-117 | the errors are those of the failed file checks in check order, and the file is valid exactly when there are none |
| XlsxSecurity.CheckHas | src/lib/xlsx-security.ts:76-111 | an error is pushed by a check exactly when the check failed |
| XlsxSecurity.ErrorsOfSpec | src/lib/xlsx-security.ts:76-111 | an error is reported exactly when its own check failed |
| XlsxSecurity.UnsafeNameIff | src/lib/xlsx-security.ts:109 | a name is refused exactly when it has a dangerous character or contains `..` |
| XlsxSecurity.PushOrdered | src/lib/xlsx-security.ts:76-111 | pushing the next check's error keeps the errors in check order |
| XlsxSecurity.SizeAndTypeOrdered | src/lib/xlsx-security.ts:76-111 | the errors come in the order the checks are written |
| XlsxSecurity.ErrorsOfDistinct | src/lib/xlsx-security.ts:76-111 | each check reports at most once, so there are at most six distinct errors |
| XlsxSecurity.FileValidIff | src/lib/xlsx-security.ts:68-117 | a file passes exactly when its size is between 100 bytes and the limit, its MIME type is empty or allowed, its lower-cased name ends in .xlsx or .xls, the name has at most 255 characters and is clean |
| XlsxSecurity.CheckSpan | src/lib/xlsx-security.ts:156-172 | one sheet's row and column checks append that sheet's size errors |
| XlsxSecurity.ScanFormulas | src/lib/xlsx-security.ts:177-190 | the scan of one sheet appends the error of its first formula cell, if any, and stops there |
| XlsxSecurity.CheckSpans | src/lib/xlsx-security.ts:155-173 | the loop over the sheets appends every sheet's size errors in sheet order |
| XlsxSecurity.ScanAllFormulas | src/lib/xlsx-security.ts:177-191 | the loop over the sheets appends every sheet's formula error in sheet order |
| XlsxSecurity.ValidateWorkbook | src/lib/xlsx-security.ts:138-198 | the errors are the sheet-count errors, then the size errors, then (with formulas off) the formula errors, and the workbook is valid exactly when there are none |
| XlsxSecurity.WorkbookValidIff | src/lib/xlsx-security.ts:138-198 | a workbook passes exactly when it has 1 to maxSheets sheets, every sheet is within the row and column limits, and with formulas off no sheet has a formula |
| XlsxSecurity.SpansCleanIff | src/lib/xlsx-security.ts:155-173 | no size error exactly when every sheet is within its limits |
| XlsxSecurity.FormulasCleanIff | src/lib/xlsx-security.ts:177-191 | no formula error exactly when no sheet has a formula cell |
| XlsxSecurity.FormulaErrorsAtMostOnePerSheet | src/lib/xlsx-security.ts:184-189 | each sheet gives at most one formula error, so there are no more formula errors than sheets |
| XlsxSecurity.FormulaErrorNamesFirstFormula | src/lib/xlsx-security.ts:180-189 | a sheet's formula error names the sheet and its first formula cell |
| XlsxSecurity.SheetLimitsAgree | src/lib/xlsx-security.ts:257-275 | the conversion's row and column check passes exactly when the workbook check finds no size error for that sheet |
| XlsxSecurity.Truncate | src/lib/xlsx-security.ts:295 | the cut name is the whole name when it has at most n characters and otherwise its first n characters |
| XlsxSecurity.RemoveDotDotSpec | src/lib/xlsx-security.ts:294 | after removing `..` pairs no `..` is left, only characters of the input remain, and a leading character other than a dot stays first |
| XlsxSecurity.RemoveDotDotKeeps | src/lib/xlsx-security.ts:294 | a name without `..` is left as it is |
| XlsxSecurity.RemoveDotDot | src/lib/xlsx-security.ts:294 | removing `..` pairs shortens the name by an even number of characters |
| XlsxSecurity.SanitizeFileName | src/lib/xlsx-security.ts:292-295 | the sanitised name has at most 200 characters, each a character of the name that is not dangerous |
| XlsxSecurity.SanitizeFileNameSafe | src/lib/xlsx-security.ts:292-295 | the sanitised file name has no dangerous character, no `..` and at most 200 characters |
| XlsxSecurity.SanitizeFileNameKeepsSafe | src/lib/xlsx-security.ts:292-295 | a name that is already safe is left as it is |
| XlsxSecurity.SanitizeFileNameIdempotent | src/lib/xlsx-security.ts:292-295 | sanitising twice is sanitising once |
| XlsxSecurity.NoDotDotNotContains | src/lib/xlsx-security.ts:109 | having no two consecutive dots is not containing `..` |
| XlsxSecurity.SanitizedNamePassesUploadChecks | src/lib/xlsx-security.ts:109 | a sanitised file name passes the upload's name-character and length checks |
| XlsxSecurity.SanitizeSheetName | src/lib/xlsx-security.ts:302-304 | the sanitised sheet name has at most 31 characters, none of them `[]\/?*:` |
| XlsxSecurity.SanitizeSheetNameKeepsAllowed | src/lib/xlsx-security.ts:302-304 | an allowed sheet name of at most 31 characters is left as it is |
| XlsxSecurity.SecureWriteFile | src/lib/xlsx-security.ts:286-321 | a sanitised name not ending in .xlsx is refused first, then more than 10000 data rows; otherwise the safe .xlsx name, a sheet name of at most 31 characters and all rows are written |
| SalesData.ChannelRank | src/features/dashboard/hooks/useSalesData.ts:79-82 | the index of the first occurrence of the name in the channel order, or 999 exactly when the name is not in it |
| SalesData.SortByChannelOrder | src/features/dashboard/hooks/useSalesData.ts:77-85 | the sorted copy has as many items as the input |
| SalesData.ChannelOrderDistinct | src/features/dashboard/hooks/useSalesData.ts:63-74 | the ten names of the channel order are distinct |
| SalesData.SortByChannelOrderSpec | src/features/dashboard/hooks/useSalesData.ts:77-85 | the result is a permutation of the input, ordered by rank, with items of equal rank in input order, and sorting it again changes nothing |
| SalesData.UnknownChannelsLast | src/features/dashboard/hooks/useSalesData.ts:81-82 | once an unknown channel appears, every later item's channel is unknown too |
| SalesData.KnownChannelsInOrder | src/features/dashboard/hooks/useSalesData.ts:63-83 | known channels appear in exactly the order of the channel list |
| SalesData.SortedUnchanged | src/features/dashboard/hooks/useSalesData.ts:77-85 | a list already ordered by rank comes back unchanged |
| VatExcludedSales.CalculateShippingPrice | src/features/dashboard/hooks/useVatExcludedSalesData.ts:46-59 | outside the retail channels the price is the VAT-excluded sales times 1.1; for a retail channel with positive actual sales it is the smaller of that and the actual sales; with actual sales at or below zero there is no cap |
| VatExcludedSales.ShippingPriceBounds | src/features/dashboard/hooks/useVatExcludedSalesData.ts:48-58 | the price never exceeds the VAT-excluded sales times 1.1, and a capped retail price never exceeds the actual sales |
| EndStockTooltip.KindOf | src/features/dashboard/components/EndStockTooltip.tsx:30-38 | an entry is a per-season item exactly when its label starts with `SEASON_ITEM_`, a season total exactly when it starts with `SEASON_` but not `SEASON_ITEM_`, and an item entry exactly when it does not start with `SEASON_` |
| EndStockTooltip.SplitData | src/features/dashboard/components/EndStockTooltip.tsx:25-41 | the loop returns, in input order, the entries of each of the three kinds |
| EndStockTooltip.SplitDataPartition | src/features/dashboard/components/EndStockTooltip.tsx:25-41 | the three lists together hold every entry exactly once, and each entry is in the list of its own kind |
| EndStockTooltip.GroupOf | src/features/dashboard/components/EndStockTooltip.tsx:51-64 | a label containing '의류' is clothing; otherwise exactly the labels 모자, 신발, 가방 and 기타ACC are accessories; everything else is other |
| EndStockTooltip.ItemGroups | src/features/dashboard/components/EndStockTooltip.tsx:44-67 | the loop returns, in input order, the clothing, accessory and other entries |
| EndStockTooltip.ItemGroupsPartition | src/features/dashboard/components/EndStockTooltip.tsx:44-67 | the three groups together hold every item entry exactly once |
| EndStockTooltip.ItemGroupsTotal | src/features/dashboard/components/EndStockTooltip.tsx:96-98 | the group totals add up to the total of all item entries |
| EndStockTooltip.CalculateGroupTotal | src/features/dashboard/components/EndStockTooltip.tsx:96-98 | the total of non-negative amounts is non-negative, of zero amounts is 0, and of one entry is its amount |
| EndStockTooltip.LastUpper | src/features/dashboard/components/EndStockTooltip.tsx:83 | the season type taken from the last character is at most one character long |
| EndStockTooltip.SlotOf | src/features/dashboard/components/EndStockTooltip.tsx:79-85 | a label with fewer than three `_` parts has no slot; a slot has type S, N or F, its full season is the third part, and its type is that part's last character in upper case |
| EndStockTooltip.AddEntry | src/features/dashboard/components/EndStockTooltip.tsx:86-89 | adding an amount keeps the S, N and F groups present |
| EndStockTooltip.Buckets | src/features/dashboard/components/EndStockTooltip.tsx:70-94 | the season groups always have an S, an N and an F group |
| EndStockTooltip.SeasonGroupsOf | src/features/dashboard/components/EndStockTooltip.tsx:70-94 | the loop builds the season groups of the per-season entries |
| EndStockTooltip.AddSeasonEntry | src/features/dashboard/components/EndStockTooltip.tsx:77-91 | one pass of the loop body adds the entry's amount to its slot and leaves the groups unchanged when there is no slot |
| EndStockTooltip.BucketsSum | src/features/dashboard/components/EndStockTooltip.tsx:77-91 | a full season is listed under its type exactly when some entry has that slot, and its amount is the sum of those entries' amounts |
| EndStockTooltip.AddEntryAt | src/features/dashboard/components/EndStockTooltip.tsx:86-89 | adding an amount increases only its own slot, by that amount, starting from 0 for a new slot; every other slot is unchanged |
| EndStockTooltip.ShortLabelsIgnored | src/features/dashboard/components/EndStockTooltip.tsx:80 | an entry whose label has fewer than three `_` parts changes no group |
| Calc.Div | src/features/dashboard/lib/calc.ts:58 | a division has a finite result exactly when the dividend is finite and the divisor is not 0, and the result is then the quotient |
| Calc.Minus | src/features/dashboard/lib/calc.ts:59 | a subtraction is finite exactly when its left operand is, and adding back what was subtracted gives that operand |
| Calc.GrowthRateFor | src/features/dashboard/lib/calc.ts:42-44 | the common rate when it is in use; otherwise the rate of the first entry for the channel, or 0 when there is none |
| Calc.ChannelRevenues | src/features/dashboard/lib/calc.ts:41-55 | one result per channel, in order, with the channel's names, its 25S revenue, its growth rate, and its 26S revenue grown by that rate |
| Calc.CalculateSimulation | src/features/dashboard/lib/calc.ts:37-74 | total revenue is the sum of the 26S revenues; cost of goods is revenue over the mark-up and is finite exactly when the mark-up is not 0; gross and operating profit follow from it; personnel cost is headcount times cost per head; each rate is finite exactly when its profit is and revenue is not 0 |
| Calc.CommonRateScalesTotal | src/features/dashboard/lib/calc.ts:41-57 | with a common rate, the 26S total is the 25S total grown by that rate |
| Calc.ZeroGrowthKeepsRevenue | src/features/dashboard/lib/calc.ts:41-57 | a common rate of 0 leaves every channel's revenue and the total as in 25S |
| Calc.ProfitAddsUp | src/features/dashboard/lib/calc.ts:57-61 | with a non-zero mark-up, cost of goods, advertising, personnel cost and operating profit add up to the revenue |
| Calc.GetDefaultSimulationInput | src/features/dashboard/lib/calc.ts:76-90 | a rate of 5 for every channel in order, a common rate of 5 in use, order amount 0, mark-up 250, advertising 50000, headcount 100, cost per head 600 |
| Calc.DefaultRates | src/features/dashboard/lib/calc.ts:78-81 | one entry per channel, in order, each with rate 5 |
| Calc.DefaultSimulation | src/features/dashboard/lib/calc.ts:76-90 | the default input gives 105 percent of the 25S revenue, cost of goods of 40 percent of it, and a personnel cost of 60000 |
| Calc.DefaultChannelRates | src/features/dashboard/lib/calc.ts:78-81 | the default per-channel rate of every channel is 5, so switching off the common rate changes nothing |
| Calc.CompareMetric | src/features/dashboard/lib/calc.ts:135-139 | the change is 26S minus 25S and is finite exactly when the 26S value is; the change rate is the change over the 25S value in percent and is finite exactly when, in addition, the 25S value is not 0 |
| Calc.Compare25Svs26S | src/features/dashboard/lib/calc.ts:92-140 | six comparisons in order: revenue, cost of goods, gross profit, advertising, personnel cost and operating profit, each pairing the 25S value with the matching 26S value |
| Calc.CompareSelf | src/features/dashboard/lib/calc.ts:137-138 | comparing a value with itself gives a change of 0, and a change rate of 0 when the value is not 0 |
| Calc.GrowAdd | src/features/dashboard/lib/calc.ts:46 | growing a sum by a rate is growing each part and adding |
| Calc.GrowZero | src/features/dashboard/lib/calc.ts:46 | a growth rate of 0 leaves a revenue unchanged |
| SeasonPeriods.Pad2 | src/app/api/pnl/actual-sales/route.ts:23-28 | the two-digit month suffix of a window is two decimal digits |
| SeasonPeriods.SeasonCode | src/app/api/pnl/actual-sales/route.ts:11-12 | a season code made of a two-digit year and a type reads back as that year and that type |
| SeasonPeriods.SeasonYear | src/app/api/pnl/actual-sales/route.ts:11 | a season whose first two characters are digits has their decimal value as its year; an empty season has NaN |
| SeasonPeriods.SeasonType | src/app/api/pnl/actual-sales/route.ts:12 | the type is everything after the first two characters, the empty text for a shorter season |
| SeasonPeriods.Month | src/app/api/pnl/actual-sales/route.ts:23-28 | `20${year + shift}MM` starts with `20` and ends with the two-digit month, and is `20NaN` followed by the month when the year is NaN |
| SeasonPeriods.CurrentPeriods | src/app/api/pnl/actual-sales/route.ts:22-43 | the window starts in the type's first month (March for S, September for F, January otherwise) and ends 5 months later for S and F and 11 months later otherwise; the current-season goods start 14 months before the window for S and 6 months before it otherwise |
| SeasonPeriods.SixMonthsBefore | src/app/api/pnl/actual-sales/route.ts:45-47 | the month before the S window (February) for S, and the month before the F window (August) for any other type |
| SeasonPeriods.RequestParams | src/app/api/pnl/actual-sales/route.ts:6-12 | the brand and the season are the query parameters when given and non-empty, else M and 23S; the windows are the current windows of the season's year and type |
| SeasonPeriods.MonthOfYear | src/app/api/pnl/actual-sales/route.ts:23-47 | while the shifted year has two digits, `20${year + shift}` followed by the month is the YYYYMM of year 2000 + year + shift |
| SeasonPeriods.CurrentPeriodsOfYear | src/app/api/pnl/actual-sales/route.ts:22-47 | for a year from 11 to 98: March to August with goods from January of the year before for S; September to February of the next year with goods from March for F; January to December with goods from July of the year before otherwise; the month before the window is February for S and August otherwise |
| SeasonPeriods.YearMonthValue | src/app/api/pnl/actual-sales/route.ts:23-25 | the YYYYMM text of year n and month m is a digit string whose value is n * 100 + m and whose month count is n * 12 + m |
| SeasonPeriods.MonthDistance | src/app/api/pnl/actual-sales/route.ts:22-43 | the month count between two YYYYMM texts is 12 per year plus the difference of the months |
| SeasonPeriods.PeriodLength | src/app/api/pnl/actual-sales/route.ts:22-47 | the S and F windows are six months long and the others twelve, and for S and F the month before the window is exactly one month before its start |
| SeasonPeriods.DefaultSeasonDigits | src/app/api/pnl/actual-sales/route.ts:7 | the default season is the text 23S and its window months are 202303, 202308 and 202201 |
| SeasonPeriods.DefaultParams | src/app/api/pnl/actual-sales/route.ts:6-7 | without parameters a route answers for brand M and season 23S, March to August 2023, with goods from January 2022 |
| ActualSalesRoute.PriorPeriods | src/app/api/pnl/actual-sales/route.ts:22-43 | the prior-year windows are the current windows of the year before, whatever the season text |
| ActualSalesRoute.PriorSixMonthsBefore | src/app/api/pnl/actual-sales/route.ts:48-50 | the prior month before the window is the one of the year before |
| ActualSalesRoute.TotalIsNotChannelCode | src/app/api/pnl/actual-sales/route.ts:306-310 | the total row's name does not start with the channel-code prefix |
| ActualSalesRoute.RowsPartition | src/app/api/pnl/actual-sales/route.ts:306-310 | the channel rows, the total rows and the channel-code rows together are the query's rows, each exactly once |
| ActualSalesRoute.ChannelRows | src/app/api/pnl/actual-sales/route.ts:306-310 | a row is in the channel data exactly when it is neither the total nor a channel-code row, and in the channel-code data exactly when its name has the prefix |
| ActualSalesRoute.NoTotalRow | src/app/api/pnl/actual-sales/route.ts:307-321 | without a total row the total and the retail amount are 0 and the YoY is null |
| ActualSalesRoute.FirstTotalRow | src/app/api/pnl/actual-sales/route.ts:307-321 | the totals come from the first total row, a missing or zero amount giving 0 and a zero YoY giving null |
| ActualSalesRoute.ActualSales | src/app/api/pnl/actual-sales/route.ts:305-330 | the channel data holds only channel rows and the channel-code data only channel-code rows, all from the query; the totals come from the first total row (0, 0 and null without one), a missing or zero amount giving 0 and a zero YoY null; the parameters are those of the request |
| VatExcludedSalesRoute.ChannelRows | src/app/api/pnl/vat-excluded-sales/route.ts:172-173 | a row is in the channel data exactly when it is not named '전체', and the channel rows and the total rows together are all rows, each once |
| VatExcludedSalesRoute.Totals | src/app/api/pnl/vat-excluded-sales/route.ts:173-179 | both totals come from the first '전체' row, a missing or zero amount giving 0, and are 0 without such a row |
| VatExcludedSalesRoute.VatExcludedSales | src/app/api/pnl/vat-excluded-sales/route.ts:172-185 | the channel data holds only rows of the query not named '전체'; both totals are 0 without a '전체' row; the parameters are those of the request |
| DirectCostRoute.ChannelRows | src/app/api/pnl/direct-cost/route.ts:223-224 | a row is in the data exactly when its code is not `TOTAL`, and the data and the `TOTAL` rows together are all rows, each once |
| DirectCostRoute.TotalsSpec | src/app/api/pnl/direct-cost/route.ts:224-240 | each total is the same column of the first `TOTAL` row, a missing or zero value giving 0; all totals are 0 without such a row; the distribution fee is always 0 |
| DirectCostRoute.TotalsOf | src/app/api/pnl/direct-cost/route.ts:227-240 | the distribution fee is always 0; without a total row every total is 0; otherwise each total is the same column of the row, a missing or zero value giving 0 |
| DirectCostRoute.DirectCost | src/app/api/pnl/direct-cost/route.ts:223-249 | the data holds only rows of the query whose code is not `TOTAL`; without a `TOTAL` row all totals are 0; the brand, the season and the window are those of the request |
| OrderAmountRoute.OrderPeriods | src/app/api/pnl/order-amount/route.ts:15-30 | the stock month and the first sales month assigned branch by branch are those of the season's current windows |
| OrderAmountRoute.SalesWindowMonths | src/app/api/pnl/order-amount/route.ts:18-30 | current-season sales run over 20 months for S, 12 for F and 18 for any other type |
| OrderAmountRoute.OrderAmountFields | src/app/api/pnl/order-amount/route.ts:87-102 | an empty result gives four zeros, otherwise the four amounts of the first row; the parameters report the brand, the season and its two months |
| OrderAmountRoute.OrderAmount | src/app/api/pnl/order-amount/route.ts:87-103 | the data is the first row of the query, or four zeros when there is none; the parameters report the brand, the season, the last month of the window and the month the current-season goods start |
| CostOfSalesRoute.DaysInMonth | src/app/api/pnl/cost-of-sales/route.ts:25-37 | every month has 28 to 31 days |
| CostOfSalesRoute.IntendedDateWindow | src/app/api/pnl/cost-of-sales/route.ts:21-39 | the corrected date window starts where the route's does and differs from it only for F |
| CostOfSalesRoute.DateWindowOf | src/app/api/pnl/cost-of-sales/route.ts:21-39 | the date window runs from day 1 of the window's first month to day 31 of its last month, except that the F window ends on day 28 |
| CostOfSalesRoute.DayOfYear | src/app/api/pnl/cost-of-sales/route.ts:25-38 | while the shifted year has two digits, `20${year + shift}-MM-DD` is the date text of year 2000 + year + shift |
| CostOfSalesRoute.YearMonthInjective | src/app/api/pnl/cost-of-sales/route.ts:22-36 | a YYYYMM text names exactly one year and month |
| CostOfSalesRoute.WindowsOfYear | src/app/api/pnl/cost-of-sales/route.ts:21-39 | for a year from 11 to 98 the month windows and the date windows of S, F and the other types, written with the years they name: March 1 to August 31, September 1 to February 28 of the next year, January 1 to December 31 |
| CostOfSalesRoute.SameMonth | src/app/api/pnl/cost-of-sales/route.ts:22-38 | two descriptions of the same YYYYMM month give the same date text and the same number of days |
| CostOfSalesRoute.DayOfMonth | src/app/api/pnl/cost-of-sales/route.ts:22-38 | a day of a month written as `20${year + shift}-MM-DD` is the date of the month named by the matching YYYYMM text |
| CostOfSalesRoute.DateWindowStartsOnFirstDay | src/app/api/pnl/cost-of-sales/route.ts:21-39 | the date window starts on the first day of the first month of the month window, for every season type |
| CostOfSalesRoute.IntendedDateWindowEndsOnLastDay | src/app/api/pnl/cost-of-sales/route.ts:21-39 | the corrected date window ends on the last day of the last month of the month window, for every season type |
| CostOfSalesRoute.LeapDayLeftOut | src/app/api/pnl/cost-of-sales/route.ts:27-32 | for 23F the month window ends in February 2024, which has 29 days, while the date window ends on February 28 |
| CostOfSalesRoute.MlbExcludeCondition | src/app/api/pnl/cost-of-sales/route.ts:42-44 | the extra SQL condition is non-empty exactly for brand M, and is then the clause leaving out season 21S of class A0100A0140 |
| CostOfSalesRoute.CogsComposition | src/app/api/pnl/cost-of-sales/route.ts:127-135 | the subtotal is the actual cost plus both valuation amounts, the actual cost is the base cost, each comes from the first row of its query, and a missing row or value counts as 0 |
| CostOfSalesRoute.CostOfSales | src/app/api/pnl/cost-of-sales/route.ts:127-153 | the subtotal is the actual cost plus both valuation amounts and the actual cost is the base cost; an empty cost query gives an actual cost of 0 and an empty valuation query valuation amounts of 0; the parameters are those of the request |
| EndStockRoute.EndStockYearIsNumber | src/app/api/pnl/end-stock/route.ts:163 | the year read from any season code is a number, never NaN, because of the '20' written before it |
| EndStockRoute.FirstCharIsS | src/app/api/pnl/end-stock/route.ts:164-167 | the one-character type is 'S' exactly when the rest of the code starts with 'S' |
| EndStockRoute.TargetAndPriorMonths | src/app/api/pnl/end-stock/route.ts:163-168 | as written, the target month is a YYYYMM digit text in August of the season's year for S and in February of that same year for any other type, and the prior month is a YYYYMM digit text twelve months earlier |
| EndStockRoute.EndStockRequest | src/app/api/pnl/end-stock/route.ts:160-178 | as written: the season is the parameter when given and non-empty, else 25S; the two months are the target and prior months of that season, digit strings twelve months apart, the target in August of the season's year for S and in February of that year otherwise |
| EndStockRoute.IntendedEndStockRequest | src/app/api/pnl/end-stock/route.ts:160-178 | corrected: the same season, with the target in August of the season's year for S and in February of the next year otherwise, the prior month twelve months earlier, and for S exactly the request as written |
| EndStockRoute.EndStockYearOf | src/app/api/pnl/end-stock/route.ts:163 | the year of a season code `YYt` is 20YY |
| EndStockRoute.CenturyText | src/app/api/pnl/end-stock/route.ts:163 | '20' followed by the first two characters of `YYt` is the decimal text of 20YY |
| EndStockRoute.EndStockTypeOf | src/app/api/pnl/end-stock/route.ts:164 | the type of `YYt` is the first character of `t`, and is 'S' exactly when `t` starts with 'S' |
| EndStockRoute.EndStockMonths | src/app/api/pnl/end-stock/route.ts:163-168 | as written, the target month is August of 20YY for S and February of 20YY for any other type, and the prior month lies twelve months before it |
| EndStockRoute.EndStockFebruaryIsYearEarly | src/app/api/pnl/end-stock/route.ts:167 | as written, the target month of `YYF` is February of 20YY, a year before the February of 20(YY+1) that ends the season's sales window |
| EndStockRoute.IntendedTargetIsSeasonEnd | src/app/api/pnl/end-stock/route.ts:166-168 | corrected, the target month of an S or F season is the last month of its sales window and the prior month is twelve months before it |
| EndStockRoute.IntendedKeepsSummer | src/app/api/pnl/end-stock/route.ts:167-168 | for an S season the corrected months are the months as written |
| EndStockRoute.DefaultEndStockDigits | src/app/api/pnl/end-stock/route.ts:160 | the default season is the text 25S and its months are 202508 and 202408 |
| EndStockRoute.DefaultEndStockMonths | src/app/api/pnl/end-stock/route.ts:160-178 | without a season parameter the route reports season 25S, August 2025 and August 2024 |
| OperatingExpenseRoute.Windows | src/app/api/pnl/operating-expense/route.ts:15-32 | the four months assigned branch by branch are the season window of S, or of F for any other type, and the same window one year earlier |
| OperatingExpenseRoute.TwoWindows | src/app/api/pnl/operating-expense/route.ts:20-32 | the S window of a two-digit year is March to August of that year and the F window September to February of the next year, as six-digit months |
| OperatingExpenseRoute.WindowsOfSeasonYear | src/app/api/pnl/operating-expense/route.ts:11-32 | for a year from 11 to 98, S reads March to August against the same months a year earlier, and any other type reads September to the next February against the window a year earlier |
| OperatingExpenseRoute.LastItemNamedIsLastRow | src/app/api/pnl/operating-expense/route.ts:133-141 | the item kept for a name is the one of the last row with that name |
| OperatingExpenseRoute.LastItemNamed | src/app/api/pnl/operating-expense/route.ts:130-141 | the zero item when no row has the name, otherwise the item of some row with that name |
| OperatingExpenseRoute.ItemsOf | src/app/api/pnl/operating-expense/route.ts:133-141 | no key is '전체' or '브랜드 영업비', and each key holds the item of the last row with that name |
| OperatingExpenseRoute.NoRowNamed | src/app/api/pnl/operating-expense/route.ts:130-131 | a name no row has keeps the zero item with a null YoY |
| OperatingExpenseRoute.ItemsOfSpec | src/app/api/pnl/operating-expense/route.ts:133-141 | a name is among the items exactly when it is neither '전체' nor '브랜드 영업비' and some row has it, and its item is then that of its last row |
| OperatingExpenseRoute.Classify | src/app/api/pnl/operating-expense/route.ts:129-141 | the loop builds the item map, and the total and the brand total are the items of the last rows with those names |
| OperatingExpenseRoute.EtcRollUp | src/app/api/pnl/operating-expense/route.ts:148-154 | the loop adds up the amounts of the listed etc items that are present, this season's and last season's |
| OperatingExpenseRoute.AccessorIsLastRow | src/app/api/pnl/operating-expense/route.ts:172-186 | reading a named item, or the zero item when absent, gives the item of the last row with that name |
| OperatingExpenseRoute.SumOfItemsIsSumOfRows | src/app/api/pnl/operating-expense/route.ts:148-154 | summing listed names over the item map is summing, for each name, the last row with that name |
| OperatingExpenseRoute.ListedItemsAreNotSummaries | src/app/api/pnl/operating-expense/route.ts:144-145 | none of the main or etc item names is one of the two summary names |
| OperatingExpenseRoute.EtcTotalOfRows | src/app/api/pnl/operating-expense/route.ts:148-154 | the etc totals are the sums over the rows of the eight etc names |
| OperatingExpenseRoute.EtcYoy | src/app/api/pnl/operating-expense/route.ts:169 | the etc YoY is present exactly when last season's amount is positive, and is then the ratio in percent rounded to the nearest whole number |
| OperatingExpenseRoute.OperatingExpense | src/app/api/pnl/operating-expense/route.ts:4-188 | the response holds the brand, the season, both windows, all rows, the item map, the last total and brand-total rows, the etc totals and YoY, and each named item as the last row with that name or the zero item |
| JsNumber.Round | src/features/dashboard/types/plan26s.ts:114 | `Math.round` gives the whole number within one half of its argument, halves rounding up |
| JsNumber.RoundOfInt | src/features/dashboard/types/plan26s.ts:114 | rounding a whole number gives it back |
| JsNumber.OrZero | src/app/api/pnl/actual-sales/route.ts:313 | `x \|\| 0` is the value when there is one and 0 for a missing value |
| JsNumber.OrNull | src/app/api/pnl/actual-sales/route.ts:321 | `x \|\| null` is null exactly when the value is missing or 0, and the value otherwise |
| JsNumber.DigitChar | src/app/api/pnl/actual-sales/route.ts:23 | a digit below 10 is written as a decimal digit character |
| JsNumber.DigitValue | src/app/api/pnl/actual-sales/route.ts:11 | a digit character has a value below 10 |
| JsNumber.Dec | src/app/api/pnl/actual-sales/route.ts:23-28 | the decimal text of a number is a non-empty digit string |
| JsNumber.DecRoundTrip | src/app/api/pnl/actual-sales/route.ts:11-23 | reading the decimal text of a number gives the number back |
| JsNumber.DecInjective | src/app/api/pnl/actual-sales/route.ts:23-28 | two numbers with the same decimal text are equal |
| JsNumber.CenturyPrefix | src/app/api/pnl/actual-sales/route.ts:23-28 | '20' followed by a two-digit year is the decimal text of 2000 plus that year |
| JsNumber.PlusPlus | src/app/api/pnl/actual-sales/route.ts:25-28 | shifting a year twice is shifting it once by the sum, NaN staying NaN |
| JsNumber.HexDigitValue | src/app/api/pnl/actual-sales/route.ts:11 | a hexadecimal digit has a value below 16 |
| JsNumber.DigitPrefix | src/app/api/pnl/actual-sales/route.ts:11 | `parseInt` reads the longest run of decimal digits at the start, stopping at the first non-digit |
| JsNumber.ParseInt | src/app/api/pnl/actual-sales/route.ts:11 | a non-empty digit string reads as its decimal value, and a text that is empty or only white space reads as NaN |
| JsNumber.HexPrefix | src/app/api/pnl/actual-sales/route.ts:11 | after `0x`, `parseInt` reads the longest run of hexadecimal digits, stopping at the first other character |
| JsNumber.ParseIntDec | src/app/api/pnl/actual-sales/route.ts:11 | `parseInt` reads back the decimal text of any natural number |
| JsNumber.DigitPrefixOfDigits | src/app/api/pnl/actual-sales/route.ts:11 | on a digit string the digits read are the whole string |
| JsText.TrimStart | src/app/api/pnl/actual-sales/route.ts:11 | a suffix of the text, the dropped part all white space and the rest not starting with white space |
| JsText.TrimEnd | src/features/dashboard/types/plan26s.ts:125 | a prefix of the text, the dropped part all white space and the rest not ending with white space |
| JsText.Trim | src/features/dashboard/types/plan26s.ts:125 | a slice of the text with only white space around it and no white space at either end |
| JsText.TrimOfTrimmed | src/features/dashboard/types/plan26s.ts:125-130 | trimming a text without white space at its ends changes nothing |
| JsText.Lower | src/features/dashboard/types/plan26s.ts:127 | lower case character by character, same length |
| JsText.Upper | src/features/dashboard/types/plan26s.ts:149 | upper case character by character, same length |
| JsText.Contains | src/features/dashboard/components/EndStockTooltip.tsx:52 | `includes` holds exactly when the pattern occurs somewhere in the text |
| JsText.ContainsFrom | src/features/dashboard/components/EndStockTooltip.tsx:52 | the search from index i succeeds exactly when the pattern occurs at i or later |
| JsText.IndexOf | src/features/dashboard/components/EndStockTooltip.tsx:79 | the index of the first occurrence of the character, or -1 exactly when it does not occur |
| JsText.Split | src/features/dashboard/components/EndStockTooltip.tsx:79 | `split` gives at least one part and no part contains the separator |
| JsText.SplitAfterPiece | src/features/dashboard/components/EndStockTooltip.tsx:79-82 | a piece without the separator followed by the separator is the first part of the split, the rest splitting as before |
| JsText.JoinTwo | src/features/dashboard/components/SalesInputTable.tsx:185 | two parts are joined with one separator between them |
| JsText.JoinThree | src/features/dashboard/components/SalesInputTable.tsx:185 | three parts are joined with a separator between each pair |
| JsArray.FindIndex | src/app/api/pnl/actual-sales/route.ts:307 | the index of the first element passing the test, or none exactly when no element passes |
| JsArray.Find | src/app/api/pnl/actual-sales/route.ts:307 | `find` gives the element at the first passing index, or undefined exactly when no element passes |
| JsArray.Filter | src/app/api/pnl/actual-sales/route.ts:306 | `filter` keeps only elements of the input that pass the test |
| JsArray.FilterAppend | src/app/api/pnl/actual-sales/route.ts:306 | filtering a concatenation is concatenating the filtered parts |
| JsArray.FilterAll | src/lib/xlsx-security.ts:294 | when every element passes, filtering changes nothing |
| JsArray.FilterNone | src/app/api/pnl/actual-sales/route.ts:306 | when no element passes, the filter is empty |
| JsArray.FilterKeeps | src/app/api/pnl/actual-sales/route.ts:306 | an element of the input that passes is kept |
| JsArray.FilterHas | src/app/api/pnl/actual-sales/route.ts:306 | an element is in the filter exactly when it is in the input and passes |
| JsArray.FilterPartition2 | src/app/api/pnl/vat-excluded-sales/route.ts:172-173 | two filters with complementary tests together hold every element exactly once |
| JsArray.FilterPartition3 | src/app/api/pnl/actual-sales/route.ts:306-310 | three filters with exclusive tests that cover every element together hold every element exactly once |
| JsArray.SumAppend | src/features/dashboard/lib/calc.ts:57 | the sum over a concatenation is the sum of the two sums |
| JsArray.SumFilterSplit | src/features/dashboard/lib/calc.ts:57 | the sums over the elements passing and failing a test add up to the whole sum |
| JsArray.SumZero | src/features/dashboard/lib/calc.ts:57 | a sum of zeros is 0 |
| JsArray.Having | src/features/dashboard/components/EndStockTooltip.tsx:30-38 | the elements with the given key, each from the input |
| JsArray.SumOverEmpty | src/features/dashboard/hooks/usePlan26SStore.ts:262-291 | grouping no rows gives a total of 0 |
| JsArray.HavingSnoc | src/features/dashboard/components/EndStockTooltip.tsx:30-38 | one more element joins the end of its own key's list and no other |
| JsArray.HavingSnocSum | src/features/dashboard/components/EndStockTooltip.tsx:86-89 | one more element adds its amount to its own key's sum and nothing to the others |
| JsArray.SumOverSnoc | src/features/dashboard/hooks/usePlan26SStore.ts:262-291 | with distinct keys, one more element adds its amount to the grouped total exactly when its key is listed |
| JsArray.SumOverPartition | src/features/dashboard/hooks/usePlan26SStore.ts:262-291 | when every element's key is among distinct listed keys, the group sums add up to the whole sum |
| JsArray.HavingPartition3 | src/features/dashboard/components/EndStockTooltip.tsx:44-67 | with three distinct keys covering every element, the three lists together hold every element exactly once |
| JsArray.HavingKeeps | src/features/dashboard/components/EndStockTooltip.tsx:30-38 | every element of the input is in the list of its own key |
| JsArray.FlatMapNumberedSnoc | src/features/dashboard/components/ExcelUploader.tsx:79-148 | one more numbered row adds what it gives at the end |
| JsArray.FlatMapNumberedAll | src/features/dashboard/components/ExcelUploader.tsx:79-148 | when what every row gives satisfies a test, the whole result does |
| JsArray.FlatMapNumberedBounded | src/lib/xlsx-security.ts:176-192 | when each element gives at most m results, the whole gives at most m times as many as there are elements |
| JsArray.FlatMapNumberedOneEach | src/features/dashboard/components/ExcelUploader.tsx:79-148 | when each row gives one result, the results are those, in order |
| JsArray.FlatMapNumberedSingletons | src/features/dashboard/components/ExcelUploader.tsx:79-148 | when each row gives a one-element list, the result is the list of those elements |
| JsArray.FlatMapNumberedEmpty | src/features/dashboard/components/ExcelUploader.tsx:79-148 | the result is empty exactly when every row gives nothing |
| JsArray.Map | src/features/dashboard/lib/calc.ts:41 | `map` gives one result per element, in order |
| JsArray.FilterIndex | src/features/dashboard/components/SalesInputTable.tsx:107-113 | every filtered element is an element of the input |
| JsArray.FilterOrder | src/features/dashboard/components/SalesInputTable.tsx:107-113 | filtered elements keep their input order |
| JsArray.Present | src/features/dashboard/components/SalesInputTable.tsx:151 | dropping the empty groups leaves no more groups than there were |
| JsArray.PresentHas | src/features/dashboard/components/SalesInputTable.tsx:151 | a group is kept exactly when it was present |
| JsArray.PresentIndex | src/features/dashboard/components/SalesInputTable.tsx:151 | every kept group was present in the input |
| JsArray.PresentOrder | src/features/dashboard/components/SalesInputTable.tsx:151 | kept groups keep their input order |
| StableSort.InsertionPoint | src/features/dashboard/hooks/useSalesData.ts:78-84 | an element is inserted after every element of no larger rank and before the first of larger rank |
| StableSort.SortByKey | src/features/dashboard/hooks/useSalesData.ts:78-84 | the sort keeps the number of elements |
| StableSort.WithKeyAppend | src/features/dashboard/hooks/useSalesData.ts:78-84 | the elements of one rank in a concatenation are those of the first part, then the second |
| StableSort.WithKeyAllLarger | src/features/dashboard/hooks/useSalesData.ts:78-84 | a list whose ranks are all larger than k has no element of rank k |
| StableSort.InsertSorted | src/features/dashboard/hooks/useSalesData.ts:78-84 | inserting into a rank-sorted list keeps it sorted |
| StableSort.WithKeySnoc | src/features/dashboard/hooks/useSalesData.ts:78-84 | one more element joins the end of its own rank's elements |
| StableSort.InsertWithKey | src/features/dashboard/hooks/useSalesData.ts:78-84 | inserting into a sorted list puts the element after all earlier elements of its rank |
| StableSort.SplitWithKey | src/features/dashboard/hooks/useSalesData.ts:78-84 | an element placed before elements of larger rank comes after its own rank's elements that precede it |
| StableSort.InsertionTail | src/features/dashboard/hooks/useSalesData.ts:78-84 | in a sorted list, everything after the insertion point has a larger rank |
| StableSort.InsertPermutes | src/features/dashboard/hooks/useSalesData.ts:78-84 | inserting adds exactly that element |
| StableSort.SortByKeySorted | src/features/dashboard/hooks/useSalesData.ts:78-84 | the sorted list is ordered by rank |
| StableSort.SortByKeyStable | src/features/dashboard/hooks/useSalesData.ts:78-84 | the elements of each rank keep their input order |
| StableSort.SortByKeyPermutes | src/features/dashboard/hooks/useSalesData.ts:78-84 | the sorted list is a permutation of the input |
| StableSort.SortByKeyIdempotent | src/features/dashboard/hooks/useSalesData.ts:78-84 | sorting a sorted list changes nothing |
| StableSort.StableSortUnique | src/features/dashboard/hooks/useSalesData.ts:78-84 | two sorted lists with the same elements of each rank, in the same order, are equal, so the stable sort is the only possible result |
| StableSort.WithKeyOfLast | src/features/dashboard/hooks/useSalesData.ts:78-84 | the last element's rank has at least one element |
| StableSort.WithKeyInRange | src/features/dashboard/hooks/useSalesData.ts:78-84 | every rank present in a sorted list is at most the rank of its last element |

## Left out

- Database access: the SQL text of every route, the Snowflake connection and the check-data and check-columns routes are not part of this model. The rows a query returns are parameters of the route functions.
- The error paths of the routes: a thrown query error answered with status 500. Only a successful query is modelled.
- The React Query hooks, the rendering of every component and the locale formatting of amounts (`formatThousandWon`, `formatMillionWon`, `toLocaleString`) are outside the model.
- Floating point: amounts are exact reals. IEEE rounding, NaN arithmetic and the one-decimal `Math.round(x * 10) / 10` are modelled over reals without binary rounding error.
- Clock readings (`Date.now()` and `new Date().toISOString()`) are parameters (`now`, `isoNow`) of the members that use them. Where one call reads the clock more than once, the readings are taken to be equal: the id, the two timestamps and the row ids of `duplicateScenario` (src/features/dashboard/hooks/usePlan26SStore.ts:126-135), the id and the two timestamps of `createEmptyScenario` (src/features/dashboard/types/plan26s.ts:177-180), and the row ids of one upload (src/features/dashboard/components/ExcelUploader.tsx:137) each come from one reading, although in the source the clock may tick between the calls.
- Text lengths: a JavaScript string counts UTF-16 code units, while a Dafny `char` is a Unicode scalar value. Outside the Basic Multilingual Plane a character is two units in the source and one here, so the 255-character name limit of XlsxSecurity.ValidateFileName, the 200-character cut of XlsxSecurity.SanitizeFileName and the 31-character sheet-name cut count characters rather than units, and the source can also cut a surrogate pair in half, which the model cannot.
- Store persistence: the zustand `persist` middleware and its local-storage copy are outside the model.
- Case mapping covers only the characters whose upper or lower case can make a table lookup succeed: ASCII letters, the long s, the dotless i and the Kelvin sign. Every other character is left as it is.
- ExcelUploader: the sheet reader is outside the model. A sheet row is given as text cells by header and three amount cells. A text column holding a number, and the `.xls`/CSV decoding, are not modelled.
- ExcelUploader: handleDownloadCurrentData and the workbook writing of handleDownloadTemplate are outside the model. Only the template rows are modelled (`TemplateData`).
- XlsxSecurity: secureReadFile as a whole (the async `arrayBuffer`, `XLSX.read`, `sheet_to_json`) is outside the model; the three validators it calls are modelled. A sheet is given by its row and column spans and the formula flags of its cells, in the order `decode_range` would walk them. The unused `timeout` option is carried but has no effect.
- XlsxSecurity.SecureWriteFile: models the name sanitising, the extension check and the row limit. Building and writing the workbook is outside the model.
- SalesInputTable: collapseAll (it empties the set) and handleInputChange (`parseFloat` of typed text) are outside the model.
- Active-scenario maps: JavaScript `undefined` and `null` are both `None`. When a scenario of a brand with no active entry is deleted, both stores write such an entry, as the source does.
- EndStockTooltip: the dialog, and the `localeCompare` sort of season buckets for display, are outside the model.
- EndStockRoute: the brand parameter only reaches the SQL text, so `EndStockRequest` reports the season and the two months. It reports the months as the route writes them; `IntendedEndStockRequest` reports the corrected months described under Findings.
- ActualSalesRoute: the response field `channels` repeats `data` and is not modelled separately.
- OperatingExpenseRoute: a season type other than S is read with the F window, as the route does; for N this is September to February.
- SeasonPeriods: the lemmas that name the months of a season hold for years 11 to 98. In that range every `20${year ± k}` the routes write is a four-digit year. Outside it the functions still compute what the template literals give, NaN included.

## Findings

| source | as written | input that shows it | evidently intended | confidence | as-written member | corrected member |
|---|---|---|---|---|---|---|
| src/app/api/pnl/cost-of-sales/route.ts:31 | the F date window always ends on February 28 | season 23F: the window ends 2024-02-28, so postings on 2024-02-29 are left out | the window ends on the last day of February, 29 in a leap year, like the month window it mirrors | high, not executed | CostOfSalesRoute.LeapDayLeftOut | CostOfSalesRoute.IntendedDateWindowEndsOnLastDay |
| src/app/api/pnl/end-stock/route.ts:167-168 | an F season `YYF` reads the ending stock of February 20YY | season 25F: target 202502 and prior 202402, while the season's sales run from 202509 to 202602 | February 20(YY+1), the month that ends the F season in the order-amount and cost routes (202602 against 202502) | medium, not executed | EndStockRoute.EndStockFebruaryIsYearEarly | EndStockRoute.IntendedTargetIsSeasonEnd, EndStockRoute.IntendedEndStockRequest |
