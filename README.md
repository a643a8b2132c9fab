# AgriplanAI farm bookkeeping: the analysis core in Dafny

This project models the bookkeeping and analysis layer of the AgriplanAI farm
application and proves properties of it.

- **Detailed analysis.** Work, cost and sales records are:
  - bucketed into periods (week of month, month, quarter, year);
  - filtered by date range, crop, work type and cost category;
  - aggregated per period, with hours, costs, revenue, profit and margin.

  On top of the aggregates sit the efficiency indicators and blended score, the
  trend classifier, comparison with the previous period, chart rows,
  descriptive statistics and outlier detection, and the advisory consistency
  check. The module also generates a sample year of data and checks it.
- **Sales analysis.** Sales records are:
  - filtered and keyed by month, quarter or year, and labelled in Japanese;
  - stacked per crop for the chart;
  - summarised per buyer (channel) and per crop, with revenue shares.

  The filter panel's chip toggles and reset button, the demonstration data and
  the abbreviation of large amounts are modelled too.
- **Data management.** The store is a class with three lists (sales records,
  crop information, sales channels). Its actions replace, add, update by id and
  delete by id, and it keeps a loading flag and a `lastUpdated` stamp. The
  module also covers the form validation rules, the display helpers, and the
  initial crops, channels and sample sales records.

JavaScript behaviour is stated explicitly:
- `Math.round` rounds halves upward.
- Sorting is the stable `Array.prototype.sort`.
- `Array.from(new Set(xs)).sort()` gives a strictly ascending list.
- A `NaN` compares false with everything.
- `Math.floor(x / n)` is Euclidean division on whole milliseconds.

These are treated as inputs:
- Every `Math.random()` draw is taken from a stream `rand: nat -> real` with values in [0, 1).
- The clock is a `now` parameter.
- `Number(text)` is a `toNumber` parameter.
- The locale-dependent number formatter is a parameter.

Loops that build lists (`forEach`/`push`, `reduce` into an object, the nested
day-and-pattern loops of the sample generators) are methods with loop
invariants. Most are proved against a function that states their result. The
detailed-analysis sample generators (`GenerateSampleWorkData`,
`GenerateSampleCostData`, `GenerateSampleSalesData`) and `ValidateSampleData`
are proved against properties instead: well-formedness of every record
produced, record counts, and the errors each rule contributes. Pure helpers
are functions with lemmas.

## Model

| member | source | states |
|---|---|---|
| AnalysisPeriods.WeekOfMonth | app/existing-farmer/detailed-analysis/utils/data-aggregation.ts:37 | `Math.ceil(day/7)`: the week brackets the day, and lies in 1..5 for days 1..31 |
| AnalysisPeriods.QuarterOf | app/existing-farmer/detailed-analysis/utils/data-aggregation.ts:42 | `Math.ceil(month/3)`: the quarter brackets the month, and lies in 1..4 for months 1..12 |
| AnalysisPeriods.DateLabel | app/existing-farmer/detailed-analysis/utils/data-aggregation.ts:35-48 | the label of a readable date is non-empty and starts with a digit of the year |
| AnalysisPeriods.PeriodKey | app/existing-farmer/detailed-analysis/utils/data-aggregation.ts:20-49 | never fails; the sentinel `不明な期間` exactly when the date is empty or unreadable, otherwise the date's label |
| AnalysisPeriods.LabelTail | app/existing-farmer/detailed-analysis/utils/data-aggregation.ts:38-47 | what follows the year in every label starts with `年` |
| AnalysisPeriods.LabelSplit | app/existing-farmer/detailed-analysis/utils/data-aggregation.ts:38-47 | every label is the year followed by its tail |
| AnalysisPeriods.TailBuckets | app/existing-farmer/detailed-analysis/utils/data-aggregation.ts:36-47 | two tails are equal exactly when the dates share the week and month, the month, or the quarter |
| AnalysisPeriods.DateLabelBuckets | app/existing-farmer/detailed-analysis/utils/data-aggregation.ts:36-47 | two readable dates get the same label exactly when they fall in the same calendar bucket (both directions) |
| AnalysisPeriods.UnrecognisedIsMonthly | app/existing-farmer/detailed-analysis/utils/data-aggregation.ts:46-47 | an unrecognised period setting gives the same key as `monthly` for every date |
| Efficiency.ComponentScores | app/existing-farmer/detailed-analysis/utils/data-aggregation.ts:251-276 | at most four scores, all non-negative; the cost score is pushed whenever the cost ratio is defined; with a non-negative ratio every score is at most 100 |
| Efficiency.OverallEfficiency | app/existing-farmer/detailed-analysis/utils/data-aggregation.ts:251-278 | 50 when no score was pushed, otherwise the mean of the pushed scores |
| Efficiency.OverallEfficiencyBounds | app/existing-farmer/detailed-analysis/utils/data-aggregation.ts:251-278 | with a non-negative or absent cost ratio the blended score lies in [0, 100] |
| Efficiency.Metrics | app/existing-farmer/detailed-analysis/utils/data-aggregation.ts:200-246 | all five fields 0 for no work; each ratio 0 when its denominator (output, revenue, hours) is not positive; the ratios are whole hundredths |
| Efficiency.RawIndicators | app/existing-farmer/detailed-analysis/utils/data-aggregation.ts:213-232 | every indicator is defined, and is 0 when its denominator is not positive |
| Efficiency.NeutralScoreUnreachable | app/existing-farmer/detailed-analysis/utils/data-aggregation.ts:235-240 | the cost score is always pushed, so the fallback 50 is never reached from the metrics |
| Efficiency.NoSalesScoresHundred | app/existing-farmer/detailed-analysis/utils/data-aggregation.ts:200-246 | with work and no sales the efficiency is exactly 100, as it is for every aggregated work period |
| Efficiency.MetricsEfficiencyBounds | app/existing-farmer/detailed-analysis/utils/data-aggregation.ts:200-278 | with non-negative labour costs the efficiency lies in [0, 100] |
| Efficiency.LaborNonNegative | app/existing-farmer/detailed-analysis/utils/data-aggregation.ts:214 | non-negative labour costs sum to a non-negative total |
| Aggregation.WorkAccSnoc | app/existing-farmer/detailed-analysis/utils/data-aggregation.ts:108-113 | the accumulator of a period after one more record is one reduce step applied to the previous accumulator |
| Aggregation.WorkStep | app/existing-farmer/detailed-analysis/utils/data-aggregation.ts:95-116 | one reduce step keeps every period's accumulator equal to the summary of the records seen with that key |
| Aggregation.WorkStepKeys | app/existing-farmer/detailed-analysis/utils/data-aggregation.ts:98-106 | after a step the accumulator keys are exactly the keys of the records seen |
| Aggregation.WorkStepValues | app/existing-farmer/detailed-analysis/utils/data-aggregation.ts:108-113 | after a step every accumulator equals the summary of its period's records |
| Aggregation.WorkStepAt | app/existing-farmer/detailed-analysis/utils/data-aggregation.ts:108-113 | the same, for one key: the new record's or one seen before |
| Aggregation.WorkAccEmpty | app/existing-farmer/detailed-analysis/utils/data-aggregation.ts:99-105 | the fresh accumulator is the summary of no records |
| Aggregation.WorkPeriods | app/existing-farmer/detailed-analysis/utils/data-aggregation.ts:119 | the periods of the output, in output order |
| Aggregation.AggregateWorkData | app/existing-farmer/detailed-analysis/utils/data-aggregation.ts:89-130 | [] for no records; otherwise one entry per distinct period key, ascending, each summarising exactly the records with that key |
| Aggregation.GroupWork | app/existing-farmer/detailed-analysis/utils/data-aggregation.ts:95-116 | one accumulator per key present, each the summary of that key's records; the key list is duplicate-free and holds exactly those keys |
| Aggregation.WorkFinish | app/existing-farmer/detailed-analysis/utils/data-aggregation.ts:118-129 | summarising the accumulators in sorted key order yields the aggregation |
| Aggregation.CostAccSnoc | app/existing-farmer/detailed-analysis/utils/data-aggregation.ts:154-157 | a cost accumulator after one more record is one reduce step on the previous one |
| Aggregation.CostStep | app/existing-farmer/detailed-analysis/utils/data-aggregation.ts:142-160 | one reduce step keeps every cost accumulator equal to the summary of the records seen with that key |
| Aggregation.CostStepKeys | app/existing-farmer/detailed-analysis/utils/data-aggregation.ts:145-152 | after a step the cost accumulator keys are exactly the keys seen |
| Aggregation.CostStepValues | app/existing-farmer/detailed-analysis/utils/data-aggregation.ts:154-157 | after a step every cost accumulator equals the summary of its period's records |
| Aggregation.CostStepAt | app/existing-farmer/detailed-analysis/utils/data-aggregation.ts:154-157 | the same, for one key |
| Aggregation.CostAccEmpty | app/existing-farmer/detailed-analysis/utils/data-aggregation.ts:146-151 | the fresh cost accumulator is the summary of no records |
| Aggregation.ProfitMargin | app/existing-farmer/detailed-analysis/utils/data-aggregation.ts:179 | the margin is 0 whenever revenue is not positive |
| Aggregation.ProfitMarginPercent | app/existing-farmer/detailed-analysis/utils/data-aggregation.ts:178-179 | with positive revenue: margin × revenue = profit × 100; non-negative exactly when cost ≤ revenue; at most 100 for non-negative cost |
| Aggregation.CostPeriods | app/existing-farmer/detailed-analysis/utils/data-aggregation.ts:182 | the periods of the cost output, in output order |
| Aggregation.AggregateCostData | app/existing-farmer/detailed-analysis/utils/data-aggregation.ts:134-196 | [] when there are no costs, whatever the sales; otherwise one entry per period present in the costs, ascending, each summarising its costs with that period's revenue joined on |
| Aggregation.GroupCosts | app/existing-farmer/detailed-analysis/utils/data-aggregation.ts:142-160 | one accumulator per cost key present; the key list is duplicate-free and holds exactly those keys |
| Aggregation.SumRevenue | app/existing-farmer/detailed-analysis/utils/data-aggregation.ts:163-173 | the revenue map is the per-key sum of sales totals |
| Aggregation.CostFinish | app/existing-farmer/detailed-analysis/utils/data-aggregation.ts:176-195 | joining revenue and summarising in sorted key order yields the cost aggregation |
| Aggregation.CountsAsGroups | app/existing-farmer/detailed-analysis/utils/data-aggregation.ts:113 | per-key record counts add up to the summed group sizes |
| Aggregation.WorkCounts | app/existing-farmer/detailed-analysis/utils/data-aggregation.ts:128 | the record counts of the output, in output order |
| Aggregation.WorkCountsTotal | app/existing-farmer/detailed-analysis/utils/data-aggregation.ts:113-128 | conservation: the work periods' record counts sum to the number of records |
| Aggregation.WorkPeriodFacts | app/existing-farmer/detailed-analysis/utils/data-aggregation.ts:108-128 | each period holds at least one record; its hours are the rounded sum of minutes/60, its breakdown has exactly the work types present, and its efficiency is 100 |
| Aggregation.CostCounts | app/existing-farmer/detailed-analysis/utils/data-aggregation.ts:193 | the record counts of the cost output, in order |
| Aggregation.CostCountsTotal | app/existing-farmer/detailed-analysis/utils/data-aggregation.ts:157-193 | conservation: the cost periods' record counts sum to the number of cost records |
| Aggregation.WorkBreakdownSum | app/existing-farmer/detailed-analysis/utils/data-aggregation.ts:108-124 | before rounding, a period's hours are the sum of minutes/60 of its records and equal the sum of its per-work-type breakdown; the entry carries both rounded to the hundredth |
| Aggregation.CostBreakdownSum | app/existing-farmer/detailed-analysis/utils/data-aggregation.ts:154-188 | before rounding, a period's cost is the sum of its amounts and equals the sum of its per-category breakdown; the entry carries the breakdown rounded to whole yen |
| Aggregation.CostPeriodFacts | app/existing-farmer/detailed-analysis/utils/data-aggregation.ts:154-183 | each cost period holds at least one record, and its cost is the rounded total of those records |
| Aggregation.CostSummaryRevenue | app/existing-farmer/detailed-analysis/utils/data-aggregation.ts:177-192 | revenue is the rounded sum of same-key sales (0 if none), and the margin is 0 when revenue is not positive |
| Aggregation.CostSummaryProfit | app/existing-farmer/detailed-analysis/utils/data-aggregation.ts:177-192 | profit is the revenue minus the period cost, rounded |
| Aggregation.PeriodCostTotal | app/existing-farmer/detailed-analysis/utils/data-aggregation.ts:142-160 | the period cost is the sum of the amounts of the period's cost records, 0 when there are no cost records |
| Aggregation.NoSalesNoRevenue | app/existing-farmer/detailed-analysis/utils/data-aggregation.ts:177-178 | a period with no sales records has revenue 0 |
| AnalysisFilters.FilterWorkData | app/existing-farmer/detailed-analysis/utils/data-aggregation.ts:283-305 | the kept work records are an order-preserving subsequence of the input |
| AnalysisFilters.FilterCostData | app/existing-farmer/detailed-analysis/utils/data-aggregation.ts:307-329 | the kept cost records are an order-preserving subsequence of the input |
| AnalysisFilters.FilterSalesData | app/existing-farmer/detailed-analysis/utils/data-aggregation.ts:331-348 | the kept sales are an order-preserving subsequence of the input |
| AnalysisFilters.InDateRangeInclusive | app/existing-farmer/detailed-analysis/utils/data-aggregation.ts:289 | a date passes exactly when `startDate <= date <= endDate` as strings: both bounds inclusive |
| AnalysisFilters.FilterWorkMembers | app/existing-farmer/detailed-analysis/utils/data-aggregation.ts:287-304 | a work record is kept exactly when it is listed, in range, of a selected crop and of a selected work type, an empty selection selecting all |
| AnalysisFilters.FilterCostMembers | app/existing-farmer/detailed-analysis/utils/data-aggregation.ts:311-328 | a cost is kept exactly when it is listed, in range and of a selected category, and either has no crop or a selected one |
| AnalysisFilters.FilterSalesMembers | app/existing-farmer/detailed-analysis/utils/data-aggregation.ts:335-347 | a sale is kept exactly when it is listed, in range and of a selected crop |
| AnalysisFilters.FiltersIdempotent | app/existing-farmer/detailed-analysis/utils/data-aggregation.ts:283-348 | applying any of the three filters twice is applying it once |
| AnalysisFilters.NoSelectionKeepsAll | app/existing-farmer/detailed-analysis/utils/data-aggregation.ts:294-299 | with empty selections and every date in range, the work filter keeps the whole list |
| AnalysisFilters.WorkCrops | app/existing-farmer/detailed-analysis/utils/data-aggregation.ts:359 | the crops of the work records, one per record in order |
| AnalysisFilters.WorkTypes | app/existing-farmer/detailed-analysis/utils/data-aggregation.ts:368 | the work types of the records, one per record in order |
| AnalysisFilters.CostCategories | app/existing-farmer/detailed-analysis/utils/data-aggregation.ts:374 | the categories of the cost records, one per record in order |
| AnalysisFilters.SaleCrops | app/existing-farmer/detailed-analysis/utils/data-aggregation.ts:361 | the crops of the sales, one per record in order |
| AnalysisFilters.CostCropsMembers | app/existing-farmer/detailed-analysis/utils/data-aggregation.ts:360 | a crop is collected from the costs exactly when some cost names it, a missing or empty crop being skipped |
| AnalysisFilters.AvailableCrops | app/existing-farmer/detailed-analysis/utils/data-aggregation.ts:352-364 | strictly ascending, so duplicate-free; holds exactly the crops named by some record; equals the sorted unique list whatever the visiting order |
| AnalysisFilters.AvailableWorkTypes | app/existing-farmer/detailed-analysis/utils/data-aggregation.ts:366-370 | strictly ascending and holds exactly the work types present |
| AnalysisFilters.AvailableCostCategories | app/existing-farmer/detailed-analysis/utils/data-aggregation.ts:372-376 | strictly ascending and holds exactly the categories present |
| Trend.SquaredResiduals | app/existing-farmer/detailed-analysis/utils/data-aggregation.ts:414-417 | the residual sum of squares is never negative |
| Trend.SlopeDenominator | app/existing-farmer/detailed-analysis/utils/data-aggregation.ts:392-397 | the slope's denominator is n²(n²−1)/12, positive from two points on, so the slope never divides by zero |
| Trend.AnalyzeTrend | app/existing-farmer/detailed-analysis/utils/data-aggregation.ts:380-428 | `dataPoints` is the number of values, and the confidence lies in [0, 100] |
| Trend.TooFewPoints | app/existing-farmer/detailed-analysis/utils/data-aggregation.ts:381-388 | fewer than 10 points give stable, change 0, confidence 0 and the number of points |
| Trend.TrendDirection | app/existing-farmer/detailed-analysis/utils/data-aggregation.ts:401-409 | from 10 points: increasing exactly when the change rate exceeds 0.15, decreasing exactly when it is below −0.15, stable otherwise; a first value of 0 gives change 0 and stable |
| Trend.DirectionFromEndpoints | app/existing-farmer/detailed-analysis/utils/data-aggregation.ts:401-409 | two series with the same first and last values get the same direction and change rate |
| Comparison.FirstYearAt | app/existing-farmer/detailed-analysis/utils/data-aggregation.ts:440 | finds the leftmost match of `/\d{4}年/` at or after a position, or reports that none exists |
| Comparison.StripYear | app/existing-farmer/detailed-analysis/utils/data-aggregation.ts:440 | a string with no year marker is unchanged; otherwise exactly five characters (four digits and `年`) are removed |
| Comparison.StripYearOfLabel | app/existing-farmer/detailed-analysis/utils/data-aggregation.ts:38-47 | a label whose year has four digits loses exactly its year and the `年` after it |
| Comparison.SamePeriodOfYear | app/existing-farmer/detailed-analysis/utils/data-aggregation.ts:439-441 | two periods are matched exactly when they are the same week, month or quarter of their years |
| Comparison.StripYearUnknown | app/existing-farmer/detailed-analysis/utils/data-aggregation.ts:24 | the unknown-period sentinel is left unchanged, so it matches only itself |
| Comparison.FindPrevious | app/existing-farmer/detailed-analysis/utils/data-aggregation.ts:439-441 | the FIRST previous entry whose year-stripped period matches; there is none exactly when no entry has that period |
| Comparison.Compare | app/existing-farmer/detailed-analysis/utils/data-aggregation.ts:444-455 | current, previous and change as given; change percent 0 when previous is 0, otherwise within 0.005 of change/previous × 100; the trend is always stable with no change or confidence over 2 points |
| Comparison.CompareWithPrevious | app/existing-farmer/detailed-analysis/utils/data-aggregation.ts:432-461 | the pushed results are those of the current periods with a match, in order |
| Comparison.ComparisonsStable | app/existing-farmer/detailed-analysis/utils/data-aggregation.ts:455 | every comparison carries the stable trend: two points are below the minimum for a trend |
| Comparison.ComparisonsLength | app/existing-farmer/detailed-analysis/utils/data-aggregation.ts:438-458 | at most one result per current period, exactly one each when all are matched, none without previous data |
| Chart.Numbers | app/existing-farmer/detailed-analysis/utils/data-aggregation.ts:478-488 | spreading a breakdown gives one numeric field per breakdown key |
| Chart.WorkRow | app/existing-farmer/detailed-analysis/utils/data-aggregation.ts:469-479 | the row has the period, totalHours and every work type; breakdown keys override the fixed fields |
| Chart.CostRow | app/existing-farmer/detailed-analysis/utils/data-aggregation.ts:469-489 | the row has period, totalCost, revenue, profit, profitMargin and every category; breakdown keys override the fixed fields |
| Chart.ConvertToChartData | app/existing-farmer/detailed-analysis/utils/data-aggregation.ts:465-492 | one row per aggregated period, in the same order |
| Chart.RowsKeepPeriods | app/existing-farmer/detailed-analysis/utils/data-aggregation.ts:470-488 | unless a breakdown key is `period`, every row carries its period label |
| Statistics.AtMostPreorder | app/existing-farmer/detailed-analysis/utils/data-aggregation.ts:508 | the numeric comparator is a total preorder, so the sort is well defined |
| Statistics.Variance | app/existing-farmer/detailed-analysis/utils/data-aggregation.ts:514 | the population variance is never negative |
| Statistics.Sorted | app/existing-farmer/detailed-analysis/utils/data-aggregation.ts:508 | the sorted copy is ascending and a permutation of the data |
| Statistics.CalculateStatistics | app/existing-farmer/detailed-analysis/utils/data-aggregation.ts:496-525 | all zeros for no data; count is the length; min and max are values of the data and bound every value |
| Statistics.SortedBetweenExtremes | app/existing-farmer/detailed-analysis/utils/data-aggregation.ts:508-521 | every element of the sorted copy lies between min and max |
| Statistics.MedianBetweenExtremes | app/existing-farmer/detailed-analysis/utils/data-aggregation.ts:510-521 | the unrounded median lies between min and max |
| Statistics.MeanBetweenExtremes | app/existing-farmer/detailed-analysis/utils/data-aggregation.ts:509-521 | the unrounded mean lies between min and max |
| Statistics.DetectOutliers | app/existing-farmer/detailed-analysis/utils/data-aggregation.ts:528-537 | [] for fewer than 4 values; otherwise an order-preserving subsequence of the data |
| Statistics.OutlierMembers | app/existing-farmer/detailed-analysis/utils/data-aggregation.ts:531-536 | from 4 values, a value is reported exactly when it is more than two standard deviations from the reported (rounded) mean |
| Statistics.DetectOutliersExact | app/existing-farmer/detailed-analysis/utils/data-aggregation.ts:528-537 | the corrected test, measuring from the exact mean: [] for fewer than 4 values, else a subsequence |
| Statistics.ConstantDataFlagged | app/existing-farmer/detailed-analysis/utils/data-aggregation.ts:518-536 | four equal values 0.001 are all reported as outliers, because the mean is rounded to 0 |
| Statistics.ConstantDataNoOutliers | app/existing-farmer/detailed-analysis/utils/data-aggregation.ts:528-537 | measured from the exact mean, a list of one repeated value has no outliers |
| Statistics.ConstantVariance | app/existing-farmer/detailed-analysis/utils/data-aggregation.ts:509-514 | a list of one repeated value has that value as mean and variance 0 |
| Consistency.StrAtMostPreorder | app/existing-farmer/detailed-analysis/utils/data-aggregation.ts:585 | the default string sort order is a total preorder |
| Consistency.SortedEnds | app/existing-farmer/detailed-analysis/utils/data-aggregation.ts:585-589 | the first and last elements of a sorted list bound every element |
| Consistency.GetDateRange | app/existing-farmer/detailed-analysis/utils/data-aggregation.ts:582-590 | none exactly for no dates; otherwise start and end are dates of the list and bound every date |
| Consistency.SharedDateOverlaps | app/existing-farmer/detailed-analysis/utils/data-aggregation.ts:593-600 | two date lists with a date in common have overlapping ranges |
| Consistency.OverlapSymmetric | app/existing-farmer/detailed-analysis/utils/data-aggregation.ts:593-600 | overlap is symmetric, and a missing range overlaps nothing |
| Consistency.WorkDates | app/existing-farmer/detailed-analysis/utils/data-aggregation.ts:549 | the work dates, one per record in order |
| Consistency.CostDates | app/existing-farmer/detailed-analysis/utils/data-aggregation.ts:550 | the cost dates, one per record in order |
| Consistency.SaleDates | app/existing-farmer/detailed-analysis/utils/data-aggregation.ts:551 | the sale dates, one per record in order |
| Consistency.ValidateDataConsistency | app/existing-farmer/detailed-analysis/utils/data-aggregation.ts:541-579 | the issues are the failed tests in the order pushed, and the data are valid exactly when there is no issue |
| Consistency.CollectIssues | app/existing-farmer/detailed-analysis/utils/data-aggregation.ts:553-573 | one message per failed test, in the fixed order |
| Consistency.MissingCropsEmpty | app/existing-farmer/detailed-analysis/utils/data-aggregation.ts:567-571 | no crop is missing exactly when every crop sold has a work record |
| Consistency.ValidExactly | app/existing-farmer/detailed-analysis/utils/data-aggregation.ts:541-579 | valid exactly when all three lists are non-empty, the work dates overlap the cost and the sales dates, and every crop sold has work |
| SalesTypes.PeriodName | app/existing-farmer/sales-analysis/types.ts:48 | a period is written as one of the three names `monthly`, `quarterly`, `yearly` |
| SalesTypes.PeriodNameInjective | app/existing-farmer/sales-analysis/types.ts:48 | distinct periods have distinct names (both directions) |
| SalesTypes.NameOr | app/existing-farmer/sales-analysis/utils.ts:219-240 | the table's name when the id has a non-empty one, otherwise the id itself |
| SalesTypes.CropColor | app/existing-farmer/sales-analysis/utils.ts:243 | the table colour of a listed crop, `#8D6E63` for any other |
| SalesPeriods.QuarterOfMonth | app/existing-farmer/sales-analysis/utils.ts:120 | `floor(month0/3)+1` lies in 1..4 and brackets the month |
| SalesPeriods.PeriodKey | app/existing-farmer/sales-analysis/utils.ts:113-126 | fails exactly for a monthly key of an unreadable date; quarterly and yearly keys of such a date are `NaN-QNaN` and `NaN`; a key is non-empty and starts with a digit or `N` |
| SalesPeriods.SplitPair | app/existing-farmer/sales-analysis/utils.ts:132-135 | the first two parts of the split, `undefined` when the separator is missing |
| SalesPeriods.PeriodLabel | app/existing-farmer/sales-analysis/utils.ts:129-142 | any text other than the three period names leaves the key unchanged; `yearly` appends `年` |
| SalesPeriods.LabelOfKey | app/existing-farmer/sales-analysis/utils.ts:113-142 | labelling a readable date's key with its own period gives `YYYY年MM月`, `YYYY年nQ` or `YYYY年` |
| SalesPeriods.KeyIsNotPeriodName | app/existing-farmer/sales-analysis/utils.ts:139-140 | a key never spells a period name, so labelling a key with itself returns it unchanged |
| SalesPeriods.LabelDiffersFromKey | app/existing-farmer/sales-analysis/utils.ts:113-142 | a readable date's key holds no `年`, while its label under its own period does |
| SalesPeriods.QuarterOfMonthAgrees | app/existing-farmer/sales-analysis/utils.ts:120 | the quarter equals the detailed analysis's `ceil(month/3)` |
| SalesPeriods.SameQuarter | app/existing-farmer/sales-analysis/utils.ts:120 | two months share a quarter number exactly when they are in the same quarter |
| SalesPeriods.MonthKeyInjective | app/existing-farmer/sales-analysis/utils.ts:118 | the `yyyy-MM` key determines year and month |
| SalesFilter.FilterSalesData | app/existing-farmer/sales-analysis/utils.ts:145-168 | the kept records are an order-preserving subsequence |
| SalesFilter.FilterSalesMembers | app/existing-farmer/sales-analysis/utils.ts:146-167 | a record is kept exactly when it is listed, not before the start or after the end, of a selected crop and of a selected buyer |
| SalesFilter.RangeInclusive | app/existing-farmer/sales-analysis/utils.ts:152 | a readable date between the readable bounds, both included, passes the date test |
| SalesFilter.InvalidDateInRange | app/existing-farmer/sales-analysis/utils.ts:148-152 | an unreadable record date is never cut off by the range (comparisons with an Invalid Date are false) |
| SalesFilter.OpenFilterKeepsAll | app/existing-farmer/sales-analysis/utils.ts:148-165 | with no selection and unreadable bounds every record is kept |
| SalesFilter.FilterSalesIdempotent | app/existing-farmer/sales-analysis/utils.ts:145-168 | filtering twice with the same filters is filtering once |
| SalesCrops.ByPeriodPreorder | app/existing-farmer/sales-analysis/utils.ts:194 | the `localeCompare` order on periods is a total preorder |
| SalesCrops.Points | app/existing-farmer/sales-analysis/utils.ts:191-193 | one point per listed key, holding its label and that key's crop totals |
| SalesCrops.AggregateCropSalesDataAsWritten | app/existing-farmer/sales-analysis/utils.ts:171-195 | as written: fails exactly when some monthly key cannot be formatted; otherwise one point per key, sorted, labelled by passing the key as the period |
| SalesCrops.AggregateCropSalesData | app/existing-farmer/sales-analysis/utils.ts:171-195 | corrected: the same, each key labelled according to the analysis period |
| SalesCrops.KeysDefinedExactly | app/existing-farmer/sales-analysis/utils.ts:113-118 | the aggregation fails exactly for a monthly analysis over a record whose date does not parse |
| SalesCrops.AggregateCropSales | app/existing-farmer/sales-analysis/utils.ts:175-194 | grouping, labelling and sorting fail exactly when a key fails, and otherwise give the chart data |
| SalesCrops.OrderIsKeys | app/existing-farmer/sales-analysis/utils.ts:191 | the keys listed by `Object.entries` are exactly the accumulator's keys |
| SalesCrops.EntriesArePoints | app/existing-farmer/sales-analysis/utils.ts:191-193 | the mapped entries are the points of the periods present |
| SalesCrops.GroupCropSales | app/existing-farmer/sales-analysis/utils.ts:175-189 | per key and crop the sum of totals, keys in order of first appearance; fails exactly when a key fails |
| SalesCrops.DefinedStep | app/existing-farmer/sales-analysis/utils.ts:176 | a prefix whose keys are defined stays so when the next key is defined |
| SalesCrops.OrderStep | app/existing-farmer/sales-analysis/utils.ts:178-180 | a step lists a new key at the end and keeps the order of those seen |
| SalesCrops.CropStep | app/existing-farmer/sales-analysis/utils.ts:176-187 | one reduce step keeps each period's crop breakdown equal to that of the records read |
| SalesCrops.CropStepValues | app/existing-farmer/sales-analysis/utils.ts:182-186 | after a step every breakdown is the breakdown of the longer prefix |
| SalesCrops.CropStepAt | app/existing-farmer/sales-analysis/utils.ts:182-186 | the same, for one key |
| SalesCrops.PointOfPeriod | app/existing-farmer/sales-analysis/utils.ts:191-194 | every chart point is the point of a period of some record |
| SalesCrops.PointCount | app/existing-farmer/sales-analysis/utils.ts:191-194 | one point per distinct period present |
| SalesCrops.StackAddsUp | app/existing-farmer/sales-analysis/utils.ts:182-186 | the crop values of a period add up to the total of its records |
| SalesCrops.AsWrittenKeepsKey | app/existing-farmer/sales-analysis/utils.ts:192 | the as-written labelling leaves every key unchanged |
| SalesCrops.AsWrittenShowsKeys | app/existing-farmer/sales-analysis/utils.ts:192 | as written, with readable dates no chart period carries `年`: labels are never applied |
| SalesCrops.IntendedShowsLabels | app/existing-farmer/sales-analysis/utils.ts:129-142 | corrected, every chart period is the label of a record's date and carries `年` |
| SalesChannels.Share | app/existing-farmer/sales-analysis/utils.ts:223-242 | 0 when the total is not positive, otherwise value/total × 100 |
| SalesChannels.ShareOfWhole | app/existing-farmer/sales-analysis/utils.ts:223-242 | the whole is 100 percent of itself |
| SalesChannels.ShareAdd | app/existing-farmer/sales-analysis/utils.ts:223-242 | shares of parts add up to the share of their sum |
| SalesChannels.AveragePrice | app/existing-farmer/sales-analysis/utils.ts:222 | undefined exactly when the volume is 0; otherwise average × volume = revenue |
| SalesChannels.ChannelEntries | app/existing-farmer/sales-analysis/utils.ts:218-224 | one entry per listed buyer, in order |
| SalesChannels.GenerateChannelAnalysisData | app/existing-farmer/sales-analysis/utils.ts:198-225 | one entry per buyer in order of first appearance, with its revenue, volume, average price and share of all revenue |
| SalesChannels.GroupChannels | app/existing-farmer/sales-analysis/utils.ts:199-213 | revenue and volume summed per buyer, buyers listed in order of first appearance |
| SalesChannels.ChannelsDistinct | app/existing-farmer/sales-analysis/utils.ts:199-206 | every buyer present is listed exactly once |
| SalesChannels.ChannelRevenuesAddUp | app/existing-farmer/sales-analysis/utils.ts:215-216 | the channel revenues add up to the revenue of all records |
| SalesChannels.ChannelSharesSum | app/existing-farmer/sales-analysis/utils.ts:223 | the shares of listed channels add up to the share of their summed revenue |
| SalesChannels.ChannelSharesTotal | app/existing-farmer/sales-analysis/utils.ts:215-224 | with positive revenue the channel shares add up to 100 |
| SalesChannels.GroupCrops | app/existing-farmer/sales-analysis/utils.ts:229-235 | total summed per crop, crops in order of first appearance |
| SalesChannels.CompositionEntries | app/existing-farmer/sales-analysis/utils.ts:239-244 | one slice per listed crop, in order |
| SalesChannels.GenerateCropCompositionData | app/existing-farmer/sales-analysis/utils.ts:228-245 | one slice per crop in order of first appearance, with its name, revenue, share and colour |
| SalesChannels.CropSharesSum | app/existing-farmer/sales-analysis/utils.ts:242 | the slices' shares add up to the share of their summed revenue |
| SalesChannels.CropSharesTotal | app/existing-farmer/sales-analysis/utils.ts:237-244 | with positive revenue the slices add up to 100 |
| SalesChannels.AvailableCrops | app/existing-farmer/sales-analysis/utils.ts:248-251 | strictly ascending, so duplicate-free, and exactly the crops present |
| SalesChannels.AvailableChannels | app/existing-farmer/sales-analysis/utils.ts:254-257 | strictly ascending and exactly the buyers present |
| SalesChannels.FormatLargeNumber | app/existing-farmer/sales-analysis/utils.ts:269-276 | millions exactly from 1 000 000, thousands exactly from 1 000 below that, otherwise the plain value; the figure shown is the quotient rounded as `toFixed` rounds it (tenths of a million, whole thousands), within half a unit of the value; the thousands figure runs from 1 to 1000 |
| SalesChannels.ThousandsReachesThousand | app/existing-farmer/sales-analysis/utils.ts:272-273 | 999 500 is written as 1000 thousands, not as millions |
| SalesSample.ItemRecord | app/existing-farmer/sales-analysis/utils.ts:61-106 | a pushed record carries the item's date, quantity and price, the block's crop and buyer, and total = quantity × unitPrice |
| SalesSample.PushItems | app/existing-farmer/sales-analysis/utils.ts:61-72 | pushing a table appends one record per item, in order, with consecutive ids, and leaves earlier records unchanged |
| SalesSample.GenerateSampleSalesData | app/existing-farmer/sales-analysis/utils.ts:14-110 | 28 records; the i-th is item i mod 7 of table i/7 with id i+1 |
| SalesSample.BlockStep | app/existing-farmer/sales-analysis/utils.ts:61-107 | pushing the next table completes one more block |
| SalesSample.TablesPositive | app/existing-farmer/sales-analysis/utils.ts:19-58 | every table item has positive quantity and price |
| SalesSample.SampleNumbered | app/existing-farmer/sales-analysis/utils.ts:63-70 | ids run 1..28 and every total is quantity × unitPrice |
| SalesSample.SamplePositive | app/existing-farmer/sales-analysis/utils.ts:19-58 | every sample total is positive |
| SalesSample.SampleNamed | app/existing-farmer/sales-analysis/utils.ts:65-105 | every sample crop and buyer has a display name |
| SalesToggles.Toggle | app/existing-farmer/sales-analysis/components/SalesAnalysisFilters.tsx:39-41 | a selected value is removed (the rest kept in order), an unselected one appended; every other value's membership is unchanged |
| SalesToggles.ToggleCrop | app/existing-farmer/sales-analysis/components/SalesAnalysisFilters.tsx:38-43 | only the crop selection changes |
| SalesToggles.ToggleChannel | app/existing-farmer/sales-analysis/components/SalesAnalysisFilters.tsx:45-50 | only the channel selection changes |
| SalesToggles.Reset | app/existing-farmer/sales-analysis/components/SalesAnalysisFilters.tsx:98-102 | crops and channels are emptied; period and dates are kept |
| SalesToggles.ToggleTwiceMembers | app/existing-farmer/sales-analysis/components/SalesAnalysisFilters.tsx:38-43 | toggling twice restores the set of selected values |
| SalesToggles.ToggleTwiceUnselected | app/existing-farmer/sales-analysis/components/SalesAnalysisFilters.tsx:39-41 | toggling an unselected value twice restores the exact list |
| SalesToggles.ToggleRemovesAll | app/existing-farmer/sales-analysis/components/SalesAnalysisFilters.tsx:40 | removing drops every occurrence: the result is the filter and is shorter by the number of occurrences |
| SalesToggles.ResetFiltersByDateOnly | app/existing-farmer/sales-analysis/components/SalesAnalysisFilters.tsx:98-102 | after reset a record passes exactly when it passes the date test |
| SalesToggles.ToggleOffExcludes | app/existing-farmer/sales-analysis/components/SalesAnalysisFilters.tsx:38-43 | toggling a record's crop off (leaving others selected) excludes the record |
| SalesToggles.ToggleOnAdmits | app/existing-farmer/sales-analysis/components/SalesAnalysisFilters.tsx:38-43 | toggling a record's crop on admits it exactly when it passes the date and channel tests |
| DataTypes.MergeSale | lib/stores/data-management-store.ts:54 | `{ ...record, ...updates, updatedAt: now }`: each field is the update's when given, the record's otherwise, and the stamp is always the current time |
| DataTypes.MergeCrop | lib/stores/data-management-store.ts:82 | the same field-wise merge for crop info, stamped with the current time |
| DataTypes.MergeChannel | lib/stores/data-management-store.ts:106 | the same field-wise merge for channels, stamped with the current time |
| DataTypes.MergeIdempotent | lib/stores/data-management-store.ts:54-106 | merging the same updates twice at the same time is merging once, for all three kinds |
| DataTypes.EmptyPatchOnlyStamps | lib/stores/data-management-store.ts:54-106 | an empty update changes nothing but the stamp |
| DataTypes.StampWins | lib/stores/data-management-store.ts:54 | an `updatedAt` supplied in the updates is overwritten by the current time |
| DataStore.WithoutSpec | lib/stores/data-management-store.ts:63 | delete-by-id keeps, in order, exactly the entries with another id, and no entry with that id remains |
| DataStore.WithoutAbsent | lib/stores/data-management-store.ts:63 | deleting an id nobody has changes nothing |
| DataStore.DeleteUndoesAdd | lib/stores/data-management-store.ts:43-68 | adding an entry with a fresh id and deleting that id restores the list |
| DataStore.RevisedSpec | lib/stores/data-management-store.ts:53-55 | update-by-id keeps the length and positions, leaves other ids unchanged and merges the matching entries |
| DataStore.RevisedAbsent | lib/stores/data-management-store.ts:53-55 | updating an id nobody has changes nothing |
| DataStore.RevisedIdempotent | lib/stores/data-management-store.ts:53-55 | with an idempotent merge, updating twice is updating once |
| DataStore.UpdateSalesIdempotent | lib/stores/data-management-store.ts:51-60 | updating a sales record twice with the same fields at the same time is updating once |
| DataStore.DataManagementStore.constructor | lib/stores/data-management-store.ts:41-122 | empty lists, not loading, never updated, nothing published |
| DataStore.DataManagementStore.TriggerSalesAnalysisUpdate | lib/stores/data-management-store.ts:125-136 | publishes the current sales records and changes no field |
| DataStore.DataManagementStore.SetSalesRecords | lib/stores/data-management-store.ts:42 | replaces the sales list; `lastUpdated` and the rest untouched, nothing published |
| DataStore.DataManagementStore.AddSalesRecord | lib/stores/data-management-store.ts:43-50 | appends the record at the end, stamps `lastUpdated`, publishes the new list; other lists untouched |
| DataStore.DataManagementStore.UpdateSalesRecord | lib/stores/data-management-store.ts:51-60 | merges the updates into every record with the id, stamps and publishes; other lists untouched |
| DataStore.DataManagementStore.DeleteSalesRecord | lib/stores/data-management-store.ts:61-68 | removes every record with the id, keeps the rest in order, stamps and publishes |
| DataStore.DataManagementStore.SetCropInfo | lib/stores/data-management-store.ts:72 | replaces the crop list; `lastUpdated` untouched |
| DataStore.DataManagementStore.AddCropInfo | lib/stores/data-management-store.ts:73-78 | appends the crop and stamps; sales untouched and nothing published |
| DataStore.DataManagementStore.UpdateCropInfo | lib/stores/data-management-store.ts:79-86 | merges into every crop with the id and stamps; nothing published |
| DataStore.DataManagementStore.DeleteCropInfo | lib/stores/data-management-store.ts:87-92 | removes every crop with the id and stamps; nothing published |
| DataStore.DataManagementStore.SetSalesChannels | lib/stores/data-management-store.ts:96 | replaces the channel list; `lastUpdated` untouched |
| DataStore.DataManagementStore.AddSalesChannel | lib/stores/data-management-store.ts:97-102 | appends the channel and stamps; nothing published |
| DataStore.DataManagementStore.UpdateSalesChannel | lib/stores/data-management-store.ts:103-110 | merges into every channel with the id and stamps; nothing published |
| DataStore.DataManagementStore.DeleteSalesChannel | lib/stores/data-management-store.ts:111-116 | removes every channel with the id and stamps; nothing published |
| DataStore.DataManagementStore.SetIsLoading | lib/stores/data-management-store.ts:120 | sets the loading flag only |
| DataStore.DataManagementStore.SetLastUpdated | lib/stores/data-management-store.ts:122 | sets the stamp only |
| JsNumbers.Mul | app/existing-farmer/data-management/utils/validation.ts:113 | finite operands multiply exactly; a NaN operand gives NaN |
| JsNumbers.Sub | app/existing-farmer/data-management/utils/validation.ts:114 | finite operands subtract exactly; a NaN operand gives NaN |
| JsNumbers.Abs | app/existing-farmer/data-management/utils/validation.ts:114 | the magnitude of a finite number, non-negative; NaN exactly for NaN |
| JsNumbers.FiniteOrder | app/existing-farmer/data-management/utils/validation.ts:119-123 | `<` and `<=` on finite numbers are the order of the reals |
| JsNumbers.NaNIncomparable | app/existing-farmer/data-management/utils/validation.ts:114-123 | every comparison with NaN is false |
| Validation.QuantityRange | app/existing-farmer/data-management/utils/validation.ts:16-21 | a quantity is accepted exactly when given and read as a number in (0, 100000] |
| Validation.UnitPriceRange | app/existing-farmer/data-management/utils/validation.ts:26-31 | a unit price is accepted exactly when given and read as a number in (0, 1000000] |
| Validation.HalfAccepted | app/existing-farmer/data-management/utils/validation.ts:16-31 | a quantity or price reading as 0.5 is accepted, although the messages ask for at least 1 |
| Validation.StandardPriceRange | app/existing-farmer/data-management/utils/validation.ts:51-56 | the standard price is accepted exactly when empty or read as a number in [0, 1000000] |
| Validation.WordPatternIff | app/existing-farmer/data-management/utils/validation.ts:68 | `^[a-zA-Z0-9_]+$` matches exactly the non-empty texts of word characters |
| Validation.ChannelNameIff | app/existing-farmer/data-management/utils/validation.ts:65-68 | a channel name is accepted exactly when it has 1 to 50 characters, all from `[a-zA-Z0-9_]` |
| Validation.CommissionRateRange | app/existing-farmer/data-management/utils/validation.ts:74-79 | the commission rate is accepted exactly when it is present and either empty or read as a number in [0, 100]; an absent rate is rejected |
| Validation.ValidateRecordConsistency | app/existing-farmer/data-management/utils/validation.ts:104-128 | the mismatch message exactly when the total is more than 0.01 off, each negative message exactly when that number is negative, no error exactly when all three checks pass, messages in check order |
| Validation.TotalOffFinite | app/existing-farmer/data-management/utils/validation.ts:113-114 | on finite numbers, the total is flagged exactly when it is more than 0.01 from quantity × price |
| Validation.NaNPassesConsistency | app/existing-farmer/data-management/utils/validation.ts:113-123 | a NaN quantity passes the total check and the sign check |
| Validation.ConvertDailyRecord | app/existing-farmer/data-management/utils/validation.ts:131-145 | unit kg, channel = buyer, id and stamps from the clock; total is `Number(total)` when truthy, else quantity × unitPrice |
| Validation.ConvertedTotalConsistent | app/existing-farmer/data-management/utils/validation.ts:139 | without a usable total, a record whose numbers read as finite converts with a consistent total |
| Validation.ToStoreRecord | app/existing-farmer/data-management/utils/validation.ts:131-145 | a converted record with finite numbers keeps its id, channel, unit and total in the store's shape |
| Formatting.TruncateText | app/existing-farmer/data-management/utils/formatting.ts:108-113 | the text unchanged when it fits; otherwise its first maxLength characters followed by `...` |
| Formatting.TruncateIdempotent | app/existing-farmer/data-management/utils/formatting.ts:108-113 | truncating an already truncated text again changes nothing |
| Formatting.TruncateBound | app/existing-farmer/data-management/utils/formatting.ts:108-113 | the result has at most maxLength + 3 characters, and is never longer than the text unless the text was within 2 of the limit |
| Formatting.DiffDays | app/existing-farmer/data-management/utils/formatting.ts:85 | `Math.floor(diffTime / 86400000)`: the whole days that bracket the difference |
| Formatting.RelativeOfDays | app/existing-farmer/data-management/utils/formatting.ts:87-102 | today exactly for 0, yesterday exactly for 1, days for other d < 7 (negative included), weeks 1..4 for 7..29, months 1..12 for 30..364, years for 365 on: disjoint and exhaustive |
| Formatting.RelativeMonotone | app/existing-farmer/data-management/utils/formatting.ts:87-102 | from 2 days on, a larger difference never gets a finer unit, and within a unit never a smaller count |
| Formatting.FutureIsDaysAgo | app/existing-farmer/data-management/utils/formatting.ts:84-92 | a date in the future falls in the `d日前` branch with a negative count |
| Formatting.FormatQuantity | app/existing-farmer/data-management/utils/formatting.ts:59-61 | the formatted number followed by the unit as a suffix |
| DataSample.FindFirst | app/existing-farmer/data-management/utils/sample-data.ts:244 | `find`: the first position satisfying the test, or none exactly when no element does |
| DataSample.GetCropName | app/existing-farmer/data-management/utils/sample-data.ts:243-246 | the name of the first crop with that id, or the id itself when no crop has it |
| DataSample.GetChannelDisplayName | app/existing-farmer/data-management/utils/sample-data.ts:249-252 | the display name of the channel with that id, or the id itself when no channel has it |
| DataSample.SampleRecord | app/existing-farmer/data-management/utils/sample-data.ts:158-170 | a pushed record has unit kg, total = quantity × unitPrice, the given fields and note, and both stamps the current time |
| DataSample.PushedAt | app/existing-farmer/data-management/utils/sample-data.ts:155-237 | the i-th pushed record has id i+1, unit kg and total = quantity × unitPrice |
| DataSample.Pushed | app/existing-farmer/data-management/utils/sample-data.ts:155-237 | the 34 records in push order |
| DataSample.PushItems | app/existing-farmer/data-management/utils/sample-data.ts:157-170 | pushing a table appends one record per item, in order, with consecutive ids, earlier records unchanged |
| DataSample.TableStep | app/existing-farmer/data-management/utils/sample-data.ts:157-220 | pushing the next table completes the records up to the next block |
| DataSample.TomatoStep | app/existing-farmer/data-management/utils/sample-data.ts:222-237 | pushing the tomato rows completes all 34 records |
| DataSample.NewerFirstPreorder | app/existing-farmer/data-management/utils/sample-data.ts:239 | the newest-first comparator is a total preorder |
| DataSample.GenerateSampleSalesRecords | app/existing-farmer/data-management/utils/sample-data.ts:100-240 | 34 records, a permutation of those pushed, sorted newest first; records of the same date keep their push order |
| DataSample.PushedFromTable | app/existing-farmer/data-management/utils/sample-data.ts:157-220 | a record of the first 28 carries item i mod 7 of table i/7 with its crop, channel and note |
| DataSample.PushedFromTomatoes | app/existing-farmer/data-management/utils/sample-data.ts:222-236 | the last 6 records carry the tomato rows with their channel and note |
| DataSample.SampleMembers | app/existing-farmer/data-management/utils/sample-data.ts:100-240 | a record is in the sample exactly when it is one of the pushed records |
| DataSample.SampleIdsPresent | app/existing-farmer/data-management/utils/sample-data.ts:100-240 | every id 1..34 occurs in the sorted sample |
| DataSample.SampleIdsInRange | app/existing-farmer/data-management/utils/sample-data.ts:100-240 | every id of the sample lies in 1..34 |
| DataSample.SampleIdsDistinct | app/existing-farmer/data-management/utils/sample-data.ts:100-240 | no two sample records share an id |
| DataSample.PushedOnce | app/existing-farmer/data-management/utils/sample-data.ts:155-237 | every record is pushed at most once |
| DataSample.DistinctCountedOnce | app/existing-farmer/data-management/utils/sample-data.ts:239 | a duplicate-free list holds each value at most once |
| DataSample.SampleNotes | app/existing-farmer/data-management/utils/sample-data.ts:167-233 | grape wholesale gets 品質良好 exactly when quantity > 40, grape direct 高品質品 exactly when price > 400, potatoes by quantity and price, tomatoes レストラン納品 exactly for the restaurant channel |
| DataSample.InitialChannelsValid | app/existing-farmer/data-management/utils/sample-data.ts:52-97 | every initial channel's name and commission rate pass the channel schema |
| AnalysisSample.MonthlyWorkPattern | app/existing-farmer/detailed-analysis/utils/sample-data.ts:69-122 | two patterns in January and February, three in every other month, none outside 1..12; every pattern is for grapes with a positive base duration, a non-negative spread and a frequency in [0, 1] |
| AnalysisSample.MonthlyCostPattern | app/existing-farmer/detailed-analysis/utils/sample-data.ts:192-226 | the four base costs come first; six patterns from March to November, four otherwise; every base amount positive, every spread non-negative |
| AnalysisSample.CostsOfYear | app/existing-farmer/detailed-analysis/utils/sample-data.ts:167-186 | the year of cost patterns adds up to 66 records |
| AnalysisSample.RateOf | app/existing-farmer/detailed-analysis/utils/sample-data.ts:126-138 | the listed hourly rate of the work type, 1000 yen for an unlisted one; always between 900 and 1500 |
| AnalysisSample.CalculateLaborCost | app/existing-farmer/detailed-analysis/utils/sample-data.ts:125-140 | the hours times the hourly rate, rounded to within half a yen |
| AnalysisSample.LaborCostMonotone | app/existing-farmer/detailed-analysis/utils/sample-data.ts:137-139 | the labour cost is never negative and never falls as the duration grows |
| AnalysisSample.TemplatesOf | app/existing-farmer/detailed-analysis/utils/sample-data.ts:144-154 | every work type has at least one note template, the fallback being 作業実施 |
| AnalysisSample.Pick | app/existing-farmer/detailed-analysis/utils/sample-data.ts:155 | a draw in [0, 1) picks an index below the list length |
| AnalysisSample.GenerateWorkNotes | app/existing-farmer/detailed-analysis/utils/sample-data.ts:143-158 | the note is one of the work type's templates followed by the crop in full-width brackets |
| AnalysisSample.WorkDateShape | app/existing-farmer/detailed-analysis/utils/sample-data.ts:47 | a work date with padded month and day has the YYYY-MM-DD shape |
| AnalysisSample.WorkDateMonth | app/existing-farmer/detailed-analysis/utils/sample-data.ts:47 | characters 5 and 6 of a work date are the padded month |
| AnalysisSample.LateDigitAfter31 | app/existing-farmer/detailed-analysis/utils/sample-data.ts:175 | an unpadded day 4..9 sorts after day 31 of the same month |
| AnalysisSample.UnpaddedCostDateDropped | app/existing-farmer/detailed-analysis/utils/sample-data.ts:175 | a cost dated with an unpadded day 4..9 falls outside its own month's date filter |
| AnalysisSample.PaddedDayBetween | app/existing-farmer/detailed-analysis/utils/sample-data.ts:47 | a padded day 1..31 sorts between day 01 and day 31 |
| AnalysisSample.PaddedCostDateKept | app/existing-farmer/detailed-analysis/utils/sample-data.ts:47 | a date with a padded day passes its month's filter for every day 1..31 |
| AnalysisSample.PushWorkDay | app/existing-farmer/detailed-analysis/utils/sample-data.ts:40-57 | each day's records are numbered on from the list, dated that day, for grapes, with a non-negative duration and labour cost |
| AnalysisSample.WorkEntry | app/existing-farmer/detailed-analysis/utils/sample-data.ts:45-55 | a pushed record carries the id, date, crop and work type given, a non-negative rounded duration and a non-negative labour cost |
| AnalysisSample.GoodWorkSnoc | app/existing-farmer/detailed-analysis/utils/sample-data.ts:45 | appending a well-formed record keeps the whole list well-formed |
| AnalysisSample.GenerateSampleWorkData | app/existing-farmer/detailed-analysis/utils/sample-data.ts:26-66 | at most the configured number of records, numbered 1, 2, 3 …, each dated YYYY-MM-DD, for grapes, with non-negative duration and labour cost |
| AnalysisSample.GenerateSampleCostData | app/existing-farmer/detailed-analysis/utils/sample-data.ts:162-189 | exactly 66 records, numbered from 1, each with a whole non-negative amount |
| AnalysisSample.SalesMonthOf | app/existing-farmer/detailed-analysis/utils/sample-data.ts:235-238 | the sales of each month come after those of the months before it, eight in September and October and four otherwise |
| AnalysisSample.ScaledDraw | app/existing-farmer/detailed-analysis/utils/sample-data.ts:242-243 | a draw scaled to a width and offset stays within the offset range |
| AnalysisSample.DrawSale | app/existing-farmer/detailed-analysis/utils/sample-data.ts:239-256 | a sale takes four draws; it is dated in its month, for 20..100 kg of grapes, direct at 400..500 yen or wholesale at 300..350, with the matching note |
| AnalysisSample.GenerateSampleSalesData | app/existing-farmer/detailed-analysis/utils/sample-data.ts:230-261 | exactly 28 sales, numbered from 1, each dated in August to December in month order with the shape of a generated sale |
| AnalysisSample.GoodSaleSnoc | app/existing-farmer/detailed-analysis/utils/sample-data.ts:245 | appending a well-formed sale keeps the whole list well-formed |
| AnalysisSample.ValidateSampleData | app/existing-farmer/detailed-analysis/utils/sample-data.ts:412-439 | valid exactly when there are no errors; one error per empty list, per badly shaped work date and per negative amount; each bad date's message is among the errors |
| AnalysisSample.ValidIff | app/existing-farmer/detailed-analysis/utils/sample-data.ts:415-436 | no errors exactly when all three lists are non-empty, every work date is YYYY-MM-DD and no amount is negative |
| AnalysisSample.GeneratedDataValid | app/existing-farmer/detailed-analysis/utils/sample-data.ts:412-439 | generated cost and sales lists with at least one generated work record pass `validateSampleData` |
| Numbers.Round | app/existing-farmer/detailed-analysis/utils/data-aggregation.ts:183 | `Math.round`: the result is within half a unit of the argument, a half rounding upward |
| Dates.DaysInMonth | app/existing-farmer/detailed-analysis/utils/sample-data.ts:33 | `new Date(y, m, 0).getDate()`: every month has 28 to 31 days |
| Dates.ParseIsoDate | app/existing-farmer/detailed-analysis/utils/data-aggregation.ts:27 | reading a `YYYY-MM-DD` date back gives the calendar date it was written from |
| Text.PadStart | app/existing-farmer/detailed-analysis/utils/sample-data.ts:47 | `padStart`: the result is the fill characters followed by the string, as long as the width when the string is shorter |
| Ordering.SortBy | app/existing-farmer/detailed-analysis/utils/data-aggregation.ts:508 | the sort returns a permutation of its input, ordered by the comparator |
| Ordering.InsertByStable | app/existing-farmer/data-management/utils/sample-data.ts:239 | inserting into a sorted list puts the new element after every element level with it |
| Ordering.SortByStable | app/existing-farmer/data-management/utils/sample-data.ts:239 | the sort is stable: elements the comparator ranks level come out in their input order |
| Ordering.SortedUnique | app/existing-farmer/detailed-analysis/utils/data-aggregation.ts:363 | `Array.from(new Set(xs)).sort()`: strictly ascending, holding exactly the values of the input |
| Ordering.SortedUniqueness | app/existing-farmer/detailed-analysis/utils/data-aggregation.ts:363 | the order in which values were collected does not change the sorted distinct list |

## Left out

- User interface: pages, dialogs, tables and chart components are not modelled. Neither are the API routes and external services (the AI and statistics services). None of them is analysis logic.
- Persistence and events: `localStorage`, `window.dispatchEvent` and the zustand `persist` wrapper of the store are left out. The store records the sales-analysis updates it would dispatch as a `published` list of snapshots. `initializeData` writes the sample data into the store through those side effects and is left out with them.
- JavaScript numbers: amounts, minutes, ratios and sums are exact reals. Floating-point rounding error is not modelled, and neither is overflow to `Infinity`. `Math.round(x * 100) / 100` is computed exactly on reals.
- `Number(text)` parsing is not modelled; the form rules receive it as a `toNumber` parameter. The zod machinery (`parseAsync`, error objects) is left out; only the refine predicates are modelled.
- String lengths count characters, not UTF-16 code units. `localeCompare` and the default `sort()` are modelled as code-point lexicographic order. This is an assumption about the locale: it agrees with `localeCompare` on the keys sorted here only because any two of them first differ at a digit, or at a digit against a Han character (`2024年01月`, `2024年Q1`, `不明な期間`, `2024-11`, `2024-Q4`, ISO dates).
- Dates are `YYYY-MM-DD` strings. `new Date(s)` is modelled as reading year, month and day, with an Invalid Date for anything else. The lenient fallback parsing of other shapes, day rollover and the shift between UTC parsing and local-time getters are not modelled.
- The clock (`new Date()`, `Date.now()`) is a `now` parameter, read once per action.
- `getPeriodRange` (data-aggregation.ts:52-85) is not modelled. It depends on Date rollover and on the clock for invalid input, and none of the modelled operations calls it.
- `generateSampleTargets`, `generateSampleInsights` and `generateDetailedAnalysisSampleData` of the detailed-analysis sample data are not modelled. They only assemble fixed tables and the three generators, which are modelled.
- Random draws: the generators take every `Math.random()` draw, in program order, from `rand`. Only the range [0, 1) of a draw is assumed; its distribution is not modelled.
- `Intl`, date-fns `format` and `toLocaleString` are opaque formatters. `formatCurrency` is not modelled. `formatQuantity` receives the number formatter as a parameter.
- Statistics.CalculateStatistics: carries the population variance instead of `stdDev`, because `Math.sqrt` has no exact real counterpart. The rounding of `stdDev` to two decimals is therefore not modelled.
- Statistics.DetectOutliers: compares the squared deviation with four times the unrounded variance, not the deviation with twice the rounded `stdDev`. The rounded mean is kept, as written.
- Formatting.FormatRelativeDate: takes the time difference as a whole number of milliseconds, so an unparseable date, whose difference is `NaN` and which the source writes as `NaN年前`, is not modelled.
- Formatting.FormatRelativeDate: the text is built from the wording chosen by `RelativeOfDays`, and the properties are proved about that choice. The strings themselves carry no contract.
- SalesCrops.Points: keeps the period label apart from the crop totals. In the source `{ period, ...crops }` lets a crop whose id is `period` overwrite the label, after which the sort's `a.period.localeCompare` would fail on a number; that case is not modelled.
- SalesChannels.FormatLargeNumber: the rounding of `toFixed` is taken on the exact quotient; binary floating-point ties, and the locale formatting of the plain branch, are not modelled.
- Chart rows are maps from field name to value. The key order that `Object.entries` and object spread give to integer-like keys is not modelled.
- SalesChannels.AveragePrice: a `NaN` or `Infinity` price (no volume) is modelled as `None`.
- DataSample.GenerateSampleSalesRecords: the sort compares `new Date(date).getTime()`. The model reads that time from the date string (`TimeOf`), which stands in for an Invalid Date as well; every sample date is valid.
- SalesChannels.GroupChannels: the per-buyer record count the source keeps is never read, so it is not modelled.
- Validation: the `isDate` check of a date field is a parameter, like `toNumber`.
- The chip toggles and reset of the sales filter panel are modelled as functions on the filter value; the React state setters are not modelled.

## Findings

| source | as written | input that shows it | evidently intended | confidence | as-written member | corrected member |
|---|---|---|---|---|---|---|
| app/existing-farmer/sales-analysis/utils.ts:192 | `getPeriodLabel(period, period as AnalysisPeriod)` passes the period key as the period type; no key equals a period name, so the key comes back unchanged | monthly data dated `2024-11-05` is charted as `2024-11` | the label `2024年11月`, from `getPeriodLabel(key, filters.period)` | high, not executed | SalesCrops.AsWrittenShowsKeys | SalesCrops.IntendedShowsLabels |
| app/existing-farmer/detailed-analysis/utils/data-aggregation.ts:528-536 | `detectOutliers` measures distances from `stats.mean`, which was rounded to two decimals at line 518 | `[0.001, 0.001, 0.001, 0.001]`: the mean rounds to 0, the spread is 0, and every value is reported as an outlier | distances from the exact mean; constant data has no outliers | high, not executed | Statistics.ConstantDataFlagged | Statistics.ConstantDataNoOutliers |
| app/existing-farmer/detailed-analysis/utils/sample-data.ts:175 | the cost date pads the month but not the day | a cost on 5 March is dated `2024-03-5`, which sorts after `2024-03-31`; a March filter from `2024-03-01` to `2024-03-31` drops it | the day padded to two digits, as the work and sales dates are | high, not executed | AnalysisSample.UnpaddedCostDateDropped | AnalysisSample.PaddedCostDateKept |
