# FinanceLab financial core in Dafny

FinanceLab loads three monthly financial statements of a company: an
income statement, a cash-flow statement and a balance sheet. Each
statement is a list of rows, and each row maps a column name to a CSV
cell. From these rows the program derives ratios, narratives and text
summaries. This project models that core and proves what each part
computes:

- **Cells and JavaScript coercions**: module `JsValues` and module
  `JsText`.
  - A cell is missing, `null`, a string or a number.
  - `JsValues` models the coercions `Number(x)`, `parseFloat(x)`, `x || y`
    and `toFixed(2)`, and the input sanitiser.
  - `JsText` models trimming, splitting and joining text, and the ASCII
    case maps.
- **Statements** (`Statements`): the dataset and its normalisation
  (`x || []`). The dashboard's mutable dataset is the class
  `FinanceData`. `Statements` also holds the month index that
  `incomeByMonth[r.Month] = …` builds.
- **Engine helpers** (`Core`, `Profitability`, `Valuation`,
  `WorkingCapital`, `Standards`):
  - number safety, sums, averages, latest values and series;
  - growth and margin;
  - margin series and ROIC;
  - free cash flow, discounted cash flow and terminal value;
  - working capital, current ratio, quick ratio and cash-conversion cycle;
  - the industry thresholds.
- **The client engine** (`FinanceEngine`): `runFinanceEngine`. It gives
  the liquidity, profitability, valuation, operating-leverage,
  capital-structure and efficiency series, each with its latest value.
- **Narratives** (`Narratives`): `generateNarrative`, a choice of
  template sentences driven by thresholds.
- **The enhancement pass** (`Enhancer`): `enhanceDatasets`, which writes
  the derived columns into every statement row in place.
- **The edit transaction** (`Recompute`): `saveEditedCell`. It does the
  following in order:
  1. writes the sanitised text into a cell;
  2. runs the enhancement pass;
  3. recomputes the income statement, the cash-flow statement (operating
     cash is the month's net income) and the balance sheet (cash carried
     forward by the net cash flows).
- **Dashboard helpers**:
  - `DashboardMetrics`: the narrative metrics (revenue volatility, trend,
    current ratio, debt to equity, net income).
  - `DashboardText`: the company-name formatter and the CSV reader.
- **Server services**:
  - `IntelligenceService`: the metrics and the rule-based business
    analysis of `FinancialIntelligenceService`.
  - `FinancialIntelligence`: the text summary of the data and the metric
    calculator.

Numbers are `real`. JavaScript's non-finite results (`Infinity`, `NaN`)
appear only where the source divides by a value it does not guard: there
a result is a `JsNum`. Every loop the source runs over rows is a method
with loop invariants, proved against a function on the rows. The
enhancement pass, the recompute, the month index, the narrative metrics
and the text summary are such methods. The dataset they update is the
`FinanceData` object.

## Model

| member | source | states |
|---|---|---|
| Core.Get | public/js/engine/core.js:19 | `row[key]`: the cell of a present key, a missing cell otherwise |
| Core.SafeNumber | public/js/engine/core.js:8-11 | a finite `Number(value)` is returned unchanged; NaN becomes 0; numbers stay themselves; missing and null read 0 |
| Core.SafeNumberOrZero | public/js/engine/core.js:8-11 | `safeNumber(x \|\| 0)` equals `safeNumber(x)`: a falsy cell reads 0 either way |
| Core.NumberOr0 | services/csv.service.js:54-57 | `Number(x \|\| 0)`, with NaN read as 0, is the same reading as `safeNumber` |
| Core.Pick | public/js/engine/core.js:17-20 | a missing row gives 0; otherwise the safe number of the column |
| Core.SumAppend | public/js/engine/core.js:26-28 | the sum of a column over two concatenated row lists is the sum of the two sums |
| Core.SumStep | public/js/engine/core.js:26-28 | the sum over one more row adds that row's safe number (the reduce step) |
| Core.SumNonNegative | public/js/engine/core.js:26-28 | a column whose every row reads non-negative has a non-negative sum |
| Core.Average | public/js/engine/core.js:30-33 | 0 for no rows; otherwise the sum divided by the row count |
| Core.Latest | public/js/engine/core.js:35-38 | 0 for no rows; otherwise the last row's safe number |
| Core.Series | public/js/engine/core.js:44-47 | one element per row, each the builder applied to that row, its index and the rows |
| Core.GetSeries | public/js/engine/core.js:49-51 | one element per row, each the safe number of the column |
| Core.GetLabels | public/js/engine/core.js:53-55 | one label per row: the cell, or the empty string when the cell is missing or null |
| Core.GrowthRate | public/js/engine/core.js:61-66 | 0 when the previous value is 0; otherwise the rate times \|previous\| is the change, and its sign is the sign of the change |
| Core.Margin | public/js/engine/core.js:68-72 | 0 for a zero total; otherwise the margin times the total is the part |
| Core.DeltaSeries | public/js/engine/core.js:78-83 | same length as the rows, 0 first, and each later delta added to the previous value gives the current value |
| Core.GrowthSeries | public/js/engine/core.js:85-90 | same length as the rows, 0 first |
| Core.GrowthSeriesMeaning | public/js/engine/core.js:85-90 | each later element is the growth rate from the previous row: 0 after a zero, otherwise with the sign of the change |
| Core.PowPositive | public/js/engine/valuation.js:41 | a positive base raised to any count stays positive, so a discount factor is never 0 |
| Core.PowNonZero | public/js/engine/valuation.js:41 | a non-zero base raised to any count stays non-zero |
| JsValues.Or | services/csv.service.js:54 | `a \|\| b`: a truthy cell is kept, otherwise the second operand |
| JsValues.ToNumber | public/js/engine/core.js:9 | `Number(x)` is finite or NaN; missing is NaN, null is 0, a number is itself |
| JsValues.ParseFloat | services/intelligence.service.js:38-46 | `parseFloat(x)` is finite or NaN; missing and null are NaN; a number is itself |
| JsValues.ParseFloatOr0 | services/intelligence.service.js:38-46 | `parseFloat(x) \|\| 0`: a finite parse is kept; NaN becomes 0 |
| JsValues.SafeNum | public/js/engine/core.js:10 | `Number.isFinite(n) ? n : 0` |
| JsValues.Sanitize | public/js/dashboard.js:681 | keeps only digits, points and minus signs, so it never lengthens the text |
| JsValues.SanitizeAppend | public/js/dashboard.js:681 | sanitising a concatenation sanitises each part |
| JsValues.SanitizeClean | public/js/dashboard.js:681 | text of digits, points and minus signs only is left unchanged |
| JsValues.SanitizeIdempotent | public/js/dashboard.js:681 | sanitising twice is sanitising once |
| JsValues.CleanNumber | public/js/dashboard.js:707 | a number is itself; a falsy cell is 0; text reads as the number of its sanitised characters, NaN as 0 |
| JsValues.Div | public/js/finance.engine.js:109 | dividing by a non-zero finite number is exact division; by 0 gives a non-finite result; by NaN gives NaN |
| JsValues.Or0 | public/js/finance.engine.js:113 | `x \|\| 0` on a number: NaN becomes 0 and everything else is kept |
| JsValues.Abs | public/js/dashboard.js:838-839 | `Math.abs`: non-negative, equal to the value or its negation |
| JsValues.Round2 | services/intelligence.service.js:50-56 | `toFixed(2)` moves the value by at most half a cent and keeps its sign |
| JsValues.Fixed2 | services/intelligence.service.js:50-56 | `toFixed(2)` of a finite number is within half a cent of it; non-finite values pass unchanged |
| JsValues.NatTextRoundTrip | services/financial.intelligence.js:107 | the decimal text of a count reads back, through `Number`, `parseFloat` and the sanitising reader, as the count |
| JsText.TrimStart | public/js/dashboard.js:363 | removes exactly the leading white space |
| JsText.TrimEnd | public/js/dashboard.js:363 | removes exactly the trailing white space |
| JsText.Trim | public/js/dashboard.js:363 | the result neither starts nor ends with white space and is no longer than the text |
| JsText.Split | public/js/dashboard.js:362 | `split(sep)` gives at least one piece and no piece holds the separator |
| JsText.JoinSplit | public/js/dashboard.js:320-322 | joining the pieces of a split with the same separator gives the text back |
| JsText.SplitJoin | public/js/dashboard.js:320-322 | splitting a join of separator-free pieces gives the pieces back |
| JsText.SplitFree | public/js/dashboard.js:362 | text without the separator splits into itself |
| JsText.SplitPrefix | public/js/dashboard.js:362 | text that starts with a separator-free part splits into that part followed by the split of the rest |
| JsText.JoinAppend | public/js/narratives.js:75-77 | joining two non-empty lists is joining each, with one separator between |
| JsText.JoinEmpty | public/js/narratives.js:74-77 | a join of non-empty texts is empty exactly when there are none |
| JsText.UpperChar | public/js/dashboard.js:321 | lower-case ASCII letters become upper case; every other character is unchanged |
| JsText.LowerChar | services/financial.intelligence.js:139 | upper-case ASCII letters become lower case, and upper-casing them restores them; every other character is unchanged |
| JsText.ToLower | services/financial.intelligence.js:139 | lower-cases every character in place |
| JsText.NatToString | services/financial.intelligence.js:107 | the decimal text of a count: digits only, no leading zero |
| Statements.Normalize | public/js/finance.engine.js:14-16 | each absent statement becomes the empty list; a present one is kept |
| Statements.FinanceData.constructor | public/js/dashboard.js:348 | the dataset object holds the given statements |
| Statements.MonthIndexFinds | services/csv.service.js:49-50 | every month in the index points at a row of that month, and the month is truthy |
| Statements.MonthIndexIsLast | services/csv.service.js:49-50 | no row after the indexed one has the same month: a later row replaces an earlier one |
| Statements.MonthIndexCovers | services/csv.service.js:49-50 | every row with a truthy month has its month in the index |
| Statements.MonthIndexLastWins | services/csv.service.js:49-50 | of two rows with the same month, the index points at or beyond the later one |
| Statements.BuildMonthIndex | services/csv.service.js:49-50 | the loop over the rows builds exactly the month index |
| Statements.RowForMonth | services/csv.service.js:110 | the row of a month in the index has that month; an unknown month gives the empty row `{}` |
| Standards.StandardsOrdered | public/js/standards.js:3-9 | the high gross-margin bound exceeds the low one, healthy liquidity exceeds warning, and safe leverage is below risky |
| Standards.StandardsAreDefaults | public/js/standards.js:3-9 | the narrative under these standards equals the narrative under no standards: every value is the narrative's default |
| Standards.WarningNeverRead | public/js/standards.js:6 | the current-ratio warning threshold never changes a narrative |
| Profitability.MarginSeries | public/js/engine/profitability.js:20-36 | one margin per income row: 0 where revenue reads 0, otherwise the margin times revenue is the column |
| Profitability.GrossMarginSeries | public/js/engine/profitability.js:20-24 | the margin series of gross profit |
| Profitability.OperatingMarginSeries | public/js/engine/profitability.js:26-30 | the margin series of operating income |
| Profitability.NetMarginSeries | public/js/engine/profitability.js:32-36 | the margin series of net income |
| Profitability.ZeroRevenueZeroMargins | public/js/engine/profitability.js:20-36 | a row with zero revenue has all three margins 0 |
| Profitability.RoicSeries | public/js/engine/profitability.js:42-59 | one entry per period both statements have; 0 where invested capital (total assets less payables and loans) is 0, otherwise the entry times invested capital is NOPAT |
| Profitability.BuildProfitabilityEngine | public/js/engine/profitability.js:65-72 | the three margin series, one per income row, and ROIC at a 25% tax rate |
| Profitability.GrossMargin | public/js/engine/profitability.js:75 | the alias is the gross-margin series |
| Profitability.OperatingMargin | public/js/engine/profitability.js:76 | the alias is the operating-margin series |
| Profitability.NetMargin | public/js/engine/profitability.js:77 | the alias is the net-margin series |
| Profitability.Roic | public/js/engine/profitability.js:78 | the alias is the ROIC series |
| Valuation.Coalesce | public/js/engine/valuation.js:17-27 | `a ?? b ?? …`: the first operand that is not null or undefined, else the last |
| Valuation.OperatingCash | public/js/engine/valuation.js:17-20 | `Operating_Cash_Flow` unless it is null or undefined, then `Cash_From_Operations` |
| Valuation.Capex | public/js/engine/valuation.js:22-27 | the first capital-expenditure spelling present, or 0 when none is |
| Valuation.FreeCashFlowSeries | public/js/engine/valuation.js:15-31 | one element per row; each plus the row's capex is its operating cash |
| Valuation.NoCapexFreeCashFlow | public/js/engine/valuation.js:15-31 | a row without capex has free cash flow equal to its operating cash |
| Valuation.DiscountSumFront | public/js/engine/valuation.js:37-43 | the reduce that discounts flow j by `(1+r)^(j+1)` satisfies the recurrence: first flow plus the discounted rest, over `1+r` |
| Valuation.DiscountSumIsPresentValue | public/js/engine/valuation.js:37-43 | the reduce equals the present value defined by that recurrence |
| Valuation.DiscountedCashFlow | public/js/engine/valuation.js:37-43 | the present value of the flows at the rate; 0 for no flows |
| Valuation.DiscountedCashFlowExample | public/js/engine/valuation.js:37-43 | three flows of 100 at 10% are worth 100/1.1 + 100/1.21 + 100/1.331 |
| Valuation.TerminalValue | public/js/engine/valuation.js:49-53 | 0 unless the discount rate exceeds the growth rate; otherwise the value times the spread is the grown last cash flow |
| Valuation.LastOr0 | public/js/engine/valuation.js:63 | the last element of a series, 0 for none: the last free cash flow here, and each engine section's latest value |
| Valuation.BuildValuationEngine | public/js/engine/valuation.js:59-71 | free cash flow, its present value at 12%, the terminal value at 3% growth, and intrinsic value as their sum; all 0 without rows |
| WorkingCapital.LastRow | public/js/engine/workingCapital.js:13 | the last row, or `{}` for no rows |
| WorkingCapital.Alias | public/js/engine/workingCapital.js:16-21 | the first spelling of a column that is present |
| WorkingCapital.AliasNumber | public/js/engine/workingCapital.js:16-22 | the safe number of that cell |
| WorkingCapital.WorkingCapital | public/js/engine/workingCapital.js:12-26 | 0 for no rows; otherwise current assets less payables, loans and current liabilities (either spelling, the first truthy) |
| WorkingCapital.CurrentRatio | public/js/engine/workingCapital.js:28-38 | 0 for no rows; otherwise current assets over liabilities, or the assets themselves when liabilities are 0 |
| WorkingCapital.CurrentRatioIgnoresAlias | public/js/engine/workingCapital.js:23-37 | a row whose liabilities use the `CurrentLiability` spelling has working capital 0 but a current ratio equal to its cash: the ratio reads only `Current_Liabilities` |
| WorkingCapital.QuickRatio | public/js/engine/workingCapital.js:40-48 | current assets when liabilities are falsy; current assets over liabilities when these read non-zero; non-finite when the liabilities are a truthy zero |
| WorkingCapital.QuickRatioZeroText | public/js/engine/workingCapital.js:40-48 | liabilities written as the text "0" make the quick ratio non-finite |
| WorkingCapital.CashConversionCycle | public/js/engine/workingCapital.js:50-52 | the cycle plus DPO is DSO plus DIO |
| FinanceEngine.MonthsOf | public/js/finance.engine.js:21 | the month cell of every row |
| FinanceEngine.Months | public/js/finance.engine.js:21 | the income months, else the balance-sheet months, else none |
| FinanceEngine.LatestNum | public/js/finance.engine.js:37 | `series.at(-1) \|\| 0` on JavaScript numbers: never NaN, and the last element when it is not NaN |
| FinanceEngine.WorkingCapitalSeries | public/js/finance.engine.js:22 | one entry per balance row: the working capital of that row alone |
| FinanceEngine.CurrentRatioSeries | public/js/finance.engine.js:23 | one entry per balance row: the current ratio of that row alone |
| FinanceEngine.QuickRatioSeries | public/js/finance.engine.js:24 | one entry per balance row: the quick ratio of that row alone |
| FinanceEngine.FirstOf | public/js/finance.engine.js:41-43 | `Number(a \|\| b \|\| 0)`: the first truthy cell as a number, else 0 |
| FinanceEngine.BuildLiquidity | public/js/finance.engine.js:22-46 | the three series, their latest values, and the latest row's cash, receivables and current liabilities under their alternative spellings |
| FinanceEngine.DcfSeries | public/js/finance.engine.js:78-80 | one entry per month: the present value of the free cash flows from that month on |
| FinanceEngine.SuffixPresentValues | public/js/finance.engine.js:78-80 | each suffix reduce equals the present value of that suffix |
| FinanceEngine.DcfSeriesRecurrence | public/js/finance.engine.js:78-80 | each entry is this month's flow plus next month's entry, discounted one month; the last is its flow discounted once |
| FinanceEngine.BuildValuation | public/js/finance.engine.js:72-85 | free cash flow, the DCF series at the monthly rate, and both latest values |
| FinanceEngine.RelativeChange | public/js/finance.engine.js:95-96 | the change over `\|previous\| \|\| 1`: the growth rate, or the plain change after 0; it is 0 exactly when nothing changed |
| FinanceEngine.Dol | public/js/finance.engine.js:95-98 | 0 when revenue did not change; otherwise DOL times the revenue change is the EBIT change |
| FinanceEngine.DolSeries | public/js/finance.engine.js:91-99 | one entry per income row, 0 first, each later one the DOL against the previous row |
| FinanceEngine.DolFlatRevenue | public/js/finance.engine.js:97 | a month with unchanged revenue has DOL 0 |
| FinanceEngine.NumberOr1 | public/js/finance.engine.js:109 | `Number(x \|\| 1)`: 1 for a falsy cell, otherwise `Number(x)` |
| FinanceEngine.DebtToEquitySeries | public/js/finance.engine.js:109 | one entry per balance row: loans plus payables over `Number(Equity \|\| 1)` |
| FinanceEngine.EquityRatioSeries | public/js/finance.engine.js:110 | one entry per balance row: equity over `Number(Total_Assets \|\| 1)` |
| FinanceEngine.DebtToEquityZeroText | public/js/finance.engine.js:109 | equity written as the text "0" is truthy and makes the ratio non-finite |
| FinanceEngine.BalanceAt | public/js/finance.engine.js:119 | `balance[i] && balance[i][column]`: missing past the end |
| FinanceEngine.TurnoverSeries | public/js/finance.engine.js:119-120 | one entry per income row: revenue over the same period's balance column or 1; revenue itself past the end of the balance sheet |
| FinanceEngine.RunFinanceEngine | public/js/finance.engine.js:13-135 | the report holds the normalised statements, every section's series as defined above, and each latest value |
| FinanceEngine.ReportLengths | public/js/finance.engine.js:13-135 | balance-sheet series have one entry per balance row, income series one per income row, the DCF series one per cash-flow row |
| Narratives.Threshold | public/js/narratives.js:34 | `configured \|\| default`: a configured non-zero threshold, else the default |
| Narratives.TemplateNonEmpty | public/js/narratives.js:3-26 | no template sentence is empty |
| Narratives.GrossMarginSentence | public/js/narratives.js:32-37 | high at or above the high bound; else low at or below the low bound; else medium (each an if-and-only-if) |
| Narratives.RevenueSentence | public/js/narratives.js:40-49 | declining exactly when the trend is truthy and below -0.5; else volatile above the volatility bound; else stable |
| Narratives.LiquiditySentence | public/js/narratives.js:52-56 | healthy exactly at or above the healthy bound, otherwise warning |
| Narratives.LeverageSentence | public/js/narratives.js:59-64 | risky exactly when above the safe bound and at or above the risky bound; safe otherwise |
| Narratives.NetIncomeSentence | public/js/narratives.js:67-71 | positive exactly at or above the baseline |
| Narratives.Optional | public/js/narratives.js:32 | a sentence is added only when its metric is a number |
| Narratives.Sentences | public/js/narratives.js:29-71 | one sentence per metric present |
| Narratives.SentencesAreReadings | public/js/narratives.js:29-71 | the sentences are the readings of the five metrics that are numbers, kept in the metrics' order |
| Narratives.SentencePlacement | public/js/narratives.js:29-71 | for any set of present metrics: a present metric's sentence is the one its value selects, at the position given by the number of present metrics before it, so earlier metrics come first; there are as many sentences as present metrics |
| Narratives.GrossMarginFirst | public/js/narratives.js:32-37 | the first sentence is the gross-margin one exactly when the gross margin is a number |
| Narratives.SentencesInOrder | public/js/narratives.js:29-71 | with every metric present, the sentences are gross margin, revenue, liquidity, leverage, net income, in that order |
| Narratives.Texts | public/js/narratives.js:3-26 | each sentence's template |
| Narratives.GenerateNarrative | public/js/narratives.js:28-78 | the fixed no-data text when no metric is present; otherwise the templates joined by spaces |
| Narratives.ParagraphsAreJoin | public/js/narratives.js:75-77 | splitting the parts into two halves and rejoining them with a space is one join of all the parts |
| Narratives.ZeroThresholdIsDefault | public/js/narratives.js:34 | a threshold configured as 0 is ignored in favour of the default |
| Enhancer.RatioMeaning | services/csv.service.js:87 | `total ? part / total : 0`: 0 for a zero total, otherwise the ratio times the total is the part |
| Enhancer.PctMeaning | services/csv.service.js:59-61 | a zero total gives 0; otherwise the percentage times the total is a hundred times the part |
| Enhancer.GrowthPctSign | services/csv.service.js:69-70 | 0 after a zero; otherwise the growth percentage has the sign of the change |
| Enhancer.EnhanceIncome | services/csv.service.js:52-72 | the loop rewrites the income rows into the enhanced income statement and leaves the other statements alone |
| Enhancer.EnhanceBalance | services/csv.service.js:74-95 | the loop rewrites the balance rows into the enhanced balance sheet and leaves the other statements alone |
| Enhancer.EnhanceCashFlow | services/csv.service.js:97-116 | the loop rewrites the cash-flow rows into the enhanced cash-flow statement, looking income rows up by month |
| Enhancer.Enhance | services/csv.service.js:43-117 | the whole pass leaves the dataset equal to the enhanced statements |
| Enhancer.IncomeRowFor | services/csv.service.js:110 | the income row of the same month, or `{}` when there is none |
| Enhancer.EnhanceKeepsRawColumns | services/csv.service.js:43-117 | lengths are kept and every column the pass does not write keeps its cell in every row |
| Enhancer.FirstRowHasNoGrowth | services/csv.service.js:63-90 | the first income row has growth 0 and the first balance row has asset change 0 |
| Enhancer.IncomeGrowthAgainstPrevious | services/csv.service.js:66-70 | each later row's revenue and net-income growth are measured against the previous raw row |
| Enhancer.CumulativeCashAt | services/csv.service.js:97-105 | cumulative cash at row i is the sum of net cash flow over rows 0..i |
| Enhancer.CumulativeCashIsRunningSum | services/csv.service.js:97-105 | the same on the dataset, and each cumulative value is the previous one plus this row's net cash flow |
| Enhancer.FreeCashFlowBound | services/csv.service.js:107-108 | free cash flow never exceeds operating cash; it equals it when investing is non-negative, and adds the investing flow otherwise |
| Enhancer.CrossRatiosUseSameMonth | services/csv.service.js:110-115 | the cash-flow ratios use the last income row of the same month; without one they are 0 |
| Enhancer.BalanceIdentities | services/csv.service.js:83-86 | working capital is current assets less current liabilities; current liabilities are the payables; total debt is payables plus loans |
| Enhancer.DebtToEquityMeaning | services/csv.service.js:87 | debt to equity is total debt over raw equity, 0 for zero equity |
| Enhancer.IncomeIdempotent | services/csv.service.js:52-72 | enhancing the income statement twice gives the same rows as once |
| Enhancer.BalanceIdempotent | services/csv.service.js:74-95 | enhancing the balance sheet twice gives the same rows as once |
| Enhancer.CashFlowIdempotent | services/csv.service.js:97-116 | enhancing the cash-flow statement twice gives the same rows as once |
| Enhancer.EnhanceIdempotent | services/csv.service.js:43-117 | the whole pass is idempotent, so a re-run after an edit only reflects the edit |
| Recompute.RecomputeIncome | public/js/dashboard.js:705-730 | the loop leaves the income statement equal to the recomputed income rows and the other statements unchanged |
| Recompute.RecomputeCashFlow | public/js/dashboard.js:736-761 | the loop leaves the cash-flow statement equal to the recomputed rows |
| Recompute.PropagateBalance | public/js/dashboard.js:767-803 | with both statements present, the loop leaves the balance sheet recomputed with cash carried forward by net cash flow |
| Recompute.RecomputeBalanceAlone | public/js/dashboard.js:804-831 | otherwise the loop recomputes the balance sheet from its own cash |
| Recompute.RecomputeAll | public/js/dashboard.js:689-831 | the three recomputations together leave the dataset equal to the recomputed dataset |
| Recompute.Written | public/js/dashboard.js:674-682 | a cell is written exactly when the table id is known and the row exists |
| Recompute.SaveEditedCell | public/js/dashboard.js:673-831 | the dataset after an edit is the sanitised write, then the enhancement pass, then the recompute; nothing happens for an unknown table or row |
| Recompute.SavedEditOutcome | public/js/dashboard.js:673-831 | an edit that writes nothing leaves the dataset unchanged; otherwise the result is the recompute of the written dataset |
| Recompute.RecomputedIncomeIdentities | public/js/dashboard.js:707-719 | revenue is kept; gross profit is revenue less COGS; net income is gross profit less operating expenses; zero revenue gives zero margins |
| Recompute.RecomputedIncomeGrowth | public/js/dashboard.js:721-729 | growth is 0 in the first row and otherwise measured against the previous recomputed row |
| Recompute.CashFlowTotalsMeaning | public/js/dashboard.js:741-760 | operating cash is the month's net income; net flow is its sum with investing and financing; cumulative cash adds it; FCF never exceeds operating cash; OCF to net income is 100% or 0 |
| Recompute.RecomputedCashFlowIdentities | public/js/dashboard.js:736-761 | the same, row by row on the statement, with operating cash taken from the recomputed income row of the same month |
| Recompute.CumulativeCashRuns | public/js/dashboard.js:736-751 | cumulative cash starts at the first net flow and adds each later one |
| Recompute.CumulativeCashAtRow | public/js/dashboard.js:736-751 | cumulative cash at row i is the total of the net flows up to i |
| Recompute.BalanceTotalsMeaning | public/js/dashboard.js:781-802 | total assets are cash, receivables and equipment; equity plus total debt is total assets; working capital, debt to equity and asset growth as defined |
| Recompute.BalanceSheetBalances | public/js/dashboard.js:780-831 | every recomputed balance row balances: equity plus debt equals assets, and working capital is current assets less current liabilities |
| Recompute.BalanceAssetsGrowth | public/js/dashboard.js:797-802 | asset growth is 0 first and otherwise measured against the previous recomputed row |
| Recompute.CashPropagates | public/js/dashboard.js:769-779 | a row's cash is the previous row's cash plus the net flow of the same index; the first row and rows past the cash-flow statement keep their own cleaned cash |
| Recompute.CashPropagation | public/js/dashboard.js:769-779 | the same, with the net flow taken from the recomputed cash-flow statement |
| Recompute.PropagatedCashTotal | public/js/dashboard.js:769-779 | propagated cash at row i is the first row's cash plus the flows of rows 1..i |
| Recompute.CashCarriedForward | public/js/dashboard.js:769-779 | that total, stated on the recomputed cash-flow rows |
| Recompute.RecomputeKeepsRawColumns | public/js/dashboard.js:705-831 | the recompute writes only its own columns (and cash, when propagating); every other column keeps its cell |
| Recompute.RecomputeAfterEnhance | public/js/dashboard.js:685-831 | running the enhancement pass before the recompute changes nothing in the result |
| Recompute.EditSurvives | public/js/dashboard.js:673-831 | an edit of a column the recompute does not write is still there, sanitised, after the save |
| Recompute.EditOfDerivedColumnLost | public/js/dashboard.js:673-831 | an edit of a column the recompute writes (such as the editable `Cash_From_Operations` or `Equity`) is overwritten: the save equals recomputing the unedited data |
| Recompute.MidCashEditLost | public/js/dashboard.js:767-779 | an edit of the cash of a later balance row, when a cash-flow row of that index exists, is lost to the carried-forward cash |
| DashboardMetrics.CollectChanges | public/js/dashboard.js:834-840 | the loop collects exactly the absolute month-on-month revenue changes |
| DashboardMetrics.NarrativeMetrics | public/js/dashboard.js:833-855 | the figures are revenue volatility, trend, the latest row's current ratio and debt to equity, and the average and last net income |
| DashboardMetrics.MeanMeaning | public/js/dashboard.js:842 | the mean times the count is the total, and the mean of non-negative values is non-negative |
| DashboardMetrics.RevenueVolatilityMeaning | public/js/dashboard.js:833-842 | volatility is non-negative, 0 for fewer than two months, and otherwise the mean of the absolute changes |
| DashboardMetrics.AbsGrowthMeaning | public/js/dashboard.js:838-839 | each absolute change is non-negative, 0 after a zero, and otherwise the change in percent of the previous value |
| DashboardMetrics.RevenueTrendMeaning | public/js/dashboard.js:843 | 0 for fewer than two months; otherwise the first-to-last change in percent of the first value (or of 1), with the sign of the change |
| DashboardMetrics.CurrentRatioMeaning | public/js/dashboard.js:846-849 | current assets over current liabilities, or over payables when those read 0, or 0 when both do; 0 without balance rows |
| DashboardMetrics.DebtToEquityMeaning | public/js/dashboard.js:850 | total debt over equity; total debt itself when equity is falsy; non-finite for equity written "0" |
| DashboardMetrics.NetIncomeFigures | public/js/dashboard.js:853-855 | the net-income average and last value equal the engine's `average` and `latest` of the column |
| DashboardMetrics.TotalOfColumn | public/js/dashboard.js:853-854 | the reduce over the net-income list is the engine's column sum |
| DashboardText.FormatCompanyNameMeaning | public/js/dashboard.js:318-323 | the name keeps the folder name's length; each `_` becomes a space and each word's first letter is upper-cased; nothing else changes |
| DashboardText.FormatOneWord | public/js/dashboard.js:318-323 | a folder name without `_` is only capitalised |
| DashboardText.FormatFirstWord | public/js/dashboard.js:318-323 | `a_b` formats as capitalised `a`, a space, and the formatted `b` |
| DashboardText.NonEmptyMeaning | public/js/dashboard.js:362 | `filter(Boolean)` keeps exactly the non-empty lines, in order |
| DashboardText.Headers | public/js/dashboard.js:363 | one trimmed header per comma-separated field |
| DashboardText.ParseLines | public/js/dashboard.js:362-370 | one row per line after the header line |
| DashboardText.ParseCsvTextMeaning | public/js/dashboard.js:358-370 | reading fails exactly when the text has no non-empty line; otherwise one row per non-empty line after the header |
| DashboardText.ParsedRowKeys | public/js/dashboard.js:366-367 | every row has exactly the headers as keys |
| DashboardText.ParsedCell | public/js/dashboard.js:367 | the cell under the last occurrence of a header is the trimmed value at that position, or missing when the line is short |
| IntelligenceService.FinancialIntelligenceService.constructor | services/intelligence.service.js:8-11 | a new service has no financial context |
| IntelligenceService.FinancialIntelligenceService.SetFinancialContext | services/intelligence.service.js:16-23 | the context holds the company and the normalised statements |
| IntelligenceService.FinancialIntelligenceService.CalculateMetrics | services/intelligence.service.js:28-59 | no metrics (`{}`) exactly without a context; otherwise the metrics of the context's statements |
| IntelligenceService.FinancialIntelligenceService.AnalyzeBusiness | services/intelligence.service.js:89-141 | five lines in the order profitability, liquidity, leverage, returns, cash generation; with a context each line is the tier of the context's metrics, the last one comparing operating cash flow with net income; the worst of each without a context |
| IntelligenceService.Analysis | services/intelligence.service.js:89-141 | always exactly five lines, one per area, in order |
| IntelligenceService.ProfitabilityTiers | services/intelligence.service.js:94-102 | excellent above 20, good above 10, moderate above 0, negative otherwise (each an if-and-only-if) |
| IntelligenceService.LiquidityTiers | services/intelligence.service.js:105-111 | strong above 1.5, adequate above 1, concern otherwise |
| IntelligenceService.LeverageTiers | services/intelligence.service.js:114-120 | conservative below 1, moderate below 2, high otherwise |
| IntelligenceService.ReturnsTiers | services/intelligence.service.js:123-129 | strong above 15, good above 10, lower otherwise |
| IntelligenceService.CashGenerationTiers | services/intelligence.service.js:132-138 | strong when operating cash exceeds net income, caution when it is positive but not above, concern otherwise |
| IntelligenceService.MetricsGuards | services/intelligence.service.js:50-56 | each ratio is 0 when its base is not positive; otherwise it is within half a cent of the quotient |
| IntelligenceService.CurrentRatioUnguarded | services/intelligence.service.js:55 | only the assets are guarded: zero liabilities give Infinity, missing liabilities NaN |
| IntelligenceService.MetricsReadLastRows | services/intelligence.service.js:32-35 | the metrics depend only on the last row of each statement |
| IntelligenceService.EmptyStatementsReadZero | services/intelligence.service.js:32-47 | an empty statement reads as `{}`, so its figures are 0 |
| FinancialIntelligence.MarginSeriesMeaning | services/financial.intelligence.js:177-199 | each margin is 0 for zero revenue; otherwise the margin times revenue is a hundred times the column |
| FinancialIntelligence.RoicSeries | services/financial.intelligence.js:201-211 | one entry per period both statements have |
| FinancialIntelligence.RoicMeaning | services/financial.intelligence.js:201-211 | 0 for zero invested capital; otherwise the entry times the capital is 75 times operating income (a 25% tax rate, in percent) |
| FinancialIntelligence.RoeSeriesAsWritten | services/financial.intelligence.js:213-220 | one entry per period both statements have, as the code computes it |
| FinancialIntelligence.RoeEquityAsWrittenMeaning | services/financial.intelligence.js:217 | the equity the code divides by is total assets, or minus total liabilities when assets read 0 |
| FinancialIntelligence.RoeSeries | services/financial.intelligence.js:213-220 | return on equity with equity taken as assets less liabilities |
| FinancialIntelligence.RoeMeaning | services/financial.intelligence.js:213-220 | 0 for zero equity; otherwise ROE times equity is a hundred times net income |
| FinancialIntelligence.RoeAsWrittenDiffers | services/financial.intelligence.js:217 | assets 100, liabilities 60 and net income 10 give 10 as written, where 25 is intended |
| FinancialIntelligence.DebtToEquitySeriesAsWritten | services/financial.intelligence.js:222-228 | one entry per balance row, as the code computes it |
| FinancialIntelligence.DebtToEquityAsWrittenMeaning | services/financial.intelligence.js:225 | the equity the code divides by is total assets, or minus total liabilities when assets read 0 |
| FinancialIntelligence.DebtToEquitySeries | services/financial.intelligence.js:222-228 | debt to equity with equity taken as assets less liabilities |
| FinancialIntelligence.DebtToEquityMeaning | services/financial.intelligence.js:222-228 | 0 for zero equity; otherwise the ratio times equity is total liabilities |
| FinancialIntelligence.DebtToEquityAsWrittenDiffers | services/financial.intelligence.js:225 | assets 100 and liabilities 60 give 0.6 as written, where 1.5 is intended |
| FinancialIntelligence.Shown | services/financial.intelligence.js:108-109 | `${cell \|\| 'N/A'}`: a falsy cell shows as `N/A`, text as itself |
| FinancialIntelligence.IncomePieces | services/financial.intelligence.js:106-110 | the income section is present exactly when the statement has rows |
| FinancialIntelligence.BalancePieces | services/financial.intelligence.js:112-116 | the balance section is present exactly when the statement has rows |
| FinancialIntelligence.CashFlowPieces | services/financial.intelligence.js:118-121 | the cash-flow section is present exactly when the statement has rows |
| FinancialIntelligence.ConcatAppend | services/financial.intelligence.js:99-125 | appending a piece to the summary appends its text |
| FinancialIntelligence.BuildFinancialContext | services/financial.intelligence.js:99-125 | the summary is the header, the sections of the non-empty statements in order, and the footer, concatenated |
| FinancialIntelligence.ContextLayout | services/financial.intelligence.js:99-125 | the summary starts with the header and ends with the footer; each non-empty statement adds its lines, the income section opening with its period count |
| FinancialIntelligence.FieldLineShown | services/financial.intelligence.js:108-120 | a field line shows `N/A` for a falsy cell and the text otherwise |
| FinancialIntelligence.LatestOrNull | services/financial.intelligence.js:167 | `result[result.length - 1] \|\| null`: none for an empty or zero last value, else the last value |
| FinancialIntelligence.CalculateMetric | services/financial.intelligence.js:131-174 | an unknown metric, matched case-insensitively, gives the error `Unknown metric: <name>`; a known one gives its series as the code computes it (ROE and debt to equity with the equity as written at lines 217 and 225), the company, the period count and the latest value |
| FinancialIntelligence.AsWrittenAgreesWithoutLiabilities | services/financial.intelligence.js:213-228 | in a period without liabilities the as-written ROE and debt to equity equal the intended ones |

## Left out

- Rendering, charts, the DOM, file pickers, chat and PDF export are left out. The calls `renderAll()` and `runAnalysis()` in `saveEditedCell` are user-interface effects and are not modelled.
- After the recompute, `saveEditedCell` goes on to return a narrative-metrics object that reads `avgGrossMargin`, which that scope never defines. The JavaScript would throw there. `computeNarrativeMetrics` and `ensureSectionExists` are not part of this model. The narrative metrics are `NarrativeMetrics`, which takes the average gross margin as an input.
- `saveEditedCell` falls back to an empty dataset when `window.financeData` is unset. The model always holds a dataset object, so `enhanceDatasets(null)`, which does nothing, never arises.
- `Number(x || 0)` reads NaN, as from non-numeric text, as 0, the way `safeNumber` does. Where the source would carry NaN into a sum (the enhancement pass, the DOL series numerators), the model has 0.
- The number readers cover decimal numerals with an optional sign and point, between white space. Exponent notation, hexadecimal, `Infinity` and IEEE rounding are not modelled: numbers are exact reals.
- Case mapping (`toUpperCase`, `toLowerCase`) covers ASCII letters only.
- `toFixed(2)` gives a string that the service later compares with numbers. The model keeps the rounded number. Rounding is half away from zero on the exact value, not the binary double's.
- FinancialIntelligence.Shown: a numeric cell is shown by its integer part. Server rows come from the CSV reader as text, and text is shown as itself.
- The monthly discount rate `(1.12)^(1/12) - 1` is irrational. `FinanceEngine.MonthlyRate` is a decimal constant standing in for it. `dcfValue` (line 73) is computed by the engine and never used, so it is not modelled.
- Reading files (`loadFinancialData`), the `FileReader` promise of `parseCSV` (a text without lines is `None` here, where JavaScript would throw), the LLM calls, `generateBusinessContext` and the module-level service singleton are I/O or foreign calls and are left out. The `try`/`catch` in `calculateMetric` is also left out: the model raises nothing.
- Month lookups key on the cell itself. JavaScript coerces an object key to a string, so the number 1 and the text "1" would share a key there but not here. The same holds for duplicate headers in `parseCSV`.
- `cashByMonth` and `balanceByMonth` in `saveEditedCell` are built and never read, so they are not modelled.

## Findings

| source | as written | input that shows it | evidently intended | confidence | as-written member | corrected member |
|---|---|---|---|---|---|---|
| services/financial.intelligence.js:217 | `parseFloat(Total_Assets) \|\| 0 - parseFloat(Total_Liabilities) \|\| 0` parses as `assets \|\| (0 - liabilities) \|\| 0`, so equity is total assets (or minus liabilities when assets read 0) | total assets 100, total liabilities 60, net income 10: ROE 10 | equity is assets less liabilities, giving ROE 25 | not executed | FinancialIntelligence.RoeSeriesAsWritten (shown by FinancialIntelligence.RoeAsWrittenDiffers) | FinancialIntelligence.RoeSeries (proved by FinancialIntelligence.RoeMeaning) |
| services/financial.intelligence.js:225 | `parseFloat(Total_Assets) \|\| 0 - liabilities` parses as `assets \|\| (0 - liabilities)`, so debt to equity divides by total assets | total assets 100, total liabilities 60: D/E 0.6 | liabilities over assets less liabilities: D/E 1.5 | not executed | FinancialIntelligence.DebtToEquitySeriesAsWritten (shown by FinancialIntelligence.DebtToEquityAsWrittenDiffers) | FinancialIntelligence.DebtToEquitySeries (proved by FinancialIntelligence.DebtToEquityMeaning) |
