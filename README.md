# Solar ROI projection — a verified Dafny model

This project models the projection engine of a residential solar return-on-investment
calculator. The engine is the body of `useFinancialAnalysis`. It takes a flat parameter
record (system cost, year-1 production, tariff, tax rates, escalation rates, degradation,
grid charges, lifetime). It then walks the years 1..systemLifetime, and for each year it:

- degrades production;
- escalates the tariff, the grid charges, maintenance and the fixed fee;
- adds taxes;
- appends one record per year;
- keeps running totals;
- latches the first year in which the cumulative net position reaches zero (payback).

After the loop it derives ROI and LCOE.

Files:

- `types.dfy` (module `Types`): the parameter record `InputData`, the per-year record
  `YearlyData`, the result `AnalysisResults`, and `Option`.
- `financial_analysis.dfy` (module `FinancialAnalysis`) holds:
  - the constant sales tax of 12 %;
  - `Pow` for `Math.pow` with a natural exponent;
  - one pure function per per-year quantity of the loop body: `DegradedProduction`,
    `CurrentKwhPrice`, `AnnualSavings`, `AnnualMaintenanceAndFixed`,
    `AnnualGridEnergyCostWithoutTax`, `AnnualGridEnergyCost` and `AnnualCosts`;
  - the loop as a fold: `Initial`, `Step` and `Run(inp, n)`, the loop state after n years;
  - the summary: `Roi`, `Lcoe`, `Summarize` and `Analysis`;
  - the imperative loop `Analyze`. It keeps the source's accumulators as locals, appends
    to a `seq` where the source pushes to an array, and is proved to return exactly
    `Analysis(inp)`.
- `analysis_properties.dfy` (module `AnalysisProperties`) holds the lemmas about the fold
  and the summary. It also holds reference sums over the columns of a series:
  `NetSavingsSum`, `AnnualCostsSum`, `ProductionSum`, `MaintenanceAndFixedSum` and
  `GridEnergyCostSum`.

Numbers are Dafny `real`s (exact rationals), and `systemLifetime` is a `nat`.

`roi` is an `Option<real>`. It is `None` exactly when `systemCost` is 0, which is where
the source divides by zero and yields `NaN` or `±Infinity`. Every other value is as in the
source, so no precondition restricts the parameters.

## Model

| member | source | states |
|---|---|---|
| `FinancialAnalysis.Analyze` | hooks/useFinancialAnalysis.ts:6-61 | the loop, with its accumulators, per-year push and payback latch, followed by the summary, returns exactly the fold-based projection `Analysis(inp)`; its invariant is that the locals equal `Run(inp, year - 1)` |
| `FinancialAnalysis.Pow` | hooks/useFinancialAnalysis.ts:16 | the growth factor raised to `year - 1` is 1 for year 1 (exponent 0); it is non-negative for a non-negative base; it is 1 for a base of 1 |
| `FinancialAnalysis.Roi` | hooks/useFinancialAnalysis.ts:58 | ROI is defined exactly when systemCost ≠ 0, and then roi · systemCost = 100 · totalNetSavings |
| `FinancialAnalysis.Lcoe` | hooks/useFinancialAnalysis.ts:59 | with positive lifetime production, lcoe · production = totalCost; otherwise lcoe is exactly 0 |
| `AnalysisProperties.SeriesShape` | hooks/useFinancialAnalysis.ts:15-49 | after n years there are exactly n records; record i has year i+1 and holds that year's annualSavings and annualCosts, with netSavings = annualSavings − annualCosts |
| `AnalysisProperties.SeriesAppendOnly` | hooks/useFinancialAnalysis.ts:42-49 | records are only appended: the series after n years is a prefix of the series after any m ≥ n years |
| `AnalysisProperties.RecordCarriesRunningTotals` | hooks/useFinancialAnalysis.ts:39-48 | record i of any run carries the cumulative savings and costs that the loop holds after year i+1 |
| `AnalysisProperties.RunningTotals` | hooks/useFinancialAnalysis.ts:7-40 | after n years the running net position is −systemCost plus the sum of the netSavings column, and the running cost is systemCost plus the sum of the annualCosts column |
| `AnalysisProperties.CumulativeColumns` | hooks/useFinancialAnalysis.ts:7-48 | each record's cumulativeSavings is −systemCost + Σ netSavings up to and including that record, and its cumulativeCosts is systemCost + Σ annualCosts up to and including it |
| `AnalysisProperties.CostReconciliation` | hooks/useFinancialAnalysis.ts:8-40 | the running cost always equals systemCost + totalMaintenanceAndFixedCharges + totalGridEnergyCost |
| `AnalysisProperties.ProductionTotal` | hooks/useFinancialAnalysis.ts:11-17 | the lifetime production total the loop keeps is the sum of every projected year's degraded production |
| `AnalysisProperties.BreakdownTotals` | hooks/useFinancialAnalysis.ts:12-34 | after n years, the maintenance-and-fixed total is the sum of every year's maintenance plus twelve fixed charges, and the grid total is the sum of every year's tax-inclusive grid energy cost |
| `AnalysisProperties.PaybackIsFirstCrossing` | hooks/useFinancialAnalysis.ts:51-53 | if payback after n years is p, then 1 ≤ p ≤ n, the net position after year p is ≥ 0, and it is < 0 after every earlier year; if payback is absent, it is < 0 after every year 1..n |
| `AnalysisProperties.PaybackStable` | hooks/useFinancialAnalysis.ts:51-53 | once set, the payback period never changes in later years |
| `AnalysisProperties.AnnualCostsNonNegative` | hooks/useFinancialAnalysis.ts:24-36 | with non-negative maintenance, fixed, power and distribution charges and grid energy, and with inflation and price increase ≥ −100 %, the maintenance-and-fixed cost, the grid cost and the total annual cost are each ≥ 0 |
| `AnalysisProperties.RunCostsNonDecreasing` | hooks/useFinancialAnalysis.ts:36-40 | under those domains, the running cost after k years is at most the running cost after m ≥ k years |
| `AnalysisProperties.CumulativeCostsNonDecreasing` | hooks/useFinancialAnalysis.ts:40-48 | under those domains, the cumulativeCosts column of the series never decreases |
| `AnalysisProperties.AnalysisCumulativeCostsNonDecreasing` | hooks/useFinancialAnalysis.ts:36-49 | under the cost domains, the cumulativeCosts column of the result series is non-decreasing across years |
| `AnalysisProperties.AnalysisSeries` | hooks/useFinancialAnalysis.ts:6-49 | the result series has exactly systemLifetime records with years 1..systemLifetime in order, each with its year's savings, costs and net savings; it is empty for a lifetime of 0 |
| `AnalysisProperties.AnalysisTotals` | hooks/useFinancialAnalysis.ts:7-57 | totalNetSavings is the last record's cumulativeSavings, or −systemCost for an empty series, and equals −systemCost + Σ netSavings; totalCost is the last cumulativeCosts, or systemCost, and equals systemCost + Σ annualCosts and also systemCost + the two cost totals |
| `AnalysisProperties.AnalysisBreakdown` | hooks/useFinancialAnalysis.ts:12-61 | the result's totalMaintenanceAndFixedCharges and totalGridEnergyCost are the lifetime sums of their own per-year terms, and totalCost = systemCost + those two sums |
| `AnalysisProperties.AnalysisPayback` | hooks/useFinancialAnalysis.ts:42-53 | read off the result series, payback year p means record p is the first with cumulativeSavings ≥ 0; an absent payback means every record's cumulativeSavings is < 0 |
| `AnalysisProperties.AnalysisMetrics` | hooks/useFinancialAnalysis.ts:56-59 | lcoe · Σ degradedProduction = totalCost when that sum is > 0, else lcoe = 0; roi is defined exactly when systemCost ≠ 0, and then roi · systemCost = 100 · totalNetSavings |
| `AnalysisProperties.FirstYearUnescalated` | hooks/useFinancialAnalysis.ts:16-36 | year 1 uses the parameters unescalated: production is annualProduction, savings are production · kwhPrice · (1.12 + municipal/100), and costs are maintenance + 12 · fixed + 12 · 1.12 · gridEnergy · (power + distribution) |
| `AnalysisProperties.TaxTreatment` | hooks/useFinancialAnalysis.ts:10-36 | savings are scaled by 1.12 + municipalTaxRate/100 and grid cost by 1.12 only, so changing the municipal tax rate never changes a year's costs |
| `AnalysisProperties.FlatYears` | hooks/useFinancialAnalysis.ts:16-36 | with zero degradation, inflation and price increase, every year's savings and costs equal year 1's |
| `AnalysisProperties.FirstRecord` | hooks/useFinancialAnalysis.ts:7-49 | for a lifetime ≥ 1, the first record is year 1 with cumulativeSavings = −systemCost + net savings of year 1 and cumulativeCosts = systemCost + costs of year 1 |
| `AnalysisProperties.DefaultsFirstYear` | App.tsx:10-39 | with the application's default parameters there are 15 records, and year 1 has annualSavings 5552.82, annualCosts 834.64, netSavings 4718.18 and cumulativeSavings −15281.82 |
| `AnalysisProperties.DefaultsPayback` | App.tsx:10-39 | with the application's default parameters the payback period is year 5 |
| `AnalysisProperties.AnnualSavingsMonotoneInPrice` | hooks/useFinancialAnalysis.ts:16-21 | with non-negative production, degradation ≤ 100 %, price increase ≥ −100 % and a non-negative municipal rate, a higher kwhPrice never lowers a year's savings |
| `AnalysisProperties.NetPositionMonotoneInPrice` | hooks/useFinancialAnalysis.ts:19-39 | under the same domains, a higher kwhPrice never lowers the running net position after any number of years |
| `AnalysisProperties.CostsIgnorePrice` | hooks/useFinancialAnalysis.ts:24-36 | a year's costs do not depend on kwhPrice |
| `AnalysisProperties.PriceMonotonicityNeedsEscalationBound` | hooks/useFinancialAnalysis.ts:19-21 | without the bound price increase ≥ −100 %, a dearer tariff can lower the net position: with no degradation, a −300 % price increase and two years, raising kwhPrice from 1.13 to 2.0 lowers it |
| `AnalysisProperties.TotalNetSavingsMonotoneInPrice` | hooks/useFinancialAnalysis.ts:56 | under the same domains, a higher kwhPrice never lowers totalNetSavings |

## Left out

- The React hook wrapper and `useMemo` memoisation (hooks/useFinancialAnalysis.ts:4-5,62-64) are caching and lifecycle concerns. `Analyze` is the memoised body.
- IEEE-754 floating point is not modelled. Rounding is absent because all arithmetic is exact over `real`. Division by a zero system cost yields `roi = None` where the source yields `NaN` or `±Infinity`.
- `Math.pow` is modelled only for the natural exponents `year - 1` that occur.
- A non-integer or negative `systemLifetime` is not represented, because the lifetime is a `nat`. For such a value the JavaScript loop runs max(0, ⌊lifetime⌋) times, so a negative lifetime behaves like lifetime 0, which the model covers.
- Analyze: the per-year quantities in the loop body are computed by calling the pure functions that mirror source lines 16-36 one by one, not by repeating their arithmetic inline.
- The presentation layer (components/Dashboard.tsx, components/InputPanel.tsx, components/YearlyBreakdownTable.tsx, App.tsx) is not part of this model. It holds the charts, the CSV export, the display-only first-year tax split and the estimated-bill view. The only use of App.tsx is its default parameters, which are used as a concrete scenario.
- utils/formatters.ts is not part of this model. It does locale currency formatting.
- The engine does no input validation. The domains under which costs are non-negative and savings are monotone in price appear as preconditions of those lemmas only, not of the engine.
