# Financial ratio engine and period selector, in Dafny

This project models the two computational pieces of a financial reporting tool
that reads a company's balance sheet, income statement and cash-flow statement
(each a table whose rows are line items and whose columns are reporting dates):

- **The period selector** `get_two_closest_columns`. Given a statement table
  and a reference date, it picks the latest reporting column on or before the
  reference date. It then picks the earlier column whose day distance to the
  same day one year before that column is smallest. It returns nothing for an
  empty table, and nothing when no column qualifies. It fails (Python's
  `ValueError`) when the latest column is a February 29 whose previous year has
  none.
- **The ratio engine** `calculate_ratios` and its primitives `safe_divide`,
  `average` and `extract`. It reads named line items at the current and the
  previous date, then derives five ordered groups of ratios: Liquidity,
  Profitability, Efficiency, Leverage, and Return & Valuation. Any missing
  input propagates as `None`.

Both pieces are pure, so the model is datatypes, functions and lemmas.

- Modules:
  - `Wrappers`: `Option` and `Result`.
  - `Dates`: calendar dates as Python's `datetime` compares, subtracts and re-years them.
  - `Tables`: a statement table as a row-label set, a column-date sequence and a map of cells, each a number or NaN.
  - `Rounding`: Python's `round` on exact reals.
  - `Utils`: the selector.
  - `SelectorProperties` and `SelectorExamples`: what the selector promises.
  - `RatioCalculator`: the ratio engine.
  - `RatioProperties` and `RatioExamples`: what the ratio engine promises.
- Python's truthiness is modelled as written, by `RatioCalculator.Truthy`: `None` and zero are both false. This matters where the source writes:
  - `a and b`, in the quick ratio;
  - `a or b`, for operating cash flow and the cash ratio's numerator;
  - `all([...])`, in the cash conversion cycle.
- `round(x, k)` is modelled concretely on reals: the nearest multiple of 10^-k, with a tie going to the even multiple. The property lemmas use its half-unit bound: the result is within half a unit of the last place. The zero case of the cash ratio (`RatioProperties.CashRatioOfItems`) and the worked examples in `RatioExamples` use its exact value, which agrees with Python's `round` on those inputs.

## Model

| member | source | states |
|---|---|---|
| Dates.OrdinalOrder | src/utils.py:28 | Python's field-by-field date comparison (`<=`, `<`) agrees with the order of the day numbers |
| Dates.AtOrBefore | src/utils.py:28 | `d <= reference_date`: Python compares dates field by field; it agrees with the day-number order by `Dates.OrdinalOrder` |
| Dates.Before | src/utils.py:35 | `d < latest`: the strict field-by-field comparison; it agrees with the day-number order by `Dates.OrdinalOrder` |
| Dates.Ordinal | src/utils.py:36 | `date.toordinal()`, the day number Python subtracts in `(d - one_year_back).days`; its order is the date order by `Dates.OrdinalOrder`, and differences of it are `Dates.DaysBetween` |
| Dates.DaysBetween | src/utils.py:36 | `(a - b).days` is negative exactly when `a` is before `b`, and zero exactly when they are the same date |
| Dates.ReplaceYear | src/utils.py:33 | `replace(year=y)` fails exactly when `y` is outside 1..9999 or the date is February 29 and `y` is not a leap year; otherwise it keeps month and day and sets the year |
| Dates.OneYearSpan | src/utils.py:33 | the same day one year back lies 365 days back, or 366 days when a February 29 falls in between |
| Utils.Insert | src/utils.py:27 | inserting keeps exactly the old dates plus the new one |
| Utils.InsertKeepsDescending | src/utils.py:27 | inserting into a descending sequence keeps it descending |
| Utils.SortDescending | src/utils.py:27 | `sorted(..., reverse=True)` is a permutation of the columns |
| Utils.SortDescendingSorts | src/utils.py:27 | `sorted(..., reverse=True)` is ordered most recent first |
| Utils.FirstAtOrBefore | src/utils.py:28 | `next(...)` gives nothing exactly when no date is on or before the reference; what it gives is such a date |
| Utils.FirstAtOrBeforeIsGreatest | src/utils.py:28 | over descending dates, the first date on or before the reference is the greatest such date |
| Utils.EarlierMembers | src/utils.py:35 | the generator keeps exactly the dates strictly before `latest` |
| Utils.EarlierDescending | src/utils.py:35 | the generator keeps the descending order |
| Utils.Earlier | src/utils.py:35 | the generator `(d for d in dates if d < latest)`; what it keeps is stated by `Utils.EarlierMembers`, its order by `Utils.EarlierDescending` |
| Utils.Distance | src/utils.py:36 | the key `abs((d - one_year_back).days)`; its minimum is stated by `Utils.NearestIsNearest` and `SelectorProperties.PicksPrevious` |
| Utils.NearestFrom | src/utils.py:34-38 | the scan of `min` after keeping `best` ends on `best` or on one of the remaining candidates; nearness and tie-breaking are `Utils.NearestFromIsNearest` and `Utils.NearestFromPrefersRecent` |
| Utils.NearestFromIsNearest | src/utils.py:34-38 | the candidate `min` keeps is no farther from the target than any candidate seen |
| Utils.NearestFromPrefersRecent | src/utils.py:34-38 | of equally near candidates, the first met (in descending input, the most recent) stays |
| Utils.Nearest | src/utils.py:34-38 | `min(..., default=None)` gives nothing exactly when there are no candidates, and otherwise one of them |
| Utils.NearestIsNearest | src/utils.py:34-38 | no candidate is strictly nearer to the target than the one `min` returns |
| Utils.NearestPrefersRecent | src/utils.py:34-38 | over descending candidates, every candidate as near as the result is no later than it |
| Tables.IsEmpty | src/utils.py:24 | `df.empty`, no row labels or no column labels; its effect on the selection is stated by `SelectorProperties.PicksNothing` |
| Utils.GetTwoClosestColumns | src/utils.py:18-40 | `get_two_closest_columns`; its result is stated by `SelectorProperties.PicksNothing`, `SelectorProperties.PicksLatest`, `SelectorProperties.PicksPrevious` and `SelectorProperties.PicksNearestEarlier` |
| Utils.PickLatest | src/utils.py:30-33 | the `not latest` return and the year-back step; stated by `SelectorProperties.PicksNothing` and `SelectorProperties.PickLatestFails` |
| Utils.PickPrevious | src/utils.py:33-40 | the `replace` failure and the `min` over earlier columns; stated by `SelectorProperties.PickLatestFails` and `SelectorProperties.PicksPrevious` |
| SelectorProperties.PicksNothing | src/utils.py:24-31 | an empty table gives `(None, None)`; no latest date exactly when the table is empty or no column is on or before the reference; no previous date without a latest one |
| SelectorProperties.PicksLatest | src/utils.py:27-33 | the latest date is the greatest column on or before the reference; the selection fails exactly when that column's day does not exist a year earlier |
| SelectorProperties.PickLatestFails | src/utils.py:33 | once `latest` is known, the call fails exactly when `replace(year=latest.year - 1)` raises, and the failure reports `latest` |
| SelectorProperties.PicksPrevious | src/utils.py:33-40 | no previous date exactly when no column is earlier than the latest; otherwise it is an earlier column nearest to the year-back day, and the most recent of the equally near ones |
| SelectorProperties.LatestAmong | src/utils.py:27-28 | over the sorted columns, `next` finds the latest column on or before the reference date, or nothing when there is none |
| SelectorProperties.NearestEarlierAmong | src/utils.py:34-38 | over the sorted columns, `min` finds the nearest earlier column, most recent on ties, or nothing when no column is earlier |
| SelectorProperties.NearestEarlierIsUnique | src/utils.py:34-38 | at most one column is nearest and most recent among the equally near |
| SelectorProperties.PicksGreatestQualifying | src/utils.py:27-33 | the greatest column on or before the reference is returned as the latest date when its day exists a year earlier |
| SelectorProperties.PicksExactYearBack | src/utils.py:33-40 | a column exactly one year before the latest is returned as the previous date |
| SelectorProperties.PicksNearestEarlier | src/utils.py:18-40 | the result is fully determined: the latest qualifying column and the nearest, most recent earlier column |
| SelectorExamples.PicksYearApart | src/utils.py:18-40 | year-ends 2021, 2022 and 2023 with reference 2023-07-01 give (2023-06-30, 2022-06-30) |
| SelectorExamples.PicksOnlyColumn | src/utils.py:34-40 | a single qualifying column gives `(latest, None)` |
| SelectorExamples.PicksNearestNotMostRecent | src/utils.py:34-38 | distance decides, not recency: 2022-01-01 is chosen over 2022-06-30 against 2021-12-31 |
| SelectorExamples.PicksMoreRecentOnTie | src/utils.py:34-38 | two columns one day either side of the target: the more recent one wins |
| SelectorExamples.FailsOnLeapDay | src/utils.py:33 | a latest column dated 2024-02-29 makes the selection fail |
| Rounding.RoundHalfEven | src/ratio_calculator.py:10 | the integer rounded to is within one half of the value, and even on a tie |
| Rounding.RoundScaledIsNear | src/ratio_calculator.py:10 | rounding to 1/scale moves the value by at most half a unit of 1/scale |
| Rounding.Round | src/ratio_calculator.py:10 | `round(x, k)`, called by `safe_divide` here and on the cycle at :80: the multiple of 10^-k nearest to `x`, the even one on a tie; stated by `Rounding.RoundHalfEven` and `Rounding.RoundScaledIsNear` |
| RatioCalculator.Truthy | src/ratio_calculator.py:58 | Python's truthiness on an optional number (`None` and zero are false), as used by `or` at :58 and :78, `and` at :77 and `all` at :72; stated by `RatioProperties.OperatingCashFlowFallback`, `RatioProperties.QuickRatioPresence`, `RatioProperties.CashRatioPresence` and `RatioProperties.CashConversionCycleAllOrNothing` |
| RatioCalculator.SafeDivide | src/ratio_calculator.py:7-10 | no quotient exactly when the numerator or the denominator is missing or the denominator is zero |
| RatioCalculator.SafeDivideIsNear | src/ratio_calculator.py:10 | a quotient returned is within 0.00005 of the exact quotient |
| RatioCalculator.Average | src/ratio_calculator.py:12-15 | nothing exactly when either operand is missing, with no fall-back to the other; otherwise the midpoint |
| RatioCalculator.Extract | src/ratio_calculator.py:17-21 | nothing exactly when the row label or the column date is absent or the cell is NaN; otherwise the cell's number |
| RatioCalculator.Or | src/ratio_calculator.py:58 | `a or b` is one of its operands, truthy exactly when either is, and `None` exactly when `a` is falsy and `b` is `None` |
| RatioCalculator.OrZero | src/ratio_calculator.py:78 | `x or 0` is the value when present and zero when missing |
| RatioCalculator.Minus | src/ratio_calculator.py:61 | the difference exists exactly when both operands do |
| RatioCalculator.Plus | src/ratio_calculator.py:105 | the sum exists exactly when both operands do |
| RatioCalculator.MinusIfTruthy | src/ratio_calculator.py:77 | `a - b if a and b else None` exists exactly when both are present and nonzero |
| RatioCalculator.ExtractLineItems | src/ratio_calculator.py:28-62 | the extraction block: each line item is `extract` of its row at the current or the previous date; stated by `RatioProperties.WorkingCapitalNeedsBoth`, `RatioProperties.OperatingCashFlowFallback`, `RatioProperties.AverageNeedsBothDates` and `RatioProperties.EarningsPerShareAreRaw` |
| RatioCalculator.DaysOutstanding | src/ratio_calculator.py:69-71 | days outstanding are missing exactly when the turnover is missing or zero |
| RatioCalculator.ConversionCycle | src/ratio_calculator.py:72 | the cycle exists exactly when DSO, DIO and DPO are all present and nonzero, and is then `DSO + DIO - DPO` |
| RatioCalculator.ComputeCycle | src/ratio_calculator.py:65-72 | each turnover is missing exactly when its numerator or either period's balance is missing, or the two balances sum to zero; each days figure is missing exactly when its turnover is missing or zero; the cycle needs all three days figures truthy |
| RatioCalculator.RoundCycle | src/ratio_calculator.py:80 | the rounded cycle is within 0.005 of the cycle |
| RatioCalculator.BuildLiquidity | src/ratio_calculator.py:75-81 | when each liquidity ratio is missing: the current, quick, cash and operating-cash-flow ratios, and the rounded cycle |
| RatioCalculator.BuildProfitability | src/ratio_calculator.py:82-90 | when each profitability ratio is missing, including ROCE without both total assets and current liabilities |
| RatioCalculator.BuildEfficiency | src/ratio_calculator.py:91-98 | the three turnovers are the cycle's own; the other three are missing exactly when revenue or their denominator is missing or zero |
| RatioCalculator.BuildLeverage | src/ratio_calculator.py:99-106 | when each leverage ratio is missing, including the capitalization ratio without both long-term debt and equity |
| RatioCalculator.BuildReturnValuation | src/ratio_calculator.py:107-115 | when each return ratio is missing; the two EPS entries are the extracted values |
| RatioCalculator.CalculateRatios | src/ratio_calculator.py:23-116 | `calculate_ratios`: the five groups built from the extracted line items and the cycle; stated group by group by the `Build…` contracts and, on the three tables, by the `RatioProperties` lemmas |
| RatioCalculator.AsDict | src/ratio_calculator.py:74-116 | the returned dictionary literal; its group names, ratio names and order are stated by `RatioProperties.ReportLayout` |
| RatioProperties.QuickRatioPresence | src/ratio_calculator.py:77 | the quick ratio exists exactly when current assets, inventory and current liabilities are all present and nonzero |
| RatioProperties.CashRatioPresence | src/ratio_calculator.py:78 | the cash ratio exists exactly when current liabilities are present and nonzero; a missing cash line counts as zero |
| RatioProperties.CashRatioOfItems | src/ratio_calculator.py:78 | the same, stated on the extracted line items |
| RatioProperties.CashConversionCycleAllOrNothing | src/ratio_calculator.py:69-80 | the cycle exists exactly when DSO, DIO and DPO are all truthy, and is then within 0.005 of `DSO + DIO - DPO`, never a partial sum |
| RatioProperties.DaysOutstandingIsNear | src/ratio_calculator.py:69-71 | days outstanding exist exactly when the turnover is truthy, and are then within 0.00005 of 365 divided by the turnover |
| RatioProperties.WorkingCapitalNeedsBoth | src/ratio_calculator.py:61 | working capital is missing exactly when current assets or current liabilities are; the working capital turnover is then missing |
| RatioProperties.CapitalEmployedNeedsBoth | src/ratio_calculator.py:89 | without total assets or current liabilities, ROCE is missing |
| RatioProperties.CapitalizationNeedsBoth | src/ratio_calculator.py:105 | without long-term debt or equity, the capitalization ratio is missing |
| RatioProperties.AverageNeedsBothDates | src/ratio_calculator.py:12-15 | a line missing at the previous date removes every ratio averaged over it: ROA, asset turnover, CROA, ROE, the three turnovers and the cycle |
| RatioProperties.OperatingCashFlowFallback | src/ratio_calculator.py:58 | the operating cash flow ratio uses the primary line when it is present and nonzero, and the continuing-operations line otherwise |
| RatioProperties.EarningsPerShareAreRaw | src/ratio_calculator.py:111-112 | both EPS entries are the income statement's values, undivided |
| RatioProperties.ReportLayout | src/ratio_calculator.py:74-116 | the result has the five groups in order, each with its fixed ratio names in order |
| RatioExamples.SafeDivideCases | src/ratio_calculator.py:7-10 | 10/4 is 2.5, 1/3 is 0.3333, and a zero denominator or a missing numerator gives nothing |
| RatioExamples.LiquidityFromBalanceSheet | src/ratio_calculator.py:76-77 | current assets 150, current liabilities 100 and inventory 40 give a current ratio of 1.5 and a quick ratio of 1.1 |
| RatioExamples.QuickRatioZeroInventory | src/ratio_calculator.py:77 | a zero inventory leaves the quick ratio missing while the current ratio is 1.5 |
| RatioExamples.ExtractNaN | src/ratio_calculator.py:17-21 | a NaN cell and an absent row both read as missing |

## Left out

- Floating point: values are exact reals. IEEE rounding of `/` and `round` applied to binary doubles (where, for example, `round(2.675, 2)` is 2.67) are not modelled. Rounding is exact-decimal half-even.
- Time of day: every column label and reference date is taken to be at midnight, so `(d - one_year_back).days` is a whole difference of day numbers.
- `get_two_closest_columns`'s `not hasattr(df, "columns")` test is always false for a data frame and is not modelled. `not latest` is modelled as "no column qualifies", because a date object is always truthy.
- Duplicate column labels: a table has distinct column dates, as `df.at[item, date]` assumes. The selector itself accepts any column sequence.
- Duplicate row labels: the row labels of a table are a set, so a table with two rows of the same line-item name cannot be represented. On such a table `df.at[item, date]` returns a Series rather than a number, and `pd.isna(value)` in `extract` then raises `ValueError`; that failure is not modelled.
- `extract` on a cell that is neither a number nor NaN (where `float(value)` would raise) is not modelled: a cell is a number or NaN.
- `calculate_ratios` with a missing `"balance_sheet"`, `"income_statement"` or `"cash_flow"` key (a `KeyError`): the three tables are fields of `Financials`.
- `calculate_ratios` with `previous_date` equal to `None`: its only caller stops before calling it without both dates, so the previous date is a `Date`.
- `format_currency` and `print_statement_by_date` (string formatting and printing), the data loader, the report and PDF builders and the command-line entry point (network access, file output, user input).
- The ratio engine's result is modelled as the typed `RatioReport`, with `AsDict` giving the dictionary's keys and order. Python dictionary identity and mutation are not modelled.
