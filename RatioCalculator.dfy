/** The ratio engine: line items read from the three statement tables at two
    reporting dates, combined through primitives that let a missing value
    propagate, into five ordered groups of financial ratios. */
module RatioCalculator {
  import opened Wrappers
  import opened Dates
  import opened Tables
  import opened Rounding

  /** A number as Python's `bool()` sees it: `None` and zero are false. */
  predicate Truthy(x: Option<real>) {
    x.Some? && x.value != 0.0
  }

  /** `safe_divide(numerator, denominator)`: no quotient without both operands
      or when the denominator is zero; otherwise the quotient to 4 places. */
  function SafeDivide(numerator: Option<real>, denominator: Option<real>): (r: Option<real>)
    ensures r.None? <==> numerator.None? || !Truthy(denominator)
  {
    if numerator.None? || denominator.None? || denominator.value == 0.0 then None
    else Some(Round(numerator.value / denominator.value, 4))
  }

  /** A quotient that `safe_divide` returns is within half a unit of the
      fourth decimal place of the exact one. */
  lemma SafeDivideIsNear(numerator: Option<real>, denominator: Option<real>)
    ensures var r := SafeDivide(numerator, denominator);
      r.Some? ==>
        var q := numerator.value / denominator.value;
        -0.00005 <= r.value - q <= 0.00005
  {
    var r := SafeDivide(numerator, denominator);
    if r.Some? {
      var q := numerator.value / denominator.value;
      assert Scale(4) == 10000.0;
      RoundScaledIsNear(q, Scale(4));
    }
  }

  /** `average(a, b)`: the midpoint, and only when both values are there. */
  function Average(a: Option<real>, b: Option<real>): (r: Option<real>)
    ensures r.None? <==> a.None? || b.None?
    ensures r.Some? ==> r.value - a.value == b.value - r.value
  {
    if a.None? || b.None? then None else Some((a.value + b.value) / 2.0)
  }

  /** `extract(df, item, date)`: the cell at row `item` and column `date`, or
      nothing when the row or the column is absent or the cell is NaN. */
  function Extract(t: Table, item: string, date: Date): (r: Option<real>)
    ensures r.None? <==> item !in t.index || date !in t.columns || t.data[item][date].NaN?
    ensures r.Some? ==> item in t.index && date in t.columns && t.data[item][date] == Num(r.value)
  {
    if item !in t.index || date !in t.columns then None
    else
      match t.data[item][date]
      case NaN => None
      case Num(v) => Some(v)
  }

  /** Python's `a or b` on two optional numbers. */
  function Or(a: Option<real>, b: Option<real>): (r: Option<real>)
    ensures r == a || r == b
    ensures Truthy(r) <==> Truthy(a) || Truthy(b)
    ensures r.None? <==> !Truthy(a) && b.None?
  {
    if Truthy(a) then a else b
  }

  /** `x or 0`: a missing value counts as zero, a present one as itself. */
  function OrZero(x: Option<real>): (r: real)
    ensures r == if x.Some? then x.value else 0.0
  {
    if Truthy(x) then x.value else 0.0
  }

  /** `a - b if a is not None and b is not None else None`. */
  function Minus(a: Option<real>, b: Option<real>): (r: Option<real>)
    ensures r.None? <==> a.None? || b.None?
    ensures r.Some? ==> r.value + b.value == a.value
  {
    if a.Some? && b.Some? then Some(a.value - b.value) else None
  }

  /** `a + b if a is not None and b is not None else None`. */
  function Plus(a: Option<real>, b: Option<real>): (r: Option<real>)
    ensures r.None? <==> a.None? || b.None?
    ensures r.Some? ==> r.value - b.value == a.value
  {
    if a.Some? && b.Some? then Some(a.value + b.value) else None
  }

  /** `a - b if a and b else None`: the difference only when both operands
      are present and nonzero. */
  function MinusIfTruthy(a: Option<real>, b: Option<real>): (r: Option<real>)
    ensures r.None? <==> !Truthy(a) || !Truthy(b)
    ensures r.Some? ==> r.value + b.value == a.value
  {
    if Truthy(a) && Truthy(b) then Some(a.value - b.value) else None
  }

  /** The three statement tables of one company. */
  datatype Financials = Financials(balanceSheet: Table, incomeStatement: Table, cashFlow: Table)

  /** Every statement line `calculate_ratios` reads, at the current date unless
      named `...Prev`. */
  datatype LineItems = LineItems(
    currentAssets: Option<real>,
    currentLiabilities: Option<real>,
    inventory: Option<real>,
    cash: Option<real>,
    shortTermInvestments: Option<real>,
    grossProfit: Option<real>,
    operatingIncome: Option<real>,
    netIncome: Option<real>,
    revenue: Option<real>,
    totalAssets: Option<real>,
    totalAssetsPrev: Option<real>,
    equity: Option<real>,
    equityPrev: Option<real>,
    costOfRevenue: Option<real>,
    inventoryPrev: Option<real>,
    receivables: Option<real>,
    receivablesPrev: Option<real>,
    payables: Option<real>,
    payablesPrev: Option<real>,
    totalDebt: Option<real>,
    longTermDebt: Option<real>,
    interestExpense: Option<real>,
    totalCapitalization: Option<real>,
    sharesOutstanding: Option<real>,
    freeCashFlow: Option<real>,
    operatingCashFlow: Option<real>,
    ebit: Option<real>,
    investedCapital: Option<real>,
    workingCapital: Option<real>,
    netPpe: Option<real>,
    epsBasic: Option<real>,
    epsDiluted: Option<real>)

  /** The extraction block of `calculate_ratios`. */
  function ExtractLineItems(fs: Financials, current: Date, previous: Date): LineItems {
    var bs, is_, cf := fs.balanceSheet, fs.incomeStatement, fs.cashFlow;
    var currentAssets := Extract(bs, "Current Assets", current);
    var currentLiabilities := Extract(bs, "Current Liabilities", current);
    LineItems(
      currentAssets,
      currentLiabilities,
      Extract(bs, "Inventory", current),
      Extract(bs, "Cash And Cash Equivalents", current),
      Extract(bs, "Other Short Term Investments", current),
      Extract(is_, "Gross Profit", current),
      Extract(is_, "Operating Income", current),
      Extract(is_, "Net Income", current),
      Extract(is_, "Total Revenue", current),
      Extract(bs, "Total Assets", current),
      Extract(bs, "Total Assets", previous),
      Extract(bs, "Stockholders Equity", current),
      Extract(bs, "Stockholders Equity", previous),
      Extract(is_, "Cost Of Revenue", current),
      Extract(bs, "Inventory", previous),
      Extract(bs, "Receivables", current),
      Extract(bs, "Receivables", previous),
      Extract(bs, "Accounts Payable", current),
      Extract(bs, "Accounts Payable", previous),
      Extract(bs, "Total Debt", current),
      Extract(bs, "Long Term Debt", current),
      Extract(is_, "Interest Expense", current),
      Extract(bs, "Total Capitalization", current),
      Extract(bs, "Ordinary Shares Number", current),
      Extract(cf, "Free Cash Flow", current),
      Or(Extract(cf, "Operating Cash Flow", current),
         Extract(cf, "Cash Flow From Continuing Operating Activities", current)),
      Extract(is_, "EBIT", current),
      Extract(bs, "Invested Capital", current),
      Minus(currentAssets, currentLiabilities),
      Extract(bs, "Net PPE", current),
      Extract(is_, "Basic EPS", current),
      Extract(is_, "Diluted EPS", current))
  }

  /** The turnovers and days outstanding that lead to the cash conversion
      cycle. */
  datatype Cycle = Cycle(
    inventoryTurnover: Option<real>,
    receivablesTurnover: Option<real>,
    payablesTurnover: Option<real>,
    daysInventory: Option<real>,
    daysSales: Option<real>,
    daysPayables: Option<real>,
    conversionCycle: Option<real>)

  /** `safe_divide(365, turnover)`. */
  function DaysOutstanding(turnover: Option<real>): (r: Option<real>)
    ensures r.None? <==> !Truthy(turnover)
  {
    SafeDivide(Some(365.0), turnover)
  }

  /** `DSO + DIO - DPO if all([DSO, DIO, DPO]) else None`: the whole sum, or
      nothing when any of the three is missing or zero. */
  function ConversionCycle(dso: Option<real>, dio: Option<real>, dpo: Option<real>): (r: Option<real>)
    ensures r.None? <==> !Truthy(dso) || !Truthy(dio) || !Truthy(dpo)
    ensures r.Some? ==> r.value - dso.value - dio.value + dpo.value == 0.0
  {
    if Truthy(dso) && Truthy(dio) && Truthy(dpo) then Some(dso.value + dio.value - dpo.value) else None
  }

  function ComputeCycle(i: LineItems): (c: Cycle)
    ensures c.inventoryTurnover.None? <==>
      i.costOfRevenue.None? || i.inventory.None? || i.inventoryPrev.None? || i.inventory.value + i.inventoryPrev.value == 0.0
    ensures c.receivablesTurnover.None? <==>
      i.revenue.None? || i.receivables.None? || i.receivablesPrev.None? || i.receivables.value + i.receivablesPrev.value == 0.0
    ensures c.payablesTurnover.None? <==>
      i.costOfRevenue.None? || i.payables.None? || i.payablesPrev.None? || i.payables.value + i.payablesPrev.value == 0.0
    ensures c.daysInventory.None? <==> !Truthy(c.inventoryTurnover)
    ensures c.daysSales.None? <==> !Truthy(c.receivablesTurnover)
    ensures c.daysPayables.None? <==> !Truthy(c.payablesTurnover)
    ensures c.conversionCycle.None? <==> !Truthy(c.daysSales) || !Truthy(c.daysInventory) || !Truthy(c.daysPayables)
  {
    var inventoryTurnover := SafeDivide(i.costOfRevenue, Average(i.inventory, i.inventoryPrev));
    var receivablesTurnover := SafeDivide(i.revenue, Average(i.receivables, i.receivablesPrev));
    var payablesTurnover := SafeDivide(i.costOfRevenue, Average(i.payables, i.payablesPrev));
    var dio := DaysOutstanding(inventoryTurnover);
    var dso := DaysOutstanding(receivablesTurnover);
    var dpo := DaysOutstanding(payablesTurnover);
    Cycle(inventoryTurnover, receivablesTurnover, payablesTurnover, dio, dso, dpo, ConversionCycle(dso, dio, dpo))
  }

  datatype Liquidity = Liquidity(
    currentRatio: Option<real>,
    quickRatio: Option<real>,
    cashRatio: Option<real>,
    operatingCashFlowRatio: Option<real>,
    cashConversionCycle: Option<real>)

  datatype Profitability = Profitability(
    grossProfitMargin: Option<real>,
    operatingMargin: Option<real>,
    netProfitMargin: Option<real>,
    returnOnAssets: Option<real>,
    returnOnEquity: Option<real>,
    ebitMargin: Option<real>,
    returnOnCapitalEmployed: Option<real>)

  datatype Efficiency = Efficiency(
    inventoryTurnover: Option<real>,
    receivablesTurnover: Option<real>,
    payablesTurnover: Option<real>,
    assetTurnover: Option<real>,
    workingCapitalTurnover: Option<real>,
    fixedAssetTurnover: Option<real>)

  datatype Leverage = Leverage(
    debtToEquity: Option<real>,
    debtRatio: Option<real>,
    interestCoverage: Option<real>,
    debtToCapital: Option<real>,
    equityMultiplier: Option<real>,
    capitalizationRatio: Option<real>)

  datatype ReturnValuation = ReturnValuation(
    bookValuePerShare: Option<real>,
    freeCashFlowMargin: Option<real>,
    returnOnInvestedCapital: Option<real>,
    epsBasic: Option<real>,
    epsDiluted: Option<real>,
    cashReturnOnAssets: Option<real>)

  /** The five groups `calculate_ratios` returns, in its order. */
  datatype RatioReport = RatioReport(
    liquidity: Liquidity,
    profitability: Profitability,
    efficiency: Efficiency,
    leverage: Leverage,
    returnValuation: ReturnValuation)

  function BuildLiquidity(i: LineItems, c: Cycle): (r: Liquidity)
    ensures r.currentRatio.None? <==> i.currentAssets.None? || !Truthy(i.currentLiabilities)
    ensures r.quickRatio.None? <==>
      !Truthy(i.currentAssets) || !Truthy(i.inventory) || !Truthy(i.currentLiabilities)
    ensures r.cashRatio.None? <==> !Truthy(i.currentLiabilities)
    ensures r.operatingCashFlowRatio.None? <==> i.operatingCashFlow.None? || !Truthy(i.currentLiabilities)
    ensures r.cashConversionCycle.None? <==> c.conversionCycle.None?
    ensures r.cashConversionCycle.Some? ==>
      -0.005 <= r.cashConversionCycle.value - c.conversionCycle.value <= 0.005
  {
    var ccc := if c.conversionCycle.Some? then Some(RoundCycle(c.conversionCycle.value)) else None;
    Liquidity(
      SafeDivide(i.currentAssets, i.currentLiabilities),
      SafeDivide(MinusIfTruthy(i.currentAssets, i.inventory), i.currentLiabilities),
      SafeDivide(Some(OrZero(i.cash) + OrZero(i.shortTermInvestments)), i.currentLiabilities),
      SafeDivide(i.operatingCashFlow, i.currentLiabilities),
      ccc)
  }

  /** `round(CCC, 2)`, within half a cent of `CCC`. */
  function RoundCycle(ccc: real): (r: real)
    ensures -0.005 <= r - ccc <= 0.005
  {
    RoundScaledIsNear(ccc, Scale(2));
    assert Scale(2) == 100.0;
    Round(ccc, 2)
  }

  function BuildProfitability(i: LineItems): (r: Profitability)
    ensures r.grossProfitMargin.None? <==> i.grossProfit.None? || !Truthy(i.revenue)
    ensures r.operatingMargin.None? <==> i.operatingIncome.None? || !Truthy(i.revenue)
    ensures r.netProfitMargin.None? <==> i.netIncome.None? || !Truthy(i.revenue)
    ensures r.returnOnAssets.None? <==>
      i.netIncome.None? || !Truthy(Average(i.totalAssets, i.totalAssetsPrev))
    ensures r.returnOnEquity.None? <==>
      i.netIncome.None? || !Truthy(Average(i.equity, i.equityPrev))
    ensures r.ebitMargin.None? <==> i.ebit.None? || !Truthy(i.revenue)
    ensures r.returnOnCapitalEmployed.None? <==>
      i.ebit.None? || i.totalAssets.None? || i.currentLiabilities.None?
      || i.totalAssets.value == i.currentLiabilities.value
  {
    Profitability(
      SafeDivide(i.grossProfit, i.revenue),
      SafeDivide(i.operatingIncome, i.revenue),
      SafeDivide(i.netIncome, i.revenue),
      SafeDivide(i.netIncome, Average(i.totalAssets, i.totalAssetsPrev)),
      SafeDivide(i.netIncome, Average(i.equity, i.equityPrev)),
      SafeDivide(i.ebit, i.revenue),
      SafeDivide(i.ebit, Minus(i.totalAssets, i.currentLiabilities)))
  }

  function BuildEfficiency(i: LineItems, c: Cycle): (r: Efficiency)
    ensures r.inventoryTurnover == c.inventoryTurnover
    ensures r.receivablesTurnover == c.receivablesTurnover
    ensures r.payablesTurnover == c.payablesTurnover
    ensures r.assetTurnover.None? <==> i.revenue.None? || !Truthy(Average(i.totalAssets, i.totalAssetsPrev))
    ensures r.workingCapitalTurnover.None? <==> i.revenue.None? || !Truthy(i.workingCapital)
    ensures r.fixedAssetTurnover.None? <==> i.revenue.None? || !Truthy(i.netPpe)
  {
    Efficiency(
      c.inventoryTurnover,
      c.receivablesTurnover,
      c.payablesTurnover,
      SafeDivide(i.revenue, Average(i.totalAssets, i.totalAssetsPrev)),
      SafeDivide(i.revenue, i.workingCapital),
      SafeDivide(i.revenue, i.netPpe))
  }

  function BuildLeverage(i: LineItems): (r: Leverage)
    ensures r.debtToEquity.None? <==> i.totalDebt.None? || !Truthy(i.equity)
    ensures r.debtRatio.None? <==> i.totalDebt.None? || !Truthy(i.totalAssets)
    ensures r.interestCoverage.None? <==> i.ebit.None? || !Truthy(i.interestExpense)
    ensures r.debtToCapital.None? <==> i.totalDebt.None? || !Truthy(i.totalCapitalization)
    ensures r.equityMultiplier.None? <==> i.totalAssets.None? || !Truthy(i.equity)
    ensures r.capitalizationRatio.None? <==>
      i.longTermDebt.None? || i.equity.None? || i.longTermDebt.value + i.equity.value == 0.0
  {
    Leverage(
      SafeDivide(i.totalDebt, i.equity),
      SafeDivide(i.totalDebt, i.totalAssets),
      SafeDivide(i.ebit, i.interestExpense),
      SafeDivide(i.totalDebt, i.totalCapitalization),
      SafeDivide(i.totalAssets, i.equity),
      SafeDivide(i.longTermDebt, Plus(i.longTermDebt, i.equity)))
  }

  function BuildReturnValuation(i: LineItems): (r: ReturnValuation)
    ensures r.bookValuePerShare.None? <==> i.equity.None? || !Truthy(i.sharesOutstanding)
    ensures r.freeCashFlowMargin.None? <==> i.freeCashFlow.None? || !Truthy(i.revenue)
    ensures r.returnOnInvestedCapital.None? <==> i.ebit.None? || !Truthy(i.investedCapital)
    ensures r.epsBasic == i.epsBasic && r.epsDiluted == i.epsDiluted
    ensures r.cashReturnOnAssets.None? <==>
      i.operatingCashFlow.None? || !Truthy(Average(i.totalAssets, i.totalAssetsPrev))
  {
    ReturnValuation(
      SafeDivide(i.equity, i.sharesOutstanding),
      SafeDivide(i.freeCashFlow, i.revenue),
      SafeDivide(i.ebit, i.investedCapital),
      i.epsBasic,
      i.epsDiluted,
      SafeDivide(i.operatingCashFlow, Average(i.totalAssets, i.totalAssetsPrev)))
  }

  /** `calculate_ratios(financials, current_date, previous_date)`. */
  function CalculateRatios(fs: Financials, current: Date, previous: Date): RatioReport {
    var items := ExtractLineItems(fs, current, previous);
    var cycle := ComputeCycle(items);
    RatioReport(
      BuildLiquidity(items, cycle),
      BuildProfitability(items),
      BuildEfficiency(items, cycle),
      BuildLeverage(items),
      BuildReturnValuation(items))
  }

  /** The returned dictionary, as group names and ratio names paired with
      their values, in the dictionary's insertion order. */
  function AsDict(r: RatioReport): seq<(string, seq<(string, Option<real>)>)> {
    var l, p, e, v, rv := r.liquidity, r.profitability, r.efficiency, r.leverage, r.returnValuation;
    [ ("Liquidity",
        [ ("Current Ratio", l.currentRatio),
          ("Quick Ratio", l.quickRatio),
          ("Cash Ratio", l.cashRatio),
          ("Operating Cash Flow Ratio", l.operatingCashFlowRatio),
          ("Cash Conversion Cycle", l.cashConversionCycle) ]),
      ("Profitability",
        [ ("Gross Profit Margin", p.grossProfitMargin),
          ("Operating Margin", p.operatingMargin),
          ("Net Profit Margin", p.netProfitMargin),
          ("Return on Assets (ROA)", p.returnOnAssets),
          ("Return on Equity (ROE)", p.returnOnEquity),
          ("EBIT Margin", p.ebitMargin),
          ("Return on Capital Employed (ROCE)", p.returnOnCapitalEmployed) ]),
      ("Efficiency",
        [ ("Inventory Turnover", e.inventoryTurnover),
          ("Receivables Turnover", e.receivablesTurnover),
          ("Payables Turnover", e.payablesTurnover),
          ("Asset Turnover", e.assetTurnover),
          ("Working Capital Turnover", e.workingCapitalTurnover),
          ("Fixed Asset Turnover", e.fixedAssetTurnover) ]),
      ("Leverage",
        [ ("Debt-to-Equity", v.debtToEquity),
          ("Debt Ratio", v.debtRatio),
          ("Interest Coverage", v.interestCoverage),
          ("Debt-to-Capital", v.debtToCapital),
          ("Equity Multiplier", v.equityMultiplier),
          ("Capitalization Ratio (LT Debt)", v.capitalizationRatio) ]),
      ("Return & Valuation",
        [ ("Book Value per Share", rv.bookValuePerShare),
          ("Free Cash Flow Margin", rv.freeCashFlowMargin),
          ("Return on Invested Capital (ROIC)", rv.returnOnInvestedCapital),
          ("Earnings Per Share (EPS - Basic)", rv.epsBasic),
          ("Earnings Per Share (EPS - Diluted)", rv.epsDiluted),
          ("Cash Return on Assets (CROA)", rv.cashReturnOnAssets) ]) ]
  }
}
