/** What `calculate_ratios` promises about when a ratio is missing, stated on
    the statement lines it reads. */
module RatioProperties {
  import opened Wrappers
  import opened Dates
  import opened Tables
  import opened Rounding
  import opened RatioCalculator

  /** The quick ratio needs current assets, inventory and current liabilities
      all present and nonzero: `CA1 - INV1 if CA1 and INV1` treats a zero
      inventory like a missing one. */
  lemma QuickRatioPresence(fs: Financials, current: Date, previous: Date)
    ensures var bs := fs.balanceSheet;
      CalculateRatios(fs, current, previous).liquidity.quickRatio.Some? <==>
        && Truthy(Extract(bs, "Current Assets", current))
        && Truthy(Extract(bs, "Inventory", current))
        && Truthy(Extract(bs, "Current Liabilities", current))
  {
  }

  /** Missing cash or short-term investments count as zero, so the cash ratio
      depends only on current liabilities being present and nonzero. */
  lemma CashRatioPresence(fs: Financials, current: Date, previous: Date)
    ensures var bs := fs.balanceSheet;
      var cl := Extract(bs, "Current Liabilities", current);
      var cash := Extract(bs, "Cash And Cash Equivalents", current);
      var investments := Extract(bs, "Other Short Term Investments", current);
      var ratio := CalculateRatios(fs, current, previous).liquidity.cashRatio;
      && (ratio.Some? <==> Truthy(cl))
      && (ratio.Some? && cash.None? && investments.None? ==> ratio.value == 0.0)
      && (ratio.Some? && cash.None? && investments.Some? ==> ratio == SafeDivide(investments, cl))
      && (ratio.Some? && cash.Some? && investments.None? ==> ratio == SafeDivide(cash, cl))
  {
    var items := ExtractLineItems(fs, current, previous);
    CashRatioOfItems(items, ComputeCycle(items));
  }

  lemma CashRatioOfItems(i: LineItems, c: Cycle)
    ensures var ratio := BuildLiquidity(i, c).cashRatio;
      && (ratio.Some? <==> Truthy(i.currentLiabilities))
      && (ratio.Some? && i.cash.None? && i.shortTermInvestments.None? ==> ratio.value == 0.0)
      && (ratio.Some? && i.cash.None? && i.shortTermInvestments.Some? ==>
            ratio == SafeDivide(i.shortTermInvestments, i.currentLiabilities))
      && (ratio.Some? && i.cash.Some? && i.shortTermInvestments.None? ==>
            ratio == SafeDivide(i.cash, i.currentLiabilities))
  {
    if Truthy(i.currentLiabilities) && i.cash.None? && i.shortTermInvestments.None? {
      assert 0.0 / i.currentLiabilities.value == 0.0;
      assert RoundHalfEven(0.0 * Scale(4)) == 0;
    }
  }

  /** The cash conversion cycle is the whole `DSO + DIO - DPO` to two places
      when all three are present and nonzero, and missing otherwise: never a
      partial sum. */
  lemma CashConversionCycleAllOrNothing(fs: Financials, current: Date, previous: Date)
    ensures var c := ComputeCycle(ExtractLineItems(fs, current, previous));
      var ccc := CalculateRatios(fs, current, previous).liquidity.cashConversionCycle;
      && (ccc.Some? <==> Truthy(c.daysSales) && Truthy(c.daysInventory) && Truthy(c.daysPayables))
      && (ccc.Some? ==>
            -0.005 <= ccc.value - (c.daysSales.value + c.daysInventory.value - c.daysPayables.value) <= 0.005)
  {
  }

  /** Days outstanding are 365 over the turnover, to four places, and missing
      with a missing or zero turnover. */
  lemma DaysOutstandingIsNear(turnover: Option<real>)
    ensures var days := DaysOutstanding(turnover);
      && (days.Some? <==> Truthy(turnover))
      && (days.Some? ==> -0.00005 <= days.value - 365.0 / turnover.value <= 0.00005)
  {
    SafeDivideIsNear(Some(365.0), turnover);
  }

  /** Working capital needs both current assets and current liabilities, so
      the working capital turnover is missing without either. */
  lemma WorkingCapitalNeedsBoth(fs: Financials, current: Date, previous: Date)
    ensures var bs := fs.balanceSheet;
      var items := ExtractLineItems(fs, current, previous);
      && (items.workingCapital.None? <==>
            Extract(bs, "Current Assets", current).None? || Extract(bs, "Current Liabilities", current).None?)
      && (items.workingCapital.None? ==> CalculateRatios(fs, current, previous).efficiency.workingCapitalTurnover.None?)
  {
  }

  /** The capital employed of ROCE needs both total assets and current
      liabilities. */
  lemma CapitalEmployedNeedsBoth(fs: Financials, current: Date, previous: Date)
    ensures var bs := fs.balanceSheet;
      ((Extract(bs, "Total Assets", current).None? || Extract(bs, "Current Liabilities", current).None?)
         ==> CalculateRatios(fs, current, previous).profitability.returnOnCapitalEmployed.None?)
  {
  }

  /** The denominator of the capitalization ratio needs both long-term debt
      and equity. */
  lemma CapitalizationNeedsBoth(fs: Financials, current: Date, previous: Date)
    ensures var bs := fs.balanceSheet;
      ((Extract(bs, "Long Term Debt", current).None? || Extract(bs, "Stockholders Equity", current).None?)
         ==> CalculateRatios(fs, current, previous).leverage.capitalizationRatio.None?)
  {
  }

  /** The averaged ratios need the line at both dates: `average` never falls
      back to the one value present. */
  lemma AverageNeedsBothDates(fs: Financials, current: Date, previous: Date)
    ensures var bs := fs.balanceSheet;
      var r := CalculateRatios(fs, current, previous);
      && (Extract(bs, "Total Assets", previous).None? ==>
            r.profitability.returnOnAssets.None? && r.efficiency.assetTurnover.None?
            && r.returnValuation.cashReturnOnAssets.None?)
      && (Extract(bs, "Stockholders Equity", previous).None? ==> r.profitability.returnOnEquity.None?)
      && (Extract(bs, "Inventory", previous).None? ==>
            r.efficiency.inventoryTurnover.None? && r.liquidity.cashConversionCycle.None?)
      && (Extract(bs, "Receivables", previous).None? ==>
            r.efficiency.receivablesTurnover.None? && r.liquidity.cashConversionCycle.None?)
      && (Extract(bs, "Accounts Payable", previous).None? ==>
            r.efficiency.payablesTurnover.None? && r.liquidity.cashConversionCycle.None?)
  {
  }

  /** Operating cash flow falls back to the continuing-operations line when
      the primary line is missing or zero. */
  lemma OperatingCashFlowFallback(fs: Financials, current: Date, previous: Date)
    ensures var cf := fs.cashFlow;
      var primary := Extract(cf, "Operating Cash Flow", current);
      var continuing := Extract(cf, "Cash Flow From Continuing Operating Activities", current);
      var cl := Extract(fs.balanceSheet, "Current Liabilities", current);
      var r := CalculateRatios(fs, current, previous);
      && (Truthy(primary) ==> r.liquidity.operatingCashFlowRatio == SafeDivide(primary, cl))
      && (!Truthy(primary) ==> r.liquidity.operatingCashFlowRatio == SafeDivide(continuing, cl))
      && (r.liquidity.operatingCashFlowRatio.Some? <==> (Truthy(primary) || continuing.Some?) && Truthy(cl))
  {
  }

  /** The two earnings-per-share entries are the income statement's own
      values, not a quotient. */
  lemma EarningsPerShareAreRaw(fs: Financials, current: Date, previous: Date)
    ensures var is_ := fs.incomeStatement;
      var rv := CalculateRatios(fs, current, previous).returnValuation;
      && rv.epsBasic == Extract(is_, "Basic EPS", current)
      && rv.epsDiluted == Extract(is_, "Diluted EPS", current)
  {
  }

  /** The labels of one group's entries, in order. */
  function Labels(entries: seq<(string, Option<real>)>): (r: seq<string>)
    ensures |r| == |entries|
  {
    seq(|entries|, i requires 0 <= i < |entries| => entries[i].0)
  }

  /** The returned dictionary has the five groups in their order, each with
      its fixed ratio names in order. */
  lemma ReportLayout(r: RatioReport)
    ensures var d := AsDict(r);
      && |d| == 5
      && [d[0].0, d[1].0, d[2].0, d[3].0, d[4].0]
         == ["Liquidity", "Profitability", "Efficiency", "Leverage", "Return & Valuation"]
      && Labels(d[0].1) == ["Current Ratio", "Quick Ratio", "Cash Ratio", "Operating Cash Flow Ratio",
                            "Cash Conversion Cycle"]
      && Labels(d[1].1) == ["Gross Profit Margin", "Operating Margin", "Net Profit Margin",
                            "Return on Assets (ROA)", "Return on Equity (ROE)", "EBIT Margin",
                            "Return on Capital Employed (ROCE)"]
      && Labels(d[2].1) == ["Inventory Turnover", "Receivables Turnover", "Payables Turnover",
                            "Asset Turnover", "Working Capital Turnover", "Fixed Asset Turnover"]
      && Labels(d[3].1) == ["Debt-to-Equity", "Debt Ratio", "Interest Coverage", "Debt-to-Capital",
                            "Equity Multiplier", "Capitalization Ratio (LT Debt)"]
      && Labels(d[4].1) == ["Book Value per Share", "Free Cash Flow Margin",
                            "Return on Invested Capital (ROIC)", "Earnings Per Share (EPS - Basic)",
                            "Earnings Per Share (EPS - Diluted)", "Cash Return on Assets (CROA)"]
  {
  }
}

module RatioExamples {
  import opened Wrappers
  import opened Dates
  import opened Tables
  import opened Rounding
  import opened RatioCalculator

  /** `safe_divide` on a few operands: an exact quotient, a rounded one, a
      zero denominator and a missing numerator. */
  lemma SafeDivideCases()
    ensures SafeDivide(Some(10.0), Some(4.0)) == Some(2.5)
    ensures SafeDivide(Some(1.0), Some(3.0)) == Some(0.3333)
    ensures SafeDivide(Some(10.0), Some(0.0)) == None
    ensures SafeDivide(None, Some(5.0)) == None
  {
    assert Scale(4) == 10000.0;
    assert RoundHalfEven(25000.0) == 25000;
    assert RoundHalfEven(10000.0 / 3.0) == 3333;
  }

  /** Current assets 150, current liabilities 100 and inventory 40 give a
      current ratio of 1.5 and a quick ratio of 1.1. */
  lemma LiquidityFromBalanceSheet(fs: Financials, current: Date, previous: Date)
    requires Extract(fs.balanceSheet, "Current Assets", current) == Some(150.0)
    requires Extract(fs.balanceSheet, "Current Liabilities", current) == Some(100.0)
    requires Extract(fs.balanceSheet, "Inventory", current) == Some(40.0)
    ensures CalculateRatios(fs, current, previous).liquidity.currentRatio == Some(1.5)
    ensures CalculateRatios(fs, current, previous).liquidity.quickRatio == Some(1.1)
  {
    assert Scale(4) == 10000.0;
    assert RoundHalfEven(15000.0) == 15000;
    assert RoundHalfEven(11000.0) == 11000;
  }

  /** A zero inventory is falsy, so the quick ratio is missing even though
      current assets and liabilities are there. */
  lemma QuickRatioZeroInventory(fs: Financials, current: Date, previous: Date)
    requires Extract(fs.balanceSheet, "Current Assets", current) == Some(150.0)
    requires Extract(fs.balanceSheet, "Current Liabilities", current) == Some(100.0)
    requires Extract(fs.balanceSheet, "Inventory", current) == Some(0.0)
    ensures CalculateRatios(fs, current, previous).liquidity.quickRatio == None
    ensures CalculateRatios(fs, current, previous).liquidity.currentRatio == Some(1.5)
  {
    assert Scale(4) == 10000.0;
    assert RoundHalfEven(15000.0) == 15000;
  }

  /** A row present with a NaN cell reads as missing. */
  lemma ExtractNaN(t: Table, d: Date)
    requires t.index == {"Inventory"} && t.columns == [d]
    requires t.data["Inventory"][d] == NaN
    ensures Extract(t, "Inventory", d) == None
    ensures Extract(t, "Receivables", d) == None
  {
  }
}
