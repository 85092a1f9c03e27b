/**
 * The server's financial intelligence service: it holds the company's
 * statements as its context, computes headline metrics from the last row of
 * each statement, and grades the business in five fixed lines
 * (profitability, liquidity, leverage, returns, cash generation).
 */
module IntelligenceService {
  import opened Wrappers
  import opened JsValues
  import opened Core
  import opened Statements
  import WC = WorkingCapital

  /** The context the service holds: the company and its three statements. */
  datatype Context = Context(company: string, data: Data)

  /**
   * The metrics object. The base figures are `parseFloat(x) || 0`; the
   * ratios are `toFixed(2)` texts (or the number 0), held here as the number
   * each text reads as, which is what the comparisons of the analysis use.
   */
  datatype BusinessMetrics = BusinessMetrics(
    revenue: real, grossProfit: real, operatingIncome: real, netIncome: real,
    totalAssets: real, totalLiabilities: real, equity: real, cash: real, operatingCashFlow: real,
    grossMargin: JsNum, netMargin: JsNum, roa: JsNum, roe: JsNum, debtToEquity: JsNum,
    currentRatio: JsNum, operatingMargin: JsNum)

  /** `base > 0 ? (part / base * 100).toFixed(2) : 0`. */
  function PctIfPositive(part: real, base: real): JsNum {
    if base > 0.0 then Finite(Round2(part / base * 100.0)) else Finite(0.0)
  }

  /** `base > 0 ? (part / base).toFixed(2) : 0`. */
  function RatioIfPositive(part: real, base: real): JsNum {
    if base > 0.0 then Finite(Round2(part / base)) else Finite(0.0)
  }

  /**
   * `row.Current_Assets > 0 ? (row.Current_Assets / row.Current_Liabilities).toFixed(2) : 0`,
   * on the raw cells: only the assets are guarded.
   */
  function CurrentRatioOf(row: Row): JsNum {
    var assets := ToNumber(Get(row, "Current_Assets"));
    if Gt(assets, 0.0) then Fixed2(Div(assets.value, ToNumber(Get(row, "Current_Liabilities")))) else Finite(0.0)
  }

  /** The metrics of the statements: the base figures of the last rows (an empty statement reads as `{}`) and the ratios. */
  function MetricsOf(d: Data): BusinessMetrics {
    var income := WC.LastRow(d.income);
    var balance := WC.LastRow(d.balance);
    var cash := WC.LastRow(d.cashFlow);
    var revenue := ParseFloatOr0(Get(income, "Revenue"));
    var grossProfit := ParseFloatOr0(Get(income, "Gross_Profit"));
    var operatingIncome := ParseFloatOr0(Get(income, "Operating_Income"));
    var netIncome := ParseFloatOr0(Get(income, "Net_Income"));
    var totalAssets := ParseFloatOr0(Get(balance, "Total_Assets"));
    var totalLiabilities := ParseFloatOr0(Get(balance, "Total_Liabilities"));
    var equity := ParseFloatOr0(Get(balance, "Equity"));
    BusinessMetrics(
      revenue, grossProfit, operatingIncome, netIncome, totalAssets, totalLiabilities, equity,
      ParseFloatOr0(Get(balance, "Cash")), ParseFloatOr0(Get(cash, "Cash_From_Operations")),
      PctIfPositive(grossProfit, revenue), PctIfPositive(netIncome, revenue),
      PctIfPositive(netIncome, totalAssets), PctIfPositive(netIncome, equity),
      RatioIfPositive(totalLiabilities, equity), CurrentRatioOf(balance),
      PctIfPositive(operatingIncome, revenue))
  }

  /** The lines of the analysis, one constructor per message. */
  datatype Assessment =
    | ExcellentProfitability | GoodProfitability | ModerateProfitability | NegativeNetIncome
    | StrongLiquidity | AdequateLiquidity | LiquidityConcern
    | ConservativeLeverage | ModerateLeverage | HighLeverage
    | StrongReturns | GoodReturns | LowerReturns
    | StrongCashGeneration | CashFlowCaution | CashFlowConcern
  {
    predicate IsProfitability() {
      this in {ExcellentProfitability, GoodProfitability, ModerateProfitability, NegativeNetIncome}
    }
    predicate IsLiquidity() {
      this in {StrongLiquidity, AdequateLiquidity, LiquidityConcern}
    }
    predicate IsLeverage() {
      this in {ConservativeLeverage, ModerateLeverage, HighLeverage}
    }
    predicate IsReturns() {
      this in {StrongReturns, GoodReturns, LowerReturns}
    }
    predicate IsCashGeneration() {
      this in {StrongCashGeneration, CashFlowCaution, CashFlowConcern}
    }
  }

  /** The text of each line. */
  function Text(a: Assessment): string {
    match a
    case ExcellentProfitability => "\U{2705} Excellent profitability: Net margin above 20%"
    case GoodProfitability => "\U{2713} Good profitability: Net margin above 10%"
    case ModerateProfitability => "\U{26A0}\U{FE0F} Moderate profitability: Net margin below 10%"
    case NegativeNetIncome => "\U{1F534} Red flag: Negative net income"
    case StrongLiquidity => "\U{2705} Strong liquidity: Current ratio above 1.5x"
    case AdequateLiquidity => "\U{2713} Adequate liquidity: Current ratio above 1x"
    case LiquidityConcern => "\U{1F534} Liquidity concern: Current ratio below 1x"
    case ConservativeLeverage => "\U{2705} Conservative leverage: Debt-to-equity below 1x"
    case ModerateLeverage => "\U{26A0}\U{FE0F} Moderate leverage: Debt-to-equity between 1-2x"
    case HighLeverage => "\U{1F534} High leverage: Debt-to-equity above 2x"
    case StrongReturns => "\U{2705} Strong returns: ROE above 15%"
    case GoodReturns => "\U{2713} Good returns: ROE above 10%"
    case LowerReturns => "\U{26A0}\U{FE0F} Lower returns: ROE below 10%"
    case StrongCashGeneration => "\U{2705} Strong cash generation: Operating cash flow exceeds net income"
    case CashFlowCaution => "\U{26A0}\U{FE0F} Cash flow caution: Operating cash flow below net income"
    case CashFlowConcern => "\U{1F534} Cash flow concern: Negative operating cash flow"
  }

  function Profitability(netMargin: JsNum): Assessment {
    if Gt(netMargin, 20.0) then ExcellentProfitability
    else if Gt(netMargin, 10.0) then GoodProfitability
    else if Gt(netMargin, 0.0) then ModerateProfitability
    else NegativeNetIncome
  }

  function Liquidity(currentRatio: JsNum): Assessment {
    if Gt(currentRatio, 1.5) then StrongLiquidity
    else if Gt(currentRatio, 1.0) then AdequateLiquidity
    else LiquidityConcern
  }

  function Leverage(debtToEquity: JsNum): Assessment {
    if Lt(debtToEquity, 1.0) then ConservativeLeverage
    else if Lt(debtToEquity, 2.0) then ModerateLeverage
    else HighLeverage
  }

  function Returns(roe: JsNum): Assessment {
    if Gt(roe, 15.0) then StrongReturns
    else if Gt(roe, 10.0) then GoodReturns
    else LowerReturns
  }

  /** `operatingCashFlow > netIncome`, then `operatingCashFlow > 0`; both fields are `undefined` without metrics. */
  function CashGeneration(m: Option<BusinessMetrics>): Assessment {
    if m.Some? && m.value.operatingCashFlow > m.value.netIncome then StrongCashGeneration
    else if m.Some? && m.value.operatingCashFlow > 0.0 then CashFlowCaution
    else CashFlowConcern
  }

  /**
   * `analyzeBusiness` on the metrics: exactly five lines, in the order
   * profitability, liquidity, leverage, returns, cash generation. Without
   * metrics (`{}`) every field is `undefined`, which no comparison holds for.
   */
  function Analysis(m: Option<BusinessMetrics>): (lines: seq<Assessment>)
    ensures |lines| == 5
    ensures lines[0].IsProfitability() && lines[1].IsLiquidity() && lines[2].IsLeverage()
      && lines[3].IsReturns() && lines[4].IsCashGeneration()
  {
    match m
    case None => [Profitability(NaN), Liquidity(NaN), Leverage(NaN), Returns(NaN), CashGeneration(m)]
    case Some(x) =>
      [Profitability(x.netMargin), Liquidity(x.currentRatio), Leverage(x.debtToEquity), Returns(x.roe), CashGeneration(m)]
  }

  /** The service object; its only state is the context. */
  class FinancialIntelligenceService {
    var financialContext: Option<Context>

    constructor ()
      ensures financialContext == None
    {
      financialContext := None;
    }

    /** Stores the company and the statements, each absent one as `[]`. */
    method SetFinancialContext(company: string, datasets: RawDatasets)
      modifies this
      ensures financialContext == Some(Context(company, Normalize(datasets)))
    {
      financialContext := Some(Context(company, Normalize(datasets)));
    }

    /** The metrics of the context, or the empty result `{}` (`None`) when no context has been set. */
    function CalculateMetrics(): (m: Option<BusinessMetrics>)
      reads this
      ensures m.None? <==> financialContext.None?
      ensures m.Some? ==> m.value == MetricsOf(financialContext.value.data)
    {
      match financialContext
      case None => None
      case Some(context) => Some(MetricsOf(context.data))
    }

    /**
     * The five lines of the analysis of the current metrics; without a
     * context every line is the lowest tier.
     */
    function AnalyzeBusiness(): (lines: seq<Assessment>)
      reads this
      ensures |lines| == 5 && lines[0].IsProfitability() && lines[1].IsLiquidity() && lines[2].IsLeverage()
        && lines[3].IsReturns() && lines[4].IsCashGeneration()
      ensures financialContext.None? ==>
        lines == [NegativeNetIncome, LiquidityConcern, HighLeverage, LowerReturns, CashFlowConcern]
      ensures financialContext.Some? ==> var m := MetricsOf(financialContext.value.data);
        lines[0] == Profitability(m.netMargin) && lines[1] == Liquidity(m.currentRatio)
        && lines[2] == Leverage(m.debtToEquity) && lines[3] == Returns(m.roe)
        && lines[4] == CashGeneration(Some(m))
    {
      Analysis(CalculateMetrics())
    }
  }

  // ---------------------------------------------------------------------------
  // Properties
  // ---------------------------------------------------------------------------

  /** Net-margin tiers are strict: above 20, above 10, above 0, and otherwise (also NaN) a red flag. */
  lemma ProfitabilityTiers(netMargin: JsNum)
    ensures Profitability(netMargin) == ExcellentProfitability <==> Gt(netMargin, 20.0)
    ensures Profitability(netMargin) == GoodProfitability <==> Gt(netMargin, 10.0) && !Gt(netMargin, 20.0)
    ensures Profitability(netMargin) == ModerateProfitability <==> Gt(netMargin, 0.0) && !Gt(netMargin, 10.0)
    ensures Profitability(netMargin) == NegativeNetIncome <==> !Gt(netMargin, 0.0)
    ensures netMargin.Finite? ==> (Profitability(netMargin) == NegativeNetIncome <==> netMargin.value <= 0.0)
  {
  }

  /** Liquidity tiers: above 1.5, above 1, and otherwise (also NaN) a concern. */
  lemma LiquidityTiers(currentRatio: JsNum)
    ensures Liquidity(currentRatio) == StrongLiquidity <==> Gt(currentRatio, 1.5)
    ensures Liquidity(currentRatio) == AdequateLiquidity <==> Gt(currentRatio, 1.0) && !Gt(currentRatio, 1.5)
    ensures Liquidity(currentRatio) == LiquidityConcern <==> !Gt(currentRatio, 1.0)
  {
  }

  /** Leverage tiers: below 1, below 2, and otherwise (also NaN) high. */
  lemma LeverageTiers(debtToEquity: JsNum)
    ensures Leverage(debtToEquity) == ConservativeLeverage <==> Lt(debtToEquity, 1.0)
    ensures Leverage(debtToEquity) == ModerateLeverage <==> Lt(debtToEquity, 2.0) && !Lt(debtToEquity, 1.0)
    ensures Leverage(debtToEquity) == HighLeverage <==> !Lt(debtToEquity, 2.0)
  {
  }

  /** Return tiers: above 15, above 10, and otherwise lower. */
  lemma ReturnsTiers(roe: JsNum)
    ensures Returns(roe) == StrongReturns <==> Gt(roe, 15.0)
    ensures Returns(roe) == GoodReturns <==> Gt(roe, 10.0) && !Gt(roe, 15.0)
    ensures Returns(roe) == LowerReturns <==> !Gt(roe, 10.0)
  {
  }

  /** Cash generation: strong when operating cash flow exceeds net income, caution when it is only positive, else concern. */
  lemma CashGenerationTiers(m: BusinessMetrics)
    ensures CashGeneration(Some(m)) == StrongCashGeneration <==> m.operatingCashFlow > m.netIncome
    ensures CashGeneration(Some(m)) == CashFlowCaution <==> 0.0 < m.operatingCashFlow <= m.netIncome
    ensures CashGeneration(Some(m)) == CashFlowConcern <==> m.operatingCashFlow <= 0.0 && m.operatingCashFlow <= m.netIncome
  {
  }

  /**
   * The guards of the ratios: the three margins are 0 unless revenue is
   * positive, return on assets unless assets are, return on equity and debt
   * to equity unless equity is, and the current ratio unless the current
   * assets are; a guarded percentage is within half a cent of the exact one.
   */
  lemma MetricsGuards(d: Data)
    ensures var m := MetricsOf(d);
      (m.revenue <= 0.0 ==> m.grossMargin == m.netMargin == m.operatingMargin == Finite(0.0))
      && (m.totalAssets <= 0.0 ==> m.roa == Finite(0.0))
      && (m.equity <= 0.0 ==> m.roe == m.debtToEquity == Finite(0.0))
      && (m.revenue > 0.0 ==>
           m.netMargin.Finite? && -0.005 <= m.netMargin.value - m.netIncome / m.revenue * 100.0 <= 0.005)
      && (m.equity > 0.0 ==>
           m.debtToEquity.Finite? && -0.005 <= m.debtToEquity.value - m.totalLiabilities / m.equity <= 0.005)
  {
  }

  /**
   * The current ratio guards only the current assets: with positive assets
   * and current liabilities that read as 0 it is infinite, and with no
   * current liabilities column it is NaN; with positive assets and non-zero
   * liabilities it is the rounded quotient.
   */
  lemma CurrentRatioUnguarded(row: Row)
    ensures var assets := ToNumber(Get(row, "Current_Assets")); var liabilities := ToNumber(Get(row, "Current_Liabilities"));
      (!Gt(assets, 0.0) ==> CurrentRatioOf(row) == Finite(0.0))
      && (Gt(assets, 0.0) && liabilities == Finite(0.0) ==> CurrentRatioOf(row) == PosInf)
      && (Gt(assets, 0.0) && "Current_Liabilities" !in row ==> CurrentRatioOf(row) == NaN)
      && (Gt(assets, 0.0) && liabilities.Finite? && liabilities.value != 0.0 ==>
           CurrentRatioOf(row).Finite?
           && -0.005 <= CurrentRatioOf(row).value - assets.value / liabilities.value <= 0.005)
  {
  }

  /** Only the last row of each statement is read: statements that end in the same rows give the same metrics. */
  lemma MetricsReadLastRows(a: Data, b: Data)
    requires WC.LastRow(a.income) == WC.LastRow(b.income)
    requires WC.LastRow(a.balance) == WC.LastRow(b.balance)
    requires WC.LastRow(a.cashFlow) == WC.LastRow(b.cashFlow)
    ensures MetricsOf(a) == MetricsOf(b)
  {
  }

  /** An empty statement gives 0 for each of its base figures. */
  lemma EmptyStatementsReadZero(d: Data)
    ensures d.income == [] ==> var m := MetricsOf(d);
      m.revenue == m.grossProfit == m.operatingIncome == m.netIncome == 0.0
    ensures d.balance == [] ==> var m := MetricsOf(d);
      m.totalAssets == m.totalLiabilities == m.equity == m.cash == 0.0 && m.currentRatio == Finite(0.0)
    ensures d.cashFlow == [] ==> MetricsOf(d).operatingCashFlow == 0.0
  {
  }
}
