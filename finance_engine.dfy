/**
 * The dashboard's finance engine: from the three statements it builds the
 * liquidity, profitability, valuation, operating-leverage, capital-structure
 * and efficiency series, each with its latest value. The input rows are only
 * read.
 */
module FinanceEngine {
  import opened JsValues
  import opened Core
  import opened Statements
  import Profitability
  import Valuation
  import WC = WorkingCapital

  /**
   * The monthly rate equivalent to 12% a year, `1.12^(1/12) - 1`, as the
   * double-precision value the engine computes.
   */
  const MonthlyRate: real := 0.009488792934583046

  /** The `Month` column of a statement. */
  function MonthsOf(rows: seq<Row>): (r: seq<Cell>)
    ensures |r| == |rows| && forall i :: 0 <= i < |rows| ==> r[i] == MonthOf(rows[i])
  {
    seq(|rows|, i requires 0 <= i < |rows| => MonthOf(rows[i]))
  }

  /** The period labels: the income months, else the balance-sheet months, else none. */
  function Months(income: seq<Row>, balance: seq<Row>): (r: seq<Cell>)
    ensures income != [] ==> r == MonthsOf(income)
    ensures income == [] && balance != [] ==> r == MonthsOf(balance)
    ensures income == [] && balance == [] ==> r == []
  {
    if |income| > 0 then MonthsOf(income) else if |balance| > 0 then MonthsOf(balance) else []
  }

  /** `s.at(-1) || 0` on a series that may hold infinities or NaN: NaN becomes 0. */
  function LatestNum(s: seq<JsNum>): (r: JsNum)
    ensures s == [] ==> r == Finite(0.0)
    ensures s != [] && !s[|s| - 1].NaN? ==> r == s[|s| - 1]
    ensures !r.NaN?
  {
    if s == [] then Finite(0.0) else Or0(s[|s| - 1])
  }

  // ---------------------------------------------------------------------------
  // Liquidity
  // ---------------------------------------------------------------------------

  /** One working-capital value per balance-sheet row, from that row alone. */
  function WorkingCapitalSeries(balance: seq<Row>): (r: seq<real>)
    ensures |r| == |balance| && forall i :: 0 <= i < |balance| ==> r[i] == WC.WorkingCapital([balance[i]])
  {
    seq(|balance|, i requires 0 <= i < |balance| => WC.WorkingCapital([balance[i]]))
  }

  function CurrentRatioSeries(balance: seq<Row>): (r: seq<real>)
    ensures |r| == |balance| && forall i :: 0 <= i < |balance| ==> r[i] == WC.CurrentRatio([balance[i]])
  {
    seq(|balance|, i requires 0 <= i < |balance| => WC.CurrentRatio([balance[i]]))
  }

  function QuickRatioSeries(balance: seq<Row>): (r: seq<JsNum>)
    ensures |r| == |balance| && forall i :: 0 <= i < |balance| ==> r[i] == WC.QuickRatio([balance[i]])
  {
    seq(|balance|, i requires 0 <= i < |balance| => WC.QuickRatio([balance[i]]))
  }

  /** `Number(row[a] || row[b] || 0)`: the first truthy of two columns, read as a number (NaN kept). */
  function FirstOf(row: Row, a: string, b: string): (r: JsNum)
    ensures Truthy(Get(row, a)) ==> r == ToNumber(Get(row, a))
    ensures !Truthy(Get(row, a)) && Truthy(Get(row, b)) ==> r == ToNumber(Get(row, b))
    ensures !Truthy(Get(row, a)) && !Truthy(Get(row, b)) ==> r == Finite(0.0)
  {
    ToNumber(Or(Or(Get(row, a), Get(row, b)), Num(0.0)))
  }

  datatype Liquidity = Liquidity(
    workingCapital: seq<real>, currentRatio: seq<real>, quickRatio: seq<JsNum>,
    latestWorkingCapital: real, latestCurrentRatio: real, latestQuickRatio: JsNum,
    cash: JsNum, accountsReceivable: JsNum, currentLiabilities: JsNum)

  function BuildLiquidity(balance: seq<Row>): (l: Liquidity)
    ensures l.workingCapital == WorkingCapitalSeries(balance)
    ensures l.currentRatio == CurrentRatioSeries(balance)
    ensures l.quickRatio == QuickRatioSeries(balance)
    ensures l.latestWorkingCapital == Valuation.LastOr0(l.workingCapital)
    ensures l.latestCurrentRatio == Valuation.LastOr0(l.currentRatio)
    ensures l.latestQuickRatio == LatestNum(l.quickRatio)
    ensures var row := WC.LastRow(balance);
      l.cash == FirstOf(row, "Cash", "cash") &&
      l.accountsReceivable == FirstOf(row, "Accounts_Receivable", "Accounts Receivable") &&
      l.currentLiabilities == FirstOf(row, "Current_Liabilities", "Accounts_Payable")
  {
    var wc := WorkingCapitalSeries(balance);
    var cr := CurrentRatioSeries(balance);
    var qr := QuickRatioSeries(balance);
    var row := WC.LastRow(balance);
    Liquidity(wc, cr, qr, Valuation.LastOr0(wc), Valuation.LastOr0(cr), LatestNum(qr),
      FirstOf(row, "Cash", "cash"), FirstOf(row, "Accounts_Receivable", "Accounts Receivable"),
      FirstOf(row, "Current_Liabilities", "Accounts_Payable"))
  }

  // ---------------------------------------------------------------------------
  // Valuation: the per-month DCF series
  // ---------------------------------------------------------------------------

  /**
   * `dcfSeries`: entry i discounts the free cash flows from month i on back to
   * month i, the first of them by one period.
   */
  function DcfSeries(fcf: seq<real>, rate: real): (r: seq<real>)
    requires rate != -1.0
    ensures |r| == |fcf|
    ensures forall i :: 0 <= i < |fcf| ==> r[i] == Valuation.PresentValue(fcf[i..], rate)
  {
    SuffixPresentValues(fcf, rate);
    seq(|fcf|, i requires 0 <= i < |fcf| => Valuation.DiscountSum(fcf[i..], rate))
  }

  lemma SuffixPresentValues(fcf: seq<real>, rate: real)
    requires rate != -1.0
    ensures forall i :: 0 <= i < |fcf| ==> Valuation.DiscountSum(fcf[i..], rate) == Valuation.PresentValue(fcf[i..], rate)
  {
    forall i | 0 <= i < |fcf| {
      Valuation.DiscountSumIsPresentValue(fcf[i..], rate);
    }
  }

  /** Each DCF entry is this month's cash flow plus next month's DCF, discounted by one period; the last is the last cash flow discounted once. */
  lemma DcfSeriesRecurrence(fcf: seq<real>, rate: real, i: nat)
    requires rate != -1.0 && i < |fcf|
    ensures i + 1 < |fcf| ==> DcfSeries(fcf, rate)[i] == (fcf[i] + DcfSeries(fcf, rate)[i + 1]) / (1.0 + rate)
    ensures i + 1 == |fcf| ==> DcfSeries(fcf, rate)[i] == fcf[i] / (1.0 + rate)
  {
    assert fcf[i..][1..] == fcf[i + 1..];
    if i + 1 == |fcf| {
      assert fcf[i + 1..] == [];
      assert Valuation.PresentValue(fcf[i + 1..], rate) == 0.0;
    }
  }

  datatype ValuationSection = ValuationSection(freeCashFlow: seq<real>, dcfSeries: seq<real>, latestFreeCashFlow: real, latestDiscountedCF: real)

  function BuildValuation(cashflow: seq<Row>): (v: ValuationSection)
    ensures v.freeCashFlow == Valuation.FreeCashFlowSeries(cashflow)
    ensures v.dcfSeries == DcfSeries(v.freeCashFlow, MonthlyRate)
    ensures v.latestFreeCashFlow == Valuation.LastOr0(v.freeCashFlow) && v.latestDiscountedCF == Valuation.LastOr0(v.dcfSeries)
  {
    var fcf := Valuation.FreeCashFlowSeries(cashflow);
    var dcf := DcfSeries(fcf, MonthlyRate);
    ValuationSection(fcf, dcf, Valuation.LastOr0(fcf), Valuation.LastOr0(dcf))
  }

  // ---------------------------------------------------------------------------
  // Operating leverage
  // ---------------------------------------------------------------------------

  /** `(cur - prev) / (Math.abs(prev) || 1)`: the relative change, over 1 when the previous value is 0. */
  function RelativeChange(cur: real, prev: real): (r: real)
    ensures prev == 0.0 ==> r == cur
    ensures prev != 0.0 ==> r == GrowthRate(cur, prev)
    ensures r == 0.0 <==> cur == prev
  {
    var d := if Abs(prev) != 0.0 then Abs(prev) else 1.0;
    var r := (cur - prev) / d;
    assert r * d == cur - prev;
    r
  }

  /** EBIT of an income row: gross profit less operating expenses. */
  function Ebit(row: Row): real {
    NumberOr0(Get(row, "Gross_Profit")) - NumberOr0(Get(row, "Operating_Expenses"))
  }

  function RevenueOf(row: Row): real {
    NumberOr0(Get(row, "Revenue"))
  }

  /** One period's degree of operating leverage from revenue and EBIT now and one period before. */
  function Dol(rev: real, prevRev: real, ebit: real, prevEbit: real): (r: real)
    ensures RelativeChange(rev, prevRev) == 0.0 ==> r == 0.0
    ensures RelativeChange(rev, prevRev) != 0.0 ==> r * RelativeChange(rev, prevRev) == RelativeChange(ebit, prevEbit)
  {
    var revGrowth := RelativeChange(rev, prevRev);
    var ebitGrowth := RelativeChange(ebit, prevEbit);
    if revGrowth == 0.0 then 0.0
    else
      var q := ebitGrowth / revGrowth;
      assert q * revGrowth == ebitGrowth;
      q
  }

  /**
   * The degree of operating leverage per period: EBIT growth over revenue
   * growth, 0 for the first period and whenever revenue did not change.
   */
  function DolSeries(income: seq<Row>): (r: seq<real>)
    ensures |r| == |income|
    ensures |income| > 0 ==> r[0] == 0.0
    ensures forall i :: 0 < i < |income| ==>
      r[i] == Dol(RevenueOf(income[i]), RevenueOf(income[i - 1]), Ebit(income[i]), Ebit(income[i - 1]))
  {
    seq(|income|, i requires 0 <= i < |income| =>
      if i == 0 then 0.0 else Dol(RevenueOf(income[i]), RevenueOf(income[i - 1]), Ebit(income[i]), Ebit(income[i - 1])))
  }

  /** A period whose revenue equals the previous period's has leverage 0. */
  lemma DolFlatRevenue(income: seq<Row>, i: nat)
    requires 0 < i < |income| && RevenueOf(income[i]) == RevenueOf(income[i - 1])
    ensures DolSeries(income)[i] == 0.0
  {
  }

  // ---------------------------------------------------------------------------
  // Capital structure and efficiency
  // ---------------------------------------------------------------------------

  /** `Number(cell || 1)`: a falsy cell reads 1; truthy text that is 0 or no number reads 0 or NaN. */
  function NumberOr1(c: Cell): (r: JsNum)
    ensures !Truthy(c) ==> r == Finite(1.0)
    ensures Truthy(c) ==> r == ToNumber(c)
  {
    ToNumber(Or(c, Num(1.0)))
  }

  /** `(Loans + Accounts_Payable) / (Equity || 1)` per balance-sheet row. */
  function DebtToEquitySeries(balance: seq<Row>): (r: seq<JsNum>)
    ensures |r| == |balance|
    ensures forall i :: 0 <= i < |balance| ==>
      r[i] == Div(NumberOr0(Get(balance[i], "Loans")) + NumberOr0(Get(balance[i], "Accounts_Payable")), NumberOr1(Get(balance[i], "Equity")))
  {
    seq(|balance|, i requires 0 <= i < |balance| =>
      Div(NumberOr0(Get(balance[i], "Loans")) + NumberOr0(Get(balance[i], "Accounts_Payable")), NumberOr1(Get(balance[i], "Equity"))))
  }

  /** `Equity / (Total_Assets || 1)` per balance-sheet row. */
  function EquityRatioSeries(balance: seq<Row>): (r: seq<JsNum>)
    ensures |r| == |balance|
    ensures forall i :: 0 <= i < |balance| ==>
      r[i] == Div(NumberOr0(Get(balance[i], "Equity")), NumberOr1(Get(balance[i], "Total_Assets")))
  {
    seq(|balance|, i requires 0 <= i < |balance| =>
      Div(NumberOr0(Get(balance[i], "Equity")), NumberOr1(Get(balance[i], "Total_Assets"))))
  }

  /** An equity cell holding the text "0" is truthy, so it is not replaced by 1 and the ratio is not finite. */
  lemma DebtToEquityZeroText(balance: seq<Row>, i: nat)
    requires i < |balance| && Get(balance[i], "Equity") == Str("0")
    ensures !DebtToEquitySeries(balance)[i].Finite?
  {
    assert StringToNumber("0") == Finite(0.0);
  }

  /** The cell `column` of the balance-sheet row at the same index, `undefined` past its end. */
  function BalanceAt(balance: seq<Row>, i: nat, column: string): (c: Cell)
    ensures i >= |balance| ==> c == Missing
    ensures i < |balance| ==> c == Get(balance[i], column)
  {
    if i < |balance| then Get(balance[i], column) else Missing
  }

  /**
   * Revenue of income row i over `column` of balance row i (`|| 1`): one entry per
   * income row, and revenue itself where the balance sheet has no such row.
   */
  function TurnoverSeries(income: seq<Row>, balance: seq<Row>, column: string): (r: seq<JsNum>)
    ensures |r| == |income|
    ensures forall i :: 0 <= i < |income| ==> r[i] == Div(RevenueOf(income[i]), NumberOr1(BalanceAt(balance, i, column)))
    ensures forall i :: |balance| <= i < |income| ==> r[i] == Finite(RevenueOf(income[i]))
  {
    seq(|income|, i requires 0 <= i < |income| => Div(RevenueOf(income[i]), NumberOr1(BalanceAt(balance, i, column))))
  }

  datatype Report = Report(
    datasets: Data,
    months: seq<Cell>,
    liquidity: Liquidity,
    profitability: Profitability.ProfitabilityBundle,
    latestGrossMargin: real, latestOperatingMargin: real, latestNetMargin: real, latestRoic: real,
    valuation: ValuationSection,
    degreeOfOperatingLeverage: seq<real>, latestDegreeOfOperatingLeverage: real,
    debtToEquity: seq<JsNum>, equityRatio: seq<JsNum>, latestDebtToEquity: JsNum, latestEquityRatio: JsNum,
    receivablesTurnover: seq<JsNum>, assetTurnover: seq<JsNum>, latestReceivablesTurnover: JsNum, latestAssetTurnover: JsNum)

  /**
   * `runFinanceEngine(financeData)`: every section over the statements (absent
   * ones read as empty), the statements themselves returned unchanged.
   */
  function RunFinanceEngine(input: RawDatasets): (r: Report)
    ensures r.datasets == Normalize(input)
    ensures var d := r.datasets;
      r.months == Months(d.income, d.balance) &&
      r.liquidity == BuildLiquidity(d.balance) &&
      r.profitability == Profitability.BuildProfitabilityEngine(d.income, d.balance) &&
      r.valuation == BuildValuation(d.cashFlow) &&
      r.degreeOfOperatingLeverage == DolSeries(d.income) &&
      r.debtToEquity == DebtToEquitySeries(d.balance) &&
      r.equityRatio == EquityRatioSeries(d.balance) &&
      r.receivablesTurnover == TurnoverSeries(d.income, d.balance, "Accounts_Receivable") &&
      r.assetTurnover == TurnoverSeries(d.income, d.balance, "Total_Assets")
    ensures r.latestGrossMargin == Valuation.LastOr0(r.profitability.grossMargin)
    ensures r.latestOperatingMargin == Valuation.LastOr0(r.profitability.operatingMargin)
    ensures r.latestNetMargin == Valuation.LastOr0(r.profitability.netMargin)
    ensures r.latestRoic == Valuation.LastOr0(r.profitability.roic)
    ensures r.latestDegreeOfOperatingLeverage == Valuation.LastOr0(r.degreeOfOperatingLeverage)
    ensures r.latestDebtToEquity == LatestNum(r.debtToEquity) && r.latestEquityRatio == LatestNum(r.equityRatio)
    ensures r.latestReceivablesTurnover == LatestNum(r.receivablesTurnover)
    ensures r.latestAssetTurnover == LatestNum(r.assetTurnover)
  {
    var d := Normalize(input);
    var prof := Profitability.BuildProfitabilityEngine(d.income, d.balance);
    var dol := DolSeries(d.income);
    var de := DebtToEquitySeries(d.balance);
    var er := EquityRatioSeries(d.balance);
    var rt := TurnoverSeries(d.income, d.balance, "Accounts_Receivable");
    var at := TurnoverSeries(d.income, d.balance, "Total_Assets");
    Report(d, Months(d.income, d.balance), BuildLiquidity(d.balance),
      prof, Valuation.LastOr0(prof.grossMargin), Valuation.LastOr0(prof.operatingMargin), Valuation.LastOr0(prof.netMargin), Valuation.LastOr0(prof.roic),
      BuildValuation(d.cashFlow),
      dol, Valuation.LastOr0(dol),
      de, er, LatestNum(de), LatestNum(er),
      rt, at, LatestNum(rt), LatestNum(at))
  }

  /** The series are aligned: per balance row for liquidity and capital structure, per income row for margins, leverage and efficiency. */
  lemma ReportLengths(input: RawDatasets)
    ensures var r := RunFinanceEngine(input); var d := Normalize(input);
      |r.liquidity.workingCapital| == |r.liquidity.quickRatio| == |r.debtToEquity| == |d.balance| &&
      |r.profitability.grossMargin| == |r.degreeOfOperatingLeverage| == |r.assetTurnover| == |d.income| &&
      |r.valuation.dcfSeries| == |d.cashFlow|
  {
  }
}
