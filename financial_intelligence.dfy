/**
 * The server's metric helpers: margin, return and leverage series over the
 * statements of a company, the plain-text summary of the loaded statements,
 * and the dispatch that computes one metric by name without a language model.
 */
module FinancialIntelligence {
  import opened Wrappers
  import opened JsValues
  import opened JsText
  import opened Core
  import opened Statements
  import opened Enhancer

  /** `parseFloat(row[key]) || 0`. */
  function Figure(row: Row, key: string): real {
    ParseFloatOr0(Get(row, key))
  }

  // ---------------------------------------------------------------------------
  // Series
  // ---------------------------------------------------------------------------

  /** `income.map(row => revenue === 0 ? 0 : (part / revenue) * 100)` for the column `part`. */
  function MarginSeries(income: seq<Row>, part: string): (s: seq<real>)
    ensures |s| == |income|
  {
    seq(|income|, i requires 0 <= i < |income| => Pct(Figure(income[i], part), Figure(income[i], "Revenue")))
  }

  function NetMarginSeries(income: seq<Row>): seq<real> {
    MarginSeries(income, "Net_Income")
  }

  function OperatingMarginSeries(income: seq<Row>): seq<real> {
    MarginSeries(income, "Operating_Income")
  }

  function GrossMarginSeries(income: seq<Row>): seq<real> {
    MarginSeries(income, "Gross_Profit")
  }

  /**
   * Every margin series has one element per income row: 0 where revenue
   * reads as 0, and otherwise the column as a percentage of revenue.
   */
  lemma MarginSeriesMeaning(income: seq<Row>, part: string, i: int)
    requires 0 <= i < |income|
    ensures var m := MarginSeries(income, part)[i]; var revenue := Figure(income[i], "Revenue");
      (revenue == 0.0 ==> m == 0.0) && (revenue != 0.0 ==> m * revenue == Figure(income[i], part) * 100.0)
  {
    PctMeaning(Figure(income[i], part), Figure(income[i], "Revenue"));
  }

  /** Return on invested capital in percent: `nopat / investedCapital * 100`, 0 when there is no invested capital. */
  function RoicAt(incomeRow: Row, balanceRow: Row): real {
    var nopat := Figure(incomeRow, "Operating_Income") * 0.75;
    var investedCapital := Figure(balanceRow, "Total_Assets") - Figure(balanceRow, "Accounts_Payable");
    if investedCapital == 0.0 then 0.0 else (nopat / investedCapital) * 100.0
  }

  /** `calculateROIC`: one element per period both statements have. */
  function RoicSeries(income: seq<Row>, balance: seq<Row>): (s: seq<real>)
    ensures |s| == if |income| < |balance| then |income| else |balance|
  {
    var n := if |income| < |balance| then |income| else |balance|;
    seq(n, i requires 0 <= i < n => RoicAt(income[i], balance[i]))
  }

  /**
   * Element i of the ROIC series is 0 when total assets less payables is 0,
   * and otherwise three quarters of operating income (a 25% tax rate) as a
   * percentage of that invested capital.
   */
  lemma RoicMeaning(income: seq<Row>, balance: seq<Row>, i: int)
    requires 0 <= i < |income| && i < |balance|
    ensures var r := RoicSeries(income, balance)[i];
      var capital := Figure(balance[i], "Total_Assets") - Figure(balance[i], "Accounts_Payable");
      (capital == 0.0 ==> r == 0.0) && (capital != 0.0 ==> r * capital == Figure(income[i], "Operating_Income") * 75.0)
  {
    var capital := Figure(balance[i], "Total_Assets") - Figure(balance[i], "Accounts_Payable");
    var nopat := Figure(income[i], "Operating_Income") * 0.75;
    if capital != 0.0 {
      assert (nopat / capital) * 100.0 * capital == nopat * 100.0;
    }
  }

  /**
   * The equity `calculateROE` divides by, as written:
   * `parseFloat(Total_Assets) || 0 - parseFloat(Total_Liabilities) || 0`
   * groups as `assets || (0 - liabilities) || 0`, so it is the total assets
   * whenever they read as a non-zero number.
   */
  function RoeEquityAsWritten(row: Row): real {
    var assets := ParseFloat(Get(row, "Total_Assets"));
    var liabilities := ParseFloat(Get(row, "Total_Liabilities"));
    if NumTruthy(assets) then assets.value
    else if NumTruthy(liabilities) then 0.0 - liabilities.value
    else 0.0
  }

  /** `calculateROE` as written. */
  function RoeSeriesAsWritten(income: seq<Row>, balance: seq<Row>): (s: seq<real>)
    ensures |s| == if |income| < |balance| then |income| else |balance|
  {
    var n := if |income| < |balance| then |income| else |balance|;
    seq(n, i requires 0 <= i < n => Pct(Figure(income[i], "Net_Income"), RoeEquityAsWritten(balance[i])))
  }

  /**
   * The as-written equity is the total assets when they read as a non-zero
   * number, and otherwise minus the total liabilities (0 when those do not
   * read as a non-zero number either).
   */
  lemma RoeEquityAsWrittenMeaning(row: Row)
    ensures Figure(row, "Total_Assets") != 0.0 ==> RoeEquityAsWritten(row) == Figure(row, "Total_Assets")
    ensures Figure(row, "Total_Assets") == 0.0 ==> RoeEquityAsWritten(row) == -Figure(row, "Total_Liabilities")
  {
  }

  /** Equity as the helpers evidently mean it: total assets less total liabilities. */
  function Equity(row: Row): real {
    Figure(row, "Total_Assets") - Figure(row, "Total_Liabilities")
  }

  /** Return on equity with the intended equity. */
  function RoeSeries(income: seq<Row>, balance: seq<Row>): (s: seq<real>)
    ensures |s| == if |income| < |balance| then |income| else |balance|
  {
    var n := if |income| < |balance| then |income| else |balance|;
    seq(n, i requires 0 <= i < n => Pct(Figure(income[i], "Net_Income"), Equity(balance[i])))
  }

  /** Element i of the corrected ROE series is net income as a percentage of assets less liabilities, 0 without equity. */
  lemma RoeMeaning(income: seq<Row>, balance: seq<Row>, i: int)
    requires 0 <= i < |income| && i < |balance|
    ensures var r := RoeSeries(income, balance)[i]; var equity := Figure(balance[i], "Total_Assets") - Figure(balance[i], "Total_Liabilities");
      (equity == 0.0 ==> r == 0.0) && (equity != 0.0 ==> r * equity == Figure(income[i], "Net_Income") * 100.0)
  {
    PctMeaning(Figure(income[i], "Net_Income"), Equity(balance[i]));
  }

  /**
   * The discrepancy: with assets 100, liabilities 60 and net income 10, the
   * as-written ROE is 10% (net income over assets) where 25% is meant.
   */
  lemma RoeAsWrittenDiffers()
    ensures var income := [map["Net_Income" := Num(10.0)]];
      var balance := [map["Total_Assets" := Num(100.0), "Total_Liabilities" := Num(60.0)]];
      RoeSeriesAsWritten(income, balance) == [10.0] && RoeSeries(income, balance) == [25.0]
  {
    var income := [map["Net_Income" := Num(10.0)]];
    var balance := [map["Total_Assets" := Num(100.0), "Total_Liabilities" := Num(60.0)]];
    assert Figure(income[0], "Net_Income") == 10.0;
    assert Figure(balance[0], "Total_Assets") == 100.0;
    assert Figure(balance[0], "Total_Liabilities") == 60.0;
    assert RoeSeriesAsWritten(income, balance)[0] == 10.0;
    assert RoeSeries(income, balance)[0] == 25.0;
  }

  /**
   * The equity `calculateDebtToEquity` divides by, as written:
   * `parseFloat(Total_Assets) || 0 - liabilities` groups as
   * `assets || (0 - liabilities)`.
   */
  function DebtEquityAsWritten(row: Row): real {
    var assets := ParseFloat(Get(row, "Total_Assets"));
    if NumTruthy(assets) then assets.value else 0.0 - Figure(row, "Total_Liabilities")
  }

  /** `calculateDebtToEquity` as written. */
  function DebtToEquitySeriesAsWritten(balance: seq<Row>): (s: seq<real>)
    ensures |s| == |balance|
  {
    seq(|balance|, i requires 0 <= i < |balance| => Ratio(Figure(balance[i], "Total_Liabilities"), DebtEquityAsWritten(balance[i])))
  }

  /** Debt to equity with the intended equity. */
  function DebtToEquitySeries(balance: seq<Row>): (s: seq<real>)
    ensures |s| == |balance|
  {
    seq(|balance|, i requires 0 <= i < |balance| => Ratio(Figure(balance[i], "Total_Liabilities"), Equity(balance[i])))
  }

  /**
   * The as-written equity is the total assets when they read as a non-zero
   * number, and otherwise minus the liabilities; the series is 0 where that
   * is 0.
   */
  lemma DebtToEquityAsWrittenMeaning(balance: seq<Row>, i: int)
    requires 0 <= i < |balance|
    ensures Figure(balance[i], "Total_Assets") != 0.0 ==> DebtEquityAsWritten(balance[i]) == Figure(balance[i], "Total_Assets")
    ensures Figure(balance[i], "Total_Assets") == 0.0 ==> DebtEquityAsWritten(balance[i]) == -Figure(balance[i], "Total_Liabilities")
    ensures DebtEquityAsWritten(balance[i]) == 0.0 ==> DebtToEquitySeriesAsWritten(balance)[i] == 0.0
  {
  }

  /** Element i of the corrected series is liabilities over assets less liabilities, 0 without equity. */
  lemma DebtToEquityMeaning(balance: seq<Row>, i: int)
    requires 0 <= i < |balance|
    ensures var r := DebtToEquitySeries(balance)[i]; var equity := Figure(balance[i], "Total_Assets") - Figure(balance[i], "Total_Liabilities");
      (equity == 0.0 ==> r == 0.0) && (equity != 0.0 ==> r * equity == Figure(balance[i], "Total_Liabilities"))
  {
    RatioMeaning(Figure(balance[i], "Total_Liabilities"), Equity(balance[i]));
  }

  /** The discrepancy: with assets 100 and liabilities 60 the as-written ratio is 0.6 where 1.5 is meant. */
  lemma DebtToEquityAsWrittenDiffers()
    ensures var balance := [map["Total_Assets" := Num(100.0), "Total_Liabilities" := Num(60.0)]];
      DebtToEquitySeriesAsWritten(balance) == [0.6] && DebtToEquitySeries(balance) == [1.5]
  {
    var balance := [map["Total_Assets" := Num(100.0), "Total_Liabilities" := Num(60.0)]];
    assert Figure(balance[0], "Total_Assets") == 100.0;
    assert Figure(balance[0], "Total_Liabilities") == 60.0;
    assert DebtToEquitySeriesAsWritten(balance)[0] == 0.6;
    assert DebtToEquitySeries(balance)[0] == 1.5;
  }

  /**
   * Where a period has no liabilities the precedence slip is harmless: the
   * as-written ROE and debt to equity of that period equal the intended ones.
   * With liabilities they differ, as the two counterexamples above show.
   */
  lemma AsWrittenAgreesWithoutLiabilities(income: seq<Row>, balance: seq<Row>, i: int)
    requires 0 <= i < |income| && i < |balance|
    requires Figure(balance[i], "Total_Liabilities") == 0.0
    ensures RoeSeriesAsWritten(income, balance)[i] == RoeSeries(income, balance)[i]
    ensures DebtToEquitySeriesAsWritten(balance)[i] == DebtToEquitySeries(balance)[i]
  {
    RoeEquityAsWrittenMeaning(balance[i]);
    assert RoeEquityAsWritten(balance[i]) == Equity(balance[i]);
  }

  // ---------------------------------------------------------------------------
  // The text summary of the loaded statements
  // ---------------------------------------------------------------------------

  /** The decimal text of an integer. */
  function IntText(n: int): string {
    if n < 0 then "-" + NatToString(-n) else NatToString(n)
  }

  /** `${cell || 'N/A'}`: a falsy cell is shown as `N/A`. */
  function Shown(c: Cell): (t: string)
    ensures !Truthy(c) ==> t == "N/A"
    ensures c.Str? && Truthy(c) ==> t == c.s
  {
    match c
    case Str(s) => if s == "" then "N/A" else s
    case Num(n) => if n == 0.0 then "N/A" else IntText(n.Floor)
    case _ => "N/A"
  }

  /** Texts appended one after the other, left to right. */
  function Concat(pieces: seq<string>): string {
    if pieces == [] then "" else Concat(pieces[..|pieces| - 1]) + pieces[|pieces| - 1]
  }

  const ContextHeader := "## Available Financial Data\n\n"
  const ContextFooter := "\nUse this data to answer specific financial questions accurately."

  /** `- <caption>: <shown cell>` and a line break. */
  function FieldLine(caption: string, row: Row, key: string): string {
    "- " + caption + ": " + Shown(Get(row, key)) + "\n"
  }

  /** `<heading><n> periods` and a line break. */
  function CountLine(heading: string, n: nat): string {
    heading + NatToString(n) + " periods\n"
  }

  const IncomeHeading := "**Income Statement**: "
  const BalanceHeading := "\n**Balance Sheet**: "
  const CashFlowHeading := "\n**Cash Flow**: "

  /** The income section: its period count and the last row's revenue and net income; nothing when empty. */
  function IncomePieces(income: seq<Row>): (p: seq<string>)
    ensures income == [] <==> p == []
    ensures |p| == if income == [] then 0 else 3
  {
    if income == [] then []
    else
      var last := income[|income| - 1];
      [CountLine(IncomeHeading, |income|),
       FieldLine("Latest Revenue", last, "Revenue"), FieldLine("Latest Net Income", last, "Net_Income")]
  }

  /** The balance-sheet section, opened by a blank line; nothing when empty. */
  function BalancePieces(balance: seq<Row>): (p: seq<string>)
    ensures balance == [] <==> p == []
    ensures |p| == if balance == [] then 0 else 3
  {
    if balance == [] then []
    else
      var last := balance[|balance| - 1];
      [CountLine(BalanceHeading, |balance|),
       FieldLine("Latest Total Assets", last, "Total_Assets"), FieldLine("Latest Total Liabilities", last, "Total_Liabilities")]
  }

  /** The cash-flow section, opened by a blank line; nothing when empty. */
  function CashFlowPieces(cashFlow: seq<Row>): (p: seq<string>)
    ensures cashFlow == [] <==> p == []
    ensures |p| == if cashFlow == [] then 0 else 2
  {
    if cashFlow == [] then []
    else
      [CountLine(CashFlowHeading, |cashFlow|),
       FieldLine("Latest Operating Cash Flow", cashFlow[|cashFlow| - 1], "Operating_Cash_Flow")]
  }

  /** The pieces of the summary in the order they are appended. */
  function ContextPieces(d: Data): seq<string> {
    [ContextHeader] + IncomePieces(d.income) + BalancePieces(d.balance) + CashFlowPieces(d.cashFlow) + [ContextFooter]
  }

  /** Appending one more piece appends its text. */
  lemma ConcatAppend(pieces: seq<string>, piece: string)
    ensures Concat(pieces + [piece]) == Concat(pieces) + piece
  {
    assert (pieces + [piece])[..|pieces|] == pieces;
  }

  /** `buildFinancialContext`: the summary text is its pieces appended in order. */
  method BuildFinancialContext(raw: RawDatasets) returns (context: string)
    ensures context == Concat(ContextPieces(Normalize(raw)))
  {
    var d := Normalize(raw);
    ghost var pieces: seq<string> := [];
    context, pieces := Append("", pieces, ContextHeader);
    ghost var p1 := pieces;
    context, pieces := AppendIncome(context, pieces, d.income);
    ghost var p2 := pieces;
    context, pieces := AppendBalance(context, pieces, d.balance);
    ghost var p3 := pieces;
    context, pieces := AppendCashFlow(context, pieces, d.cashFlow);
    context, pieces := Append(context, pieces, ContextFooter);
    assert p2 == [ContextHeader] + IncomePieces(d.income);
    assert p3 == [ContextHeader] + IncomePieces(d.income) + BalancePieces(d.balance);
  }

  /** `context += piece`, with the pieces appended so far. */
  method Append(context: string, ghost pieces: seq<string>, piece: string)
    returns (text: string, ghost after: seq<string>)
    requires context == Concat(pieces)
    ensures text == context + piece && after == pieces + [piece] && text == Concat(after)
  {
    ConcatAppend(pieces, piece);
    text, after := context + piece, pieces + [piece];
  }

  /** The `if (income.length > 0)` block. */
  method AppendIncome(context: string, ghost pieces: seq<string>, income: seq<Row>)
    returns (text: string, ghost after: seq<string>)
    requires context == Concat(pieces)
    ensures after == pieces + IncomePieces(income) && text == Concat(after)
  {
    text, after := context, pieces;
    if |income| > 0 {
      var last := income[|income| - 1];
      text, after := Append(text, after, CountLine(IncomeHeading, |income|));
      text, after := Append(text, after, FieldLine("Latest Revenue", last, "Revenue"));
      text, after := Append(text, after, FieldLine("Latest Net Income", last, "Net_Income"));
    }
  }

  /** The `if (balance.length > 0)` block. */
  method AppendBalance(context: string, ghost pieces: seq<string>, balance: seq<Row>)
    returns (text: string, ghost after: seq<string>)
    requires context == Concat(pieces)
    ensures after == pieces + BalancePieces(balance) && text == Concat(after)
  {
    text, after := context, pieces;
    if |balance| > 0 {
      var last := balance[|balance| - 1];
      text, after := Append(text, after, CountLine(BalanceHeading, |balance|));
      text, after := Append(text, after, FieldLine("Latest Total Assets", last, "Total_Assets"));
      text, after := Append(text, after, FieldLine("Latest Total Liabilities", last, "Total_Liabilities"));
    }
  }

  /** The `if (cashflow.length > 0)` block. */
  method AppendCashFlow(context: string, ghost pieces: seq<string>, cashFlow: seq<Row>)
    returns (text: string, ghost after: seq<string>)
    requires context == Concat(pieces)
    ensures after == pieces + CashFlowPieces(cashFlow) && text == Concat(after)
  {
    text, after := context, pieces;
    if |cashFlow| > 0 {
      var last := cashFlow[|cashFlow| - 1];
      text, after := Append(text, after, CountLine(CashFlowHeading, |cashFlow|));
      text, after := Append(text, after, FieldLine("Latest Operating Cash Flow", last, "Operating_Cash_Flow"));
    }
  }

  /**
   * The summary always starts with the header and ends with the usage line;
   * between them are three pieces for a non-empty income statement, three
   * for a non-empty balance sheet and two for a non-empty cash-flow
   * statement, in that order, and nothing for an empty one.
   */
  lemma ContextLayout(d: Data)
    ensures var p := ContextPieces(d);
      p[0] == ContextHeader && p[|p| - 1] == ContextFooter
      && |p| == 2 + (if d.income == [] then 0 else 3) + (if d.balance == [] then 0 else 3) + (if d.cashFlow == [] then 0 else 2)
      && (d.income != [] ==> p[1] == CountLine(IncomeHeading, |d.income|))
  {
    Framed(ContextHeader, IncomePieces(d.income), BalancePieces(d.balance), CashFlowPieces(d.cashFlow), ContextFooter);
  }

  /** Three sections framed by a first and a last piece: the length, both ends, and the piece after the first. */
  lemma Framed(first: string, a: seq<string>, b: seq<string>, c: seq<string>, last: string)
    ensures var p := [first] + a + b + c + [last];
      |p| == |a| + |b| + |c| + 2 && p[0] == first && p[|p| - 1] == last && (a != [] ==> p[1] == a[0])
  {
  }

  /** The field line of a falsy cell shows `N/A`; that of non-empty text shows the text. */
  lemma FieldLineShown(caption: string, row: Row, key: string)
    ensures !Truthy(Get(row, key)) ==> FieldLine(caption, row, key) == "- " + caption + ": N/A\n"
    ensures Get(row, key).Str? && Truthy(Get(row, key)) ==> FieldLine(caption, row, key) == "- " + caption + ": " + Get(row, key).s + "\n"
  {
  }

  // ---------------------------------------------------------------------------
  // The dispatch
  // ---------------------------------------------------------------------------

  /** The metric names the dispatch knows, lower-cased. */
  const MetricNames: set<string> := {"netmargin", "operatingmargin", "grossmargin", "roic", "roe", "debttoequity"}

  /** The dispatch's answer: an error for an unknown name, or the series with its period count and latest value. */
  datatype MetricOutcome =
    | UnknownMetric(error: string)
    | MetricResult(metric: string, company: string, result: seq<real>, periods: nat, latest: Option<real>)

  /** `result[result.length - 1] || null`: no latest value for an empty series or a last value of 0. */
  function LatestOrNull(result: seq<real>): (l: Option<real>)
    ensures l.None? <==> result == [] || result[|result| - 1] == 0.0
    ensures l.Some? ==> l.value == result[|result| - 1]
  {
    if result == [] || result[|result| - 1] == 0.0 then None else Some(result[|result| - 1])
  }

  /**
   * `calculateMetric` over loaded statements: the name is matched
   * case-insensitively; an unknown name gives `Unknown metric: <name>`;
   * otherwise the series of that metric as the helpers compute it (for ROE
   * and debt to equity with the equity as written), the number of income
   * periods and the latest value.
   */
  method CalculateMetric(metric: string, company: string, raw: RawDatasets) returns (outcome: MetricOutcome)
    ensures outcome.UnknownMetric? <==> ToLower(metric) !in MetricNames
    ensures outcome.UnknownMetric? ==> outcome.error == "Unknown metric: " + metric
    ensures outcome.MetricResult? ==>
      var d := Normalize(raw); var name := ToLower(metric);
      outcome.metric == metric && outcome.company == company && outcome.periods == |d.income|
      && outcome.latest == LatestOrNull(outcome.result)
      && (name == "netmargin" ==> outcome.result == NetMarginSeries(d.income))
      && (name == "operatingmargin" ==> outcome.result == OperatingMarginSeries(d.income))
      && (name == "grossmargin" ==> outcome.result == GrossMarginSeries(d.income))
      && (name == "roic" ==> outcome.result == RoicSeries(d.income, d.balance))
      && (name == "roe" ==> outcome.result == RoeSeriesAsWritten(d.income, d.balance))
      && (name == "debttoequity" ==> outcome.result == DebtToEquitySeriesAsWritten(d.balance))
  {
    var d := Normalize(raw);
    var income, balance := d.income, d.balance;
    var result: seq<real>;
    var name := ToLower(metric);
    if name == "netmargin" {
      result := NetMarginSeries(income);
    } else if name == "operatingmargin" {
      result := OperatingMarginSeries(income);
    } else if name == "grossmargin" {
      result := GrossMarginSeries(income);
    } else if name == "roic" {
      result := RoicSeries(income, balance);
    } else if name == "roe" {
      result := RoeSeriesAsWritten(income, balance);
    } else if name == "debttoequity" {
      result := DebtToEquitySeriesAsWritten(balance);
    } else {
      return UnknownMetric("Unknown metric: " + metric);
    }
    outcome := MetricResult(metric, company, result, |income|, LatestOrNull(result));
  }
}
