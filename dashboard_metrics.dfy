/**
 * The figures the dashboard computes for the narrative after an edit has been
 * recomputed: revenue volatility and trend over the income statement, the
 * current ratio and debt to equity of the last balance-sheet row, and the
 * average and last net income. The average gross margin is not computed there
 * (the name is never bound), so it is an input here.
 */
module DashboardMetrics {
  import opened Wrappers
  import opened JsValues
  import opened Core
  import opened Enhancer
  import opened Recompute

  /** The figures, in the order the dashboard returns them. */
  datatype NarrativeFigures = NarrativeFigures(
    avgGrossMargin: Option<JsNum>, revenueVolatility: real, revenueTrend: real,
    currentRatio: real, debtToEquity: JsNum, netIncomeAvg: real, netIncomeLast: real)

  /** The cleaned revenue of every income row. */
  function Revenues(income: seq<Row>): (revs: seq<real>)
    ensures |revs| == |income|
  {
    seq(|income|, i requires 0 <= i < |income| => Clean(income[i], "Revenue"))
  }

  /** The absolute month-on-month revenue change, in percent, of every row after the first. */
  function AbsChanges(revs: seq<real>): (c: seq<real>)
    ensures |c| == if revs == [] then 0 else |revs| - 1
  {
    if |revs| < 2 then [] else seq(|revs| - 1, k requires 0 <= k < |revs| - 1 => Abs(GrowthPct(revs[k + 1], revs[k])))
  }

  /** The arithmetic mean, 0 for no values. */
  function Mean(xs: seq<real>): real {
    if xs == [] then 0.0 else Total(xs) / |xs| as real
  }

  /** Revenue volatility: the mean absolute month-on-month change. */
  function RevenueVolatility(income: seq<Row>): real {
    Mean(AbsChanges(Revenues(income)))
  }

  /** Revenue trend: the change from the first to the last revenue, in percent of the first (or of 1 when it is 0). */
  function RevenueTrend(income: seq<Row>): real {
    TrendOf(Revenues(income))
  }

  /** The change from the first to the last value, in percent of the first (or of 1 when it is 0); 0 for fewer than two. */
  function TrendOf(revs: seq<real>): real {
    if |revs| >= 2 then
      var base := if Abs(revs[0]) != 0.0 then Abs(revs[0]) else 1.0;
      ((revs[|revs| - 1] - revs[0]) / base) * 100.0
    else 0.0
  }

  /** The last balance-sheet row, or the empty row when there is none. */
  function LatestRow(balance: seq<Row>): Row {
    if balance == [] then map[] else balance[|balance| - 1]
  }

  /** Current liabilities: the row's `Current_Liabilities`, or its payables when that reads as 0. */
  function LiabilitiesOf(row: Row): real {
    var cl := NumberOr0(Get(row, "Current_Liabilities"));
    if cl != 0.0 then cl else NumberOr0(Get(row, "Accounts_Payable"))
  }

  /** Current ratio of a row: current assets over current liabilities, 0 when there are none. */
  function CurrentRatioOf(row: Row): real {
    var cl := LiabilitiesOf(row);
    if cl != 0.0 then NumberOr0(Get(row, "Current_Assets")) / cl else 0.0
  }

  /** Debt to equity of a row: total debt over `Number(Equity || 1)`, which may be 0 or NaN. */
  function DebtToEquityOf(row: Row): JsNum {
    Div(NumberOr0(Get(row, "Total_Debt")), ToNumber(Or(Get(row, "Equity"), Num(1.0))))
  }

  /** The net income of every income row. */
  function NetIncomes(income: seq<Row>): (nets: seq<real>)
    ensures |nets| == |income|
  {
    seq(|income|, i requires 0 <= i < |income| => Amount(income[i], "Net_Income"))
  }

  /** The figures, as functions of the statements. */
  function NarrativeFiguresOf(income: seq<Row>, balance: seq<Row>, avgGrossMargin: Option<JsNum>): NarrativeFigures {
    var nets := NetIncomes(income);
    NarrativeFigures(avgGrossMargin, RevenueVolatility(income), RevenueTrend(income),
      CurrentRatioOf(LatestRow(balance)), DebtToEquityOf(LatestRow(balance)),
      Mean(nets), if nets == [] then 0.0 else nets[|nets| - 1])
  }

  /** The absolute month-on-month revenue changes, collected by the dashboard's loop over rows 1 onwards. */
  method CollectChanges(revs: seq<real>) returns (changes: seq<real>)
    ensures changes == AbsChanges(revs)
  {
    changes := [];
    var i := 1;
    while i < |revs|
      invariant i == 1 || 1 <= i <= |revs|
      invariant changes == AbsChanges(revs)[..i - 1]
    {
      var prev := revs[i - 1];
      var cur := revs[i];
      ChangesStep(revs, i);
      changes := changes + [Abs(GrowthPct(cur, prev))];
      i := i + 1;
    }
    assert i - 1 == |AbsChanges(revs)|;
    assert AbsChanges(revs)[..i - 1] == AbsChanges(revs);
  }

  /** The changes up to row i are those up to row i - 1 and the change at row i. */
  lemma ChangesStep(revs: seq<real>, i: int)
    requires 1 <= i < |revs|
    ensures AbsChanges(revs)[..i] == AbsChanges(revs)[..i - 1] + [Abs(GrowthPct(revs[i], revs[i - 1]))]
  {
    var c := AbsChanges(revs);
    assert c[i - 1] == Abs(GrowthPct(revs[i], revs[i - 1]));
    assert c[..i] == c[..i - 1] + [c[i - 1]];
  }

  /**
   * The narrative figures: the mean of the collected revenue changes, the
   * first-to-last revenue trend, the ratios of the last balance-sheet row and
   * the net-income figures.
   */
  method NarrativeMetrics(income: seq<Row>, balance: seq<Row>, avgGrossMargin: Option<JsNum>) returns (f: NarrativeFigures)
    ensures f == NarrativeFiguresOf(income, balance, avgGrossMargin)
  {
    var revs := Revenues(income);
    var changes := CollectChanges(revs);
    var volatility := if |changes| > 0 then Total(changes) / |changes| as real else 0.0;
    var trend := 0.0;
    if |revs| >= 2 {
      var base := if Abs(revs[0]) != 0.0 then Abs(revs[0]) else 1.0;
      trend := ((revs[|revs| - 1] - revs[0]) / base) * 100.0;
    }
    var latest: Row := if |balance| > 0 then balance[|balance| - 1] else map[];
    var liabilities := NumberOr0(Get(latest, "Current_Liabilities"));
    if liabilities == 0.0 {
      liabilities := NumberOr0(Get(latest, "Accounts_Payable"));
    }
    var ratio := if liabilities != 0.0 then NumberOr0(Get(latest, "Current_Assets")) / liabilities else 0.0;
    var debtToEquity := Div(NumberOr0(Get(latest, "Total_Debt")), ToNumber(Or(Get(latest, "Equity"), Num(1.0))));
    var nets := NetIncomes(income);
    var netAvg := if |nets| > 0 then Total(nets) / |nets| as real else 0.0;
    var netLast := if |nets| > 0 then nets[|nets| - 1] else 0.0;
    assert volatility == RevenueVolatility(income);
    assert trend == TrendOf(revs);
    assert latest == LatestRow(balance);
    assert liabilities == LiabilitiesOf(latest);
    f := NarrativeFigures(avgGrossMargin, volatility, trend, ratio, debtToEquity, netAvg, netLast);
  }

  // ---------------------------------------------------------------------------
  // Properties
  // ---------------------------------------------------------------------------

  /** A total of values that are never negative is never negative. */
  lemma {:induction false} TotalNonNegative(xs: seq<real>)
    requires forall k :: 0 <= k < |xs| ==> xs[k] >= 0.0
    ensures Total(xs) >= 0.0
  {
    if xs != [] {
      TotalNonNegative(xs[..|xs| - 1]);
    }
  }

  /** The mean of values that are never negative is never negative; times the count it is their total. */
  lemma MeanMeaning(xs: seq<real>)
    ensures (forall k :: 0 <= k < |xs| ==> xs[k] >= 0.0) ==> Mean(xs) >= 0.0
    ensures Mean(xs) * |xs| as real == Total(xs)
  {
    if forall k :: 0 <= k < |xs| ==> xs[k] >= 0.0 {
      TotalNonNegative(xs);
    }
  }

  /**
   * Revenue volatility is 0 with fewer than two income rows and never
   * negative; otherwise, times the number of changes, it is their total.
   */
  lemma RevenueVolatilityMeaning(income: seq<Row>)
    ensures |income| < 2 ==> RevenueVolatility(income) == 0.0
    ensures RevenueVolatility(income) >= 0.0
    ensures |income| >= 2 ==>
      RevenueVolatility(income) * (|income| - 1) as real == Total(AbsChanges(Revenues(income)))
  {
    var c := AbsChanges(Revenues(income));
    assert forall k :: 0 <= k < |c| ==> c[k] >= 0.0;
    MeanMeaning(c);
  }

  /**
   * The absolute growth of `cur` against `prev`, in percent: never negative,
   * 0 against 0, and otherwise the absolute change in percent of `|prev|`.
   */
  lemma AbsGrowthMeaning(cur: real, prev: real)
    ensures Abs(GrowthPct(cur, prev)) >= 0.0
    ensures prev == 0.0 ==> Abs(GrowthPct(cur, prev)) == 0.0
    ensures prev != 0.0 ==> Abs(GrowthPct(cur, prev)) * Abs(prev) == Abs(cur - prev) * 100.0
  {
    if prev != 0.0 {
      var a := Abs(prev);
      var g := GrowthPct(cur, prev);
      assert g * a == (cur - prev) * 100.0;
      assert Abs(g) * a == Abs(g * a);
    }
  }

  /**
   * Revenue trend is 0 with fewer than two income rows; otherwise it is the
   * change from the first to the last cleaned revenue in percent of the
   * first, or the change itself times 100 when the first revenue is 0. Its
   * sign is the sign of that change.
   */
  lemma RevenueTrendMeaning(income: seq<Row>)
    ensures |income| < 2 ==> RevenueTrend(income) == 0.0
    ensures |income| >= 2 ==>
      var first := Clean(income[0], "Revenue");
      var change := Clean(income[|income| - 1], "Revenue") - first;
      (first == 0.0 ==> RevenueTrend(income) == change * 100.0)
      && (first != 0.0 ==> RevenueTrend(income) * Abs(first) == change * 100.0)
      && (RevenueTrend(income) > 0.0 <==> change > 0.0)
      && (RevenueTrend(income) < 0.0 <==> change < 0.0)
  {
    var revs := Revenues(income);
    if |revs| >= 2 {
      var first := revs[0];
      var change := revs[|revs| - 1] - first;
      var base := if Abs(first) != 0.0 then Abs(first) else 1.0;
      assert base > 0.0;
      assert RevenueTrend(income) == (change / base) * 100.0;
      assert change > 0.0 <==> change / base > 0.0;
      assert change < 0.0 <==> change / base < 0.0;
    }
  }

  /**
   * The current ratio of the last balance-sheet row: 0 when its current
   * liabilities and payables both read as 0 (in particular with no rows);
   * otherwise current assets over the current liabilities, or over the
   * payables when the current liabilities read as 0.
   */
  lemma CurrentRatioMeaning(balance: seq<Row>)
    ensures var row := LatestRow(balance); var f := CurrentRatioOf(row);
      var cl := SafeNumber(Get(row, "Current_Liabilities")); var ap := SafeNumber(Get(row, "Accounts_Payable"));
      var ca := SafeNumber(Get(row, "Current_Assets"));
      (cl == 0.0 && ap == 0.0 ==> f == 0.0)
      && (cl != 0.0 ==> f * cl == ca)
      && (cl == 0.0 && ap != 0.0 ==> f * ap == ca)
    ensures balance == [] ==> CurrentRatioOf(LatestRow(balance)) == 0.0
  {
    var row := LatestRow(balance);
    var cl := LiabilitiesOf(row);
    if cl != 0.0 {
      assert CurrentRatioOf(row) * cl == SafeNumber(Get(row, "Current_Assets"));
    }
    if balance == [] {
      assert Get(row, "Current_Liabilities") == Missing && Get(row, "Accounts_Payable") == Missing;
    }
  }

  /**
   * Debt to equity of the last balance-sheet row: total debt over 1 when
   * equity is missing, empty or zero as a number; total debt over equity when
   * equity reads as a non-zero number; not a finite number when equity is
   * the text "0", which is truthy but reads as 0 (an infinity, or NaN for 0/0).
   */
  lemma DebtToEquityMeaning(row: Row)
    ensures !Truthy(Get(row, "Equity")) ==> DebtToEquityOf(row) == Finite(SafeNumber(Get(row, "Total_Debt")))
    ensures Get(row, "Equity").Num? && Get(row, "Equity").n != 0.0 ==>
      DebtToEquityOf(row) == Finite(SafeNumber(Get(row, "Total_Debt")) / Get(row, "Equity").n)
    ensures Get(row, "Equity") == Str("0") ==> !DebtToEquityOf(row).Finite?
  {
    var e := Get(row, "Equity");
    if !Truthy(e) {
      assert Or(e, Num(1.0)) == Num(1.0);
    }
    if e == Str("0") {
      assert ToNumber(Str("0")) == Finite(0.0) by {
        NatTextRoundTrip(0);
      }
    }
  }

  /** Net income figures: the mean of the column over the rows and the last row's, both 0 with no rows. */
  lemma NetIncomeFigures(income: seq<Row>)
    ensures var f := NarrativeFiguresOf(income, [], None);
      f.netIncomeAvg == Average(income, "Net_Income") && f.netIncomeLast == Latest(income, "Net_Income")
  {
    var nets := NetIncomes(income);
    TotalOfColumn(income, "Net_Income");
  }

  /** The total of a column read with `Number(x || 0)` is its sum. */
  lemma {:induction false} TotalOfColumn(rows: seq<Row>, key: string)
    ensures Total(seq(|rows|, i requires 0 <= i < |rows| => Amount(rows[i], key))) == Sum(rows, key)
  {
    var xs := seq(|rows|, i requires 0 <= i < |rows| => Amount(rows[i], key));
    if rows != [] {
      var n := |rows| - 1;
      TotalOfColumn(rows[..n], key);
      assert xs[..n] == seq(n, i requires 0 <= i < n => Amount(rows[..n][i], key));
    }
  }
}
