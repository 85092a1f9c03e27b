/**
 * The enhancement pass shared by the server-side CSV loader and the browser
 * dashboard: it adds computed columns to every row of the three statements.
 * Each row keeps its own columns and has a fixed set of derived ones written
 * into it, one assignment after the other, as the pass does (`row.X = ...`).
 * The values written are gathered first in a record of figures per row.
 */
module Enhancer {
  import opened Wrappers
  import opened JsValues
  import opened Core
  import opened Statements

  /**
   * `Number(row[key] || 0)`, a NaN reading taken as 0: the safe number of the
   * cell, since every falsy cell already reads 0 (`SafeNumberOrZero`).
   */
  function Amount(row: Row, key: string): real {
    SafeNumber(Get(row, key))
  }

  /** `total ? part / total : 0`. */
  function Ratio(part: real, total: real): real {
    if total == 0.0 then 0.0 else part / total
  }

  /** A zero total gives 0; away from it, the ratio times the total is the part. */
  lemma RatioMeaning(part: real, total: real)
    ensures total == 0.0 ==> Ratio(part, total) == 0.0
    ensures total != 0.0 ==> Ratio(part, total) * total == part
  {
  }

  /** `total ? (part / total) * 100 : 0`. */
  function Pct(part: real, total: real): real {
    if total == 0.0 then 0.0 else (part / total) * 100.0
  }

  /** A zero total gives 0; away from it, the percentage times the total is a hundred times the part. */
  lemma PctMeaning(part: real, total: real)
    ensures total == 0.0 ==> Pct(part, total) == 0.0
    ensures total != 0.0 ==> Pct(part, total) * total == part * 100.0
  {
  }

  /** `prev ? ((cur - prev) / Math.abs(prev)) * 100 : 0`. */
  function GrowthPct(cur: real, prev: real): real {
    if prev == 0.0 then 0.0 else ((cur - prev) / Abs(prev)) * 100.0
  }

  /** A zero previous value gives 0; away from it, the growth percentage has the sign of the change. */
  lemma GrowthPctSign(cur: real, prev: real)
    ensures prev == 0.0 ==> GrowthPct(cur, prev) == 0.0
    ensures prev != 0.0 ==> (GrowthPct(cur, prev) > 0.0 <==> cur > prev) && (GrowthPct(cur, prev) < 0.0 <==> cur < prev)
  {
    if prev != 0.0 {
      var q := (cur - prev) / Abs(prev);
      assert q * Abs(prev) == cur - prev;
    }
  }

  /** `Math.max(a, b)`. */
  function Max(a: real, b: real): real {
    if a >= b then a else b
  }

  /** The columns the pass writes into income rows. */
  const IncomeKeys: set<string> :=
    {"Gross_Margin_pct", "Operating_Margin_pct", "Net_Margin_pct", "Revenue_Growth_pct", "Net_Income_Growth_pct"}

  /** The columns the pass writes into balance-sheet rows. */
  const BalanceKeys: set<string> :=
    {"Current_Assets", "Current_Liabilities", "Working_Capital", "Total_Debt", "Debt_to_Equity", "MoM_Change_Total_Assets_pct"}

  /** The columns the pass writes into cash-flow rows. */
  const CashFlowKeys: set<string> :=
    {"Cumulative_Cash", "Free_Cash_Flow", "OCF_to_Net_Income_pct", "FCF_to_Revenue_pct"}

  // ---------------------------------------------------------------------------
  // What the pass writes into one row
  // ---------------------------------------------------------------------------

  /** The five figures the pass writes into an income row. */
  datatype IncomeFigures = IncomeFigures(grossMargin: real, operatingMargin: real, netMargin: real, revenueGrowth: real, netIncomeGrowth: real)

  /**
   * The figures of an income row, given the row before it (`None` for the
   * first row): the three margins on revenue and the growth of revenue and
   * net income against the previous row.
   */
  function IncomeFiguresOf(row: Row, prev: Option<Row>): IncomeFigures {
    var rev := Amount(row, "Revenue");
    var gross := Amount(row, "Gross_Profit");
    var opex := Amount(row, "Operating_Expenses");
    var net := Amount(row, "Net_Income");
    IncomeFigures(
      Pct(gross, rev), Pct(gross - opex, rev), Pct(net, rev),
      if prev.None? then 0.0 else GrowthPct(rev, Amount(prev.value, "Revenue")),
      if prev.None? then 0.0 else GrowthPct(net, Amount(prev.value, "Net_Income")))
  }

  /** The row with the income figures written into it. */
  function WithIncome(row: Row, f: IncomeFigures): Row {
    row["Gross_Margin_pct" := Num(f.grossMargin)]
       ["Operating_Margin_pct" := Num(f.operatingMargin)]
       ["Net_Margin_pct" := Num(f.netMargin)]
       ["Revenue_Growth_pct" := Num(f.revenueGrowth)]
       ["Net_Income_Growth_pct" := Num(f.netIncomeGrowth)]
  }

  /** The six figures the pass writes into a balance-sheet row. */
  datatype BalanceFigures = BalanceFigures(currentAssets: real, currentLiabilities: real, workingCapital: real,
                                           totalDebt: real, debtToEquity: real, momChange: real)

  /**
   * The figures of a balance-sheet row: current assets (cash plus receivables),
   * current liabilities (payables), working capital (the first less the second),
   * total debt (payables plus loans), debt to equity and the month-on-month
   * change of total assets.
   */
  function BalanceFiguresOf(row: Row, prev: Option<Row>): BalanceFigures {
    var cash := Amount(row, "Cash");
    var ar := Amount(row, "Accounts_Receivable");
    var ap := Amount(row, "Accounts_Payable");
    var loans := Amount(row, "Loans");
    var equity := Amount(row, "Equity");
    var totalAssets := Amount(row, "Total_Assets");
    BalanceFigures(
      cash + ar, ap, (cash + ar) - ap, ap + loans, Ratio(ap + loans, equity),
      if prev.None? then 0.0 else GrowthPct(totalAssets, Amount(prev.value, "Total_Assets")))
  }

  /** The row with the balance-sheet figures written into it. */
  function WithBalance(row: Row, f: BalanceFigures): Row {
    row["Current_Assets" := Num(f.currentAssets)]
       ["Current_Liabilities" := Num(f.currentLiabilities)]
       ["Working_Capital" := Num(f.workingCapital)]
       ["Total_Debt" := Num(f.totalDebt)]
       ["Debt_to_Equity" := Num(f.debtToEquity)]
       ["MoM_Change_Total_Assets_pct" := Num(f.momChange)]
  }

  /** The four figures the pass writes into a cash-flow row. */
  datatype CashFlowFigures = CashFlowFigures(cumulative: real, freeCashFlow: real, ocfToNetIncome: real, fcfToRevenue: real)

  /**
   * The figures of a cash-flow row, given the running total of net cash flow
   * up to and including it and the income row of the same month (empty when
   * there is none): cumulative cash, free cash flow (operating cash less the
   * cash spent on investing) and the two ratios against income.
   */
  function CashFlowFiguresOf(row: Row, cumulative: real, incomeRow: Row): CashFlowFigures {
    var cfo := Amount(row, "Cash_From_Operations");
    var cfi := Amount(row, "Cash_From_Investing");
    var fcf := cfo - Max(0.0, -cfi);
    CashFlowFigures(cumulative, fcf, Pct(cfo, Amount(incomeRow, "Net_Income")), Pct(fcf, Amount(incomeRow, "Revenue")))
  }

  /** The row with the cash-flow figures written into it. */
  function WithCashFlow(row: Row, f: CashFlowFigures): Row {
    row["Cumulative_Cash" := Num(f.cumulative)]
       ["Free_Cash_Flow" := Num(f.freeCashFlow)]
       ["OCF_to_Net_Income_pct" := Num(f.ocfToNetIncome)]
       ["FCF_to_Revenue_pct" := Num(f.fcfToRevenue)]
  }

  // ---------------------------------------------------------------------------
  // The enhanced statements
  // ---------------------------------------------------------------------------

  /** The row before row i, `None` for the first. */
  function Before(rows: seq<Row>, i: int): (p: Option<Row>)
    requires 0 <= i < |rows|
    ensures i == 0 ==> p.None?
    ensures i > 0 ==> p == Some(rows[i - 1])
  {
    if i == 0 then None else Some(rows[i - 1])
  }

  /** Row i of the enhanced income statement. */
  function EnhancedIncomeRow(rows: seq<Row>, i: int): Row
    requires 0 <= i < |rows|
  {
    WithIncome(rows[i], IncomeFiguresOf(rows[i], Before(rows, i)))
  }

  /** The enhanced income statement. */
  function EnhancedIncome(rows: seq<Row>): (r: seq<Row>)
    ensures |r| == |rows|
  {
    seq(|rows|, i requires 0 <= i < |rows| => EnhancedIncomeRow(rows, i))
  }

  /** Row i of the enhanced balance sheet. */
  function EnhancedBalanceRow(rows: seq<Row>, i: int): Row
    requires 0 <= i < |rows|
  {
    WithBalance(rows[i], BalanceFiguresOf(rows[i], Before(rows, i)))
  }

  /** The enhanced balance sheet. */
  function EnhancedBalance(rows: seq<Row>): (r: seq<Row>)
    ensures |r| == |rows|
  {
    seq(|rows|, i requires 0 <= i < |rows| => EnhancedBalanceRow(rows, i))
  }

  /** The income row a cash-flow row is compared with: the last income row of its month. */
  function IncomeRowFor(income: seq<Row>, row: Row): (r: Row)
    ensures MonthOf(row) in MonthIndex(income) ==> r == income[MonthIndex(income)[MonthOf(row)]]
    ensures MonthOf(row) !in MonthIndex(income) ==> r == map[]
  {
    RowForMonth(income, MonthIndex(income), MonthOf(row))
  }

  /**
   * Row i of the enhanced cash-flow statement: the running total of net cash
   * flow over rows 0 to i, and the income row of the same month.
   */
  function EnhancedCashFlowRow(rows: seq<Row>, income: seq<Row>, i: int): Row
    requires 0 <= i < |rows|
  {
    WithCashFlow(rows[i], CashFlowFiguresOf(rows[i], Sum(rows[..i + 1], "Net_Cash_Flow"), IncomeRowFor(income, rows[i])))
  }

  /** The enhanced cash-flow statement, compared month by month with the income statement. */
  function EnhancedCashFlow(rows: seq<Row>, income: seq<Row>): (r: seq<Row>)
    ensures |r| == |rows|
  {
    seq(|rows|, i requires 0 <= i < |rows| => EnhancedCashFlowRow(rows, income, i))
  }

  /** What `enhanceDatasets` leaves in the three statements. */
  function Enhanced(d: Data): (r: Data)
    ensures |r.income| == |d.income| && |r.cashFlow| == |d.cashFlow| && |r.balance| == |d.balance|
  {
    Data(EnhancedIncome(d.income), EnhancedCashFlow(d.cashFlow, d.income), EnhancedBalance(d.balance))
  }

  // ---------------------------------------------------------------------------
  // Reading a row back after the pass has written into it
  // ---------------------------------------------------------------------------

  /** What an income row holds in each column the pass writes. */
  lemma WithIncomeLookup(row: Row, f: IncomeFigures)
    ensures var e := WithIncome(row, f);
      Get(e, "Gross_Margin_pct") == Num(f.grossMargin) && Get(e, "Operating_Margin_pct") == Num(f.operatingMargin)
      && Get(e, "Net_Margin_pct") == Num(f.netMargin) && Get(e, "Revenue_Growth_pct") == Num(f.revenueGrowth)
      && Get(e, "Net_Income_Growth_pct") == Num(f.netIncomeGrowth)
  {
  }

  /** Every other column of an income row keeps its cell. */
  lemma WithIncomeKeeps(row: Row, f: IncomeFigures, key: string)
    requires key !in IncomeKeys
    ensures Get(WithIncome(row, f), key) == Get(row, key)
  {
  }

  /** What a balance-sheet row holds in each column the pass writes. */
  lemma WithBalanceLookup(row: Row, f: BalanceFigures)
    ensures var e := WithBalance(row, f);
      Get(e, "Current_Assets") == Num(f.currentAssets) && Get(e, "Current_Liabilities") == Num(f.currentLiabilities)
      && Get(e, "Working_Capital") == Num(f.workingCapital) && Get(e, "Total_Debt") == Num(f.totalDebt)
      && Get(e, "Debt_to_Equity") == Num(f.debtToEquity) && Get(e, "MoM_Change_Total_Assets_pct") == Num(f.momChange)
  {
  }

  /** Every other column of a balance-sheet row keeps its cell. */
  lemma WithBalanceKeeps(row: Row, f: BalanceFigures, key: string)
    requires key !in BalanceKeys
    ensures Get(WithBalance(row, f), key) == Get(row, key)
  {
  }

  /** What a cash-flow row holds in each column the pass writes. */
  lemma WithCashFlowLookup(row: Row, f: CashFlowFigures)
    ensures var e := WithCashFlow(row, f);
      Get(e, "Cumulative_Cash") == Num(f.cumulative) && Get(e, "Free_Cash_Flow") == Num(f.freeCashFlow)
      && Get(e, "OCF_to_Net_Income_pct") == Num(f.ocfToNetIncome) && Get(e, "FCF_to_Revenue_pct") == Num(f.fcfToRevenue)
  {
  }

  /** Every other column of a cash-flow row keeps its cell. */
  lemma WithCashFlowKeeps(row: Row, f: CashFlowFigures, key: string)
    requires key !in CashFlowKeys
    ensures Get(WithCashFlow(row, f), key) == Get(row, key)
  {
  }

  /** Rows that hold the same cell in a column read the same amount there. */
  lemma AmountAgree(a: Row, b: Row, key: string)
    requires Get(a, key) == Get(b, key)
    ensures Amount(a, key) == Amount(b, key)
  {
  }

  /** The income figures depend only on the four columns they read here and the two they read in the previous row. */
  lemma IncomeFiguresReads(a: Row, b: Row, pa: Option<Row>, pb: Option<Row>)
    requires Get(a, "Revenue") == Get(b, "Revenue") && Get(a, "Gross_Profit") == Get(b, "Gross_Profit")
    requires Get(a, "Operating_Expenses") == Get(b, "Operating_Expenses") && Get(a, "Net_Income") == Get(b, "Net_Income")
    requires pa.None? == pb.None?
    requires pa.Some? ==> Get(pa.value, "Revenue") == Get(pb.value, "Revenue") && Get(pa.value, "Net_Income") == Get(pb.value, "Net_Income")
    ensures IncomeFiguresOf(a, pa) == IncomeFiguresOf(b, pb)
  {
    AmountAgree(a, b, "Revenue");
    AmountAgree(a, b, "Gross_Profit");
    AmountAgree(a, b, "Operating_Expenses");
    AmountAgree(a, b, "Net_Income");
    if pa.Some? {
      AmountAgree(pa.value, pb.value, "Revenue");
      AmountAgree(pa.value, pb.value, "Net_Income");
    }
  }

  /** The balance-sheet figures depend only on the six columns they read here and total assets in the previous row. */
  lemma BalanceFiguresReads(a: Row, b: Row, pa: Option<Row>, pb: Option<Row>)
    requires Get(a, "Cash") == Get(b, "Cash") && Get(a, "Accounts_Receivable") == Get(b, "Accounts_Receivable")
    requires Get(a, "Accounts_Payable") == Get(b, "Accounts_Payable") && Get(a, "Loans") == Get(b, "Loans")
    requires Get(a, "Equity") == Get(b, "Equity") && Get(a, "Total_Assets") == Get(b, "Total_Assets")
    requires pa.None? == pb.None?
    requires pa.Some? ==> Get(pa.value, "Total_Assets") == Get(pb.value, "Total_Assets")
    ensures BalanceFiguresOf(a, pa) == BalanceFiguresOf(b, pb)
  {
    AmountAgree(a, b, "Cash");
    AmountAgree(a, b, "Accounts_Receivable");
    AmountAgree(a, b, "Accounts_Payable");
    AmountAgree(a, b, "Loans");
    AmountAgree(a, b, "Equity");
    AmountAgree(a, b, "Total_Assets");
    if pa.Some? {
      AmountAgree(pa.value, pb.value, "Total_Assets");
    }
  }

  /** The cash-flow figures depend only on the two columns they read here, the running total and the income row's two columns. */
  lemma CashFlowFiguresReads(a: Row, b: Row, cumulative: real, ia: Row, ib: Row)
    requires Get(a, "Cash_From_Operations") == Get(b, "Cash_From_Operations")
    requires Get(a, "Cash_From_Investing") == Get(b, "Cash_From_Investing")
    requires Get(ia, "Net_Income") == Get(ib, "Net_Income") && Get(ia, "Revenue") == Get(ib, "Revenue")
    ensures CashFlowFiguresOf(a, cumulative, ia) == CashFlowFiguresOf(b, cumulative, ib)
  {
    AmountAgree(a, b, "Cash_From_Operations");
    AmountAgree(a, b, "Cash_From_Investing");
    AmountAgree(ia, ib, "Net_Income");
    AmountAgree(ia, ib, "Revenue");
  }

  /** An enhanced income row reads like the raw one in every column the pass reads from income rows. */
  lemma WithIncomeKeepsReads(row: Row, f: IncomeFigures)
    ensures var e := WithIncome(row, f);
      Get(e, "Revenue") == Get(row, "Revenue") && Get(e, "Gross_Profit") == Get(row, "Gross_Profit")
      && Get(e, "Operating_Expenses") == Get(row, "Operating_Expenses") && Get(e, "Net_Income") == Get(row, "Net_Income")
      && Get(e, "Month") == Get(row, "Month")
  {
    WithIncomeKeeps(row, f, "Revenue");
    WithIncomeKeeps(row, f, "Gross_Profit");
    WithIncomeKeeps(row, f, "Operating_Expenses");
    WithIncomeKeeps(row, f, "Net_Income");
    WithIncomeKeeps(row, f, "Month");
  }

  /** An enhanced balance-sheet row reads like the raw one in every column the pass reads from it. */
  lemma WithBalanceKeepsReads(row: Row, f: BalanceFigures)
    ensures var e := WithBalance(row, f);
      Get(e, "Cash") == Get(row, "Cash") && Get(e, "Accounts_Receivable") == Get(row, "Accounts_Receivable")
      && Get(e, "Accounts_Payable") == Get(row, "Accounts_Payable") && Get(e, "Loans") == Get(row, "Loans")
      && Get(e, "Equity") == Get(row, "Equity") && Get(e, "Total_Assets") == Get(row, "Total_Assets")
  {
    WithBalanceKeeps(row, f, "Cash");
    WithBalanceKeeps(row, f, "Accounts_Receivable");
    WithBalanceKeeps(row, f, "Accounts_Payable");
    WithBalanceKeeps(row, f, "Loans");
    WithBalanceKeeps(row, f, "Equity");
    WithBalanceKeeps(row, f, "Total_Assets");
  }

  /** An enhanced cash-flow row reads like the raw one in every column the pass reads from it. */
  lemma WithCashFlowKeepsReads(row: Row, f: CashFlowFigures)
    ensures var e := WithCashFlow(row, f);
      Get(e, "Cash_From_Operations") == Get(row, "Cash_From_Operations")
      && Get(e, "Cash_From_Investing") == Get(row, "Cash_From_Investing")
      && Get(e, "Net_Cash_Flow") == Get(row, "Net_Cash_Flow") && Get(e, "Month") == Get(row, "Month")
  {
    WithCashFlowKeeps(row, f, "Cash_From_Operations");
    WithCashFlowKeeps(row, f, "Cash_From_Investing");
    WithCashFlowKeeps(row, f, "Net_Cash_Flow");
    WithCashFlowKeeps(row, f, "Month");
  }

  // ---------------------------------------------------------------------------
  // The pass, statement by statement
  // ---------------------------------------------------------------------------

  /**
   * One step of the income walk: row i, with its figures computed against
   * row i - 1 after the walk has already written into it, is row i of the
   * enhanced statement.
   */
  lemma IncomeStep(rows: seq<Row>, i: int, prev: Option<Row>)
    requires 0 <= i < |rows|
    requires i == 0 ==> prev.None?
    requires i > 0 ==> prev == Some(EnhancedIncome(rows)[i - 1])
    ensures WithIncome(rows[i], IncomeFiguresOf(rows[i], prev)) == EnhancedIncome(rows)[i]
  {
    assert IncomeFiguresOf(rows[i], prev) == IncomeFiguresOf(rows[i], Before(rows, i)) by {
      if i > 0 {
        assert prev.value == EnhancedIncomeRow(rows, i - 1);
        WithIncomeKeepsReads(rows[i - 1], IncomeFiguresOf(rows[i - 1], Before(rows, i - 1)));
        IncomeFiguresReads(rows[i], rows[i], prev, Before(rows, i));
      }
    }
    assert EnhancedIncome(rows)[i] == EnhancedIncomeRow(rows, i);
  }

  /**
   * The income walk: each row gains its margins and its growth against the
   * row before it, which the walk has already written into.
   */
  method EnhanceIncome(d: FinanceData)
    modifies d
    ensures d.income == EnhancedIncome(old(d.income))
    ensures d.cashFlow == old(d.cashFlow) && d.balance == old(d.balance)
  {
    ghost var rows := d.income;
    ghost var target := EnhancedIncome(rows);
    for i := 0 to |d.income|
      invariant d.cashFlow == old(d.cashFlow) && d.balance == old(d.balance)
      invariant |d.income| == |rows|
      invariant forall j :: 0 <= j < i ==> d.income[j] == target[j]
      invariant forall j :: i <= j < |rows| ==> d.income[j] == rows[j]
    {
      var row := d.income[i];
      assert row == rows[i];
      var prev: Option<Row> := None;
      if i > 0 {
        prev := Some(d.income[i - 1]);
      }
      IncomeStep(rows, i, prev);
      var enhanced := WithIncome(row, IncomeFiguresOf(row, prev));
      d.income := d.income[i := enhanced];
    }
    assert d.income == target;
  }

  /** One step of the balance-sheet walk: row i, computed against the already enhanced row i - 1, is row i of the enhanced statement. */
  lemma BalanceStep(rows: seq<Row>, i: int, prev: Option<Row>)
    requires 0 <= i < |rows|
    requires i == 0 ==> prev.None?
    requires i > 0 ==> prev == Some(EnhancedBalance(rows)[i - 1])
    ensures WithBalance(rows[i], BalanceFiguresOf(rows[i], prev)) == EnhancedBalance(rows)[i]
  {
    assert BalanceFiguresOf(rows[i], prev) == BalanceFiguresOf(rows[i], Before(rows, i)) by {
      if i > 0 {
        assert prev.value == EnhancedBalanceRow(rows, i - 1);
        WithBalanceKeepsReads(rows[i - 1], BalanceFiguresOf(rows[i - 1], Before(rows, i - 1)));
        BalanceFiguresReads(rows[i], rows[i], prev, Before(rows, i));
      }
    }
    assert EnhancedBalance(rows)[i] == EnhancedBalanceRow(rows, i);
  }

  /** The balance-sheet walk: each row gains its current items, its debt and its change in total assets. */
  method EnhanceBalance(d: FinanceData)
    modifies d
    ensures d.balance == EnhancedBalance(old(d.balance))
    ensures d.income == old(d.income) && d.cashFlow == old(d.cashFlow)
  {
    ghost var rows := d.balance;
    ghost var target := EnhancedBalance(rows);
    for i := 0 to |d.balance|
      invariant d.income == old(d.income) && d.cashFlow == old(d.cashFlow)
      invariant |d.balance| == |rows|
      invariant forall j :: 0 <= j < i ==> d.balance[j] == target[j]
      invariant forall j :: i <= j < |rows| ==> d.balance[j] == rows[j]
    {
      var row := d.balance[i];
      assert row == rows[i];
      var prev: Option<Row> := None;
      if i > 0 {
        prev := Some(d.balance[i - 1]);
      }
      BalanceStep(rows, i, prev);
      var enhanced := WithBalance(row, BalanceFiguresOf(row, prev));
      d.balance := d.balance[i := enhanced];
    }
    assert d.balance == target;
  }

  /**
   * The income row the cash-flow walk finds for a month through the index of
   * the raw income rows, once those rows have been enhanced in place, reads
   * like the row `IncomeRowFor` names in the two columns the walk reads.
   */
  lemma IncomeLookupStep(income: seq<Row>, month: Cell)
    ensures var idx := MonthIndex(income);
      var found := if month in idx then EnhancedIncome(income)[idx[month]] else map[];
      var expected := RowForMonth(income, idx, month);
      Get(found, "Net_Income") == Get(expected, "Net_Income") && Get(found, "Revenue") == Get(expected, "Revenue")
  {
    var idx := MonthIndex(income);
    if month in idx {
      var j: int := idx[month];
      WithIncomeKeepsReads(income[j], IncomeFiguresOf(income[j], Before(income, j)));
    }
  }

  /**
   * One step of the cash-flow walk: row i, written with the running total up
   * to it and an income row that reads like the one of its month, is row i of
   * the enhanced statement.
   */
  lemma CashFlowStep(rows: seq<Row>, income: seq<Row>, i: int, total: real, found: Row)
    requires 0 <= i < |rows| && total == Sum(rows[..i + 1], "Net_Cash_Flow")
    requires var expected := IncomeRowFor(income, rows[i]);
      Get(found, "Net_Income") == Get(expected, "Net_Income") && Get(found, "Revenue") == Get(expected, "Revenue")
    ensures WithCashFlow(rows[i], CashFlowFiguresOf(rows[i], total, found)) == EnhancedCashFlow(rows, income)[i]
  {
    CashFlowFiguresReads(rows[i], rows[i], total, found, IncomeRowFor(income, rows[i]));
  }

  /**
   * The cash-flow walk: a running total of net cash flow, and each month looked
   * up in the index built over the income rows before the income walk; the rows
   * that index names have been enhanced in place since, so the walk reads them
   * from the enhanced income statement.
   */
  method EnhanceCashFlow(d: FinanceData, ghost income: seq<Row>, incomeByMonth: map<Cell, nat>)
    requires incomeByMonth == MonthIndex(income) && d.income == EnhancedIncome(income)
    modifies d
    ensures d.cashFlow == EnhancedCashFlow(old(d.cashFlow), income)
    ensures d.income == old(d.income) && d.balance == old(d.balance)
  {
    ghost var rows := d.cashFlow;
    ghost var target := EnhancedCashFlow(rows, income);
    var cumulative := 0.0;
    for i := 0 to |d.cashFlow|
      invariant d.income == old(d.income) && d.balance == old(d.balance)
      invariant cumulative == Sum(rows[..i], "Net_Cash_Flow")
      invariant |d.cashFlow| == |rows|
      invariant forall j :: 0 <= j < i ==> d.cashFlow[j] == target[j]
      invariant forall j :: i <= j < |rows| ==> d.cashFlow[j] == rows[j]
    {
      var row := d.cashFlow[i];
      assert row == rows[i];
      var month := MonthOf(row);
      var incomeRow: Row := map[];
      if month in incomeByMonth {
        incomeRow := d.income[incomeByMonth[month]];
      }
      IncomeLookupStep(income, month);
      SumStep(rows, i, "Net_Cash_Flow");
      cumulative := cumulative + Amount(row, "Net_Cash_Flow");
      CashFlowStep(rows, income, i, cumulative, incomeRow);
      var enhanced := WithCashFlow(row, CashFlowFiguresOf(row, cumulative, incomeRow));
      d.cashFlow := d.cashFlow[i := enhanced];
    }
    assert d.cashFlow == target;
  }

  /**
   * `enhanceDatasets(dataset)`: index the income rows by month, then walk the
   * income statement, the balance sheet and the cash-flow statement in turn.
   */
  method Enhance(d: FinanceData)
    modifies d
    ensures d.Value() == Enhanced(old(d.Value()))
  {
    ghost var income := d.income;
    var incomeByMonth := BuildMonthIndex(d.income);
    EnhanceIncome(d);
    EnhanceBalance(d);
    EnhanceCashFlow(d, income, incomeByMonth);
  }

  // ---------------------------------------------------------------------------
  // Properties of the pass
  // ---------------------------------------------------------------------------

  /** Every column the pass does not derive keeps its value in every row, and no row is added or lost. */
  lemma EnhanceKeepsRawColumns(d: Data, key: string)
    ensures |Enhanced(d).income| == |d.income| && |Enhanced(d).cashFlow| == |d.cashFlow| && |Enhanced(d).balance| == |d.balance|
    ensures key !in IncomeKeys ==> forall i :: 0 <= i < |d.income| ==> Get(Enhanced(d).income[i], key) == Get(d.income[i], key)
    ensures key !in BalanceKeys ==> forall i :: 0 <= i < |d.balance| ==> Get(Enhanced(d).balance[i], key) == Get(d.balance[i], key)
    ensures key !in CashFlowKeys ==> forall i :: 0 <= i < |d.cashFlow| ==> Get(Enhanced(d).cashFlow[i], key) == Get(d.cashFlow[i], key)
  {
    var e := Enhanced(d);
    if key !in IncomeKeys {
      forall i | 0 <= i < |d.income|
        ensures Get(e.income[i], key) == Get(d.income[i], key)
      {
        WithIncomeKeeps(d.income[i], IncomeFiguresOf(d.income[i], Before(d.income, i)), key);
      }
    }
    if key !in BalanceKeys {
      forall i | 0 <= i < |d.balance|
        ensures Get(e.balance[i], key) == Get(d.balance[i], key)
      {
        WithBalanceKeeps(d.balance[i], BalanceFiguresOf(d.balance[i], Before(d.balance, i)), key);
      }
    }
    if key !in CashFlowKeys {
      forall i | 0 <= i < |d.cashFlow|
        ensures Get(e.cashFlow[i], key) == Get(d.cashFlow[i], key)
      {
        WithCashFlowKeeps(d.cashFlow[i], CashFlowFiguresOf(d.cashFlow[i], Sum(d.cashFlow[..i + 1], "Net_Cash_Flow"),
                                                            IncomeRowFor(d.income, d.cashFlow[i])), key);
      }
    }
  }

  /** The first row of each statement has zero growth. */
  lemma FirstRowHasNoGrowth(d: Data)
    ensures |d.income| > 0 ==>
      (Get(Enhanced(d).income[0], "Revenue_Growth_pct") == Num(0.0)
      && Get(Enhanced(d).income[0], "Net_Income_Growth_pct") == Num(0.0))
    ensures |d.balance| > 0 ==> Get(Enhanced(d).balance[0], "MoM_Change_Total_Assets_pct") == Num(0.0)
  {
    if |d.income| > 0 {
      WithIncomeLookup(d.income[0], IncomeFiguresOf(d.income[0], None));
    }
    if |d.balance| > 0 {
      WithBalanceLookup(d.balance[0], BalanceFiguresOf(d.balance[0], None));
    }
  }

  /** The growth columns of a later income row compare its revenue and net income with the previous row's. */
  lemma IncomeGrowthAgainstPrevious(d: Data, i: int)
    requires 0 < i < |d.income|
    ensures var e := Enhanced(d).income[i];
      var rev := SafeNumber(Get(d.income[i], "Revenue"));
      var prevRev := SafeNumber(Get(d.income[i - 1], "Revenue"));
      Get(e, "Revenue_Growth_pct") == Num(GrowthPct(rev, prevRev))
      && Get(e, "Net_Income_Growth_pct")
         == Num(GrowthPct(SafeNumber(Get(d.income[i], "Net_Income")), SafeNumber(Get(d.income[i - 1], "Net_Income"))))
  {
    WithIncomeLookup(d.income[i], IncomeFiguresOf(d.income[i], Before(d.income, i)));
  }

  /** Cumulative cash in row i of the enhanced cash-flow statement is the sum of net cash flow over rows 0 to i. */
  lemma CumulativeCashAt(rows: seq<Row>, income: seq<Row>, i: int)
    requires 0 <= i < |rows|
    ensures Get(EnhancedCashFlow(rows, income)[i], "Cumulative_Cash") == Num(Sum(rows[..i + 1], "Net_Cash_Flow"))
  {
    assert EnhancedCashFlow(rows, income)[i] == EnhancedCashFlowRow(rows, income, i);
    WithCashFlowLookup(rows[i], CashFlowFiguresOf(rows[i], Sum(rows[..i + 1], "Net_Cash_Flow"), IncomeRowFor(income, rows[i])));
  }

  /** Cumulative cash in row i is the sum of net cash flow over rows 0 to i, so each row adds its own net cash flow to the one before. */
  lemma CumulativeCashIsRunningSum(d: Data, i: int)
    requires 0 <= i < |d.cashFlow|
    ensures Get(Enhanced(d).cashFlow[i], "Cumulative_Cash") == Num(Sum(d.cashFlow[..i + 1], "Net_Cash_Flow"))
    ensures i > 0 ==>
      (SafeNumber(Get(Enhanced(d).cashFlow[i], "Cumulative_Cash"))
      == SafeNumber(Get(Enhanced(d).cashFlow[i - 1], "Cumulative_Cash")) + SafeNumber(Get(d.cashFlow[i], "Net_Cash_Flow")))
  {
    CumulativeCashAt(d.cashFlow, d.income, i);
    if i > 0 {
      CumulativeCashAt(d.cashFlow, d.income, i - 1);
      SumStep(d.cashFlow, i, "Net_Cash_Flow");
    }
  }

  /**
   * Free cash flow never exceeds operating cash: it is operating cash when
   * investing brought cash in, and operating cash plus the (negative)
   * investing flow otherwise.
   */
  lemma FreeCashFlowBound(d: Data, i: int)
    requires 0 <= i < |d.cashFlow|
    ensures var row := d.cashFlow[i];
      var fcf := SafeNumber(Get(Enhanced(d).cashFlow[i], "Free_Cash_Flow"));
      fcf <= SafeNumber(Get(row, "Cash_From_Operations"))
      && (SafeNumber(Get(row, "Cash_From_Investing")) >= 0.0 ==> fcf == SafeNumber(Get(row, "Cash_From_Operations")))
      && (SafeNumber(Get(row, "Cash_From_Investing")) < 0.0 ==>
            fcf == SafeNumber(Get(row, "Cash_From_Operations")) + SafeNumber(Get(row, "Cash_From_Investing")))
  {
    var rows := d.cashFlow;
    WithCashFlowLookup(rows[i], CashFlowFiguresOf(rows[i], Sum(rows[..i + 1], "Net_Cash_Flow"), IncomeRowFor(d.income, rows[i])));
  }

  /**
   * The two income ratios of a cash-flow row use the last income row of the
   * same month; a month with no income row gives ratios of 0.
   */
  lemma CrossRatiosUseSameMonth(d: Data, i: int)
    requires 0 <= i < |d.cashFlow|
    ensures var month := MonthOf(d.cashFlow[i]);
      var idx := MonthIndex(d.income);
      (month in idx ==>
        (MonthOf(d.income[idx[month]]) == month
        && (forall j :: idx[month] < j < |d.income| ==> MonthOf(d.income[j]) != month)
        && Get(Enhanced(d).cashFlow[i], "OCF_to_Net_Income_pct")
           == Num(Pct(SafeNumber(Get(d.cashFlow[i], "Cash_From_Operations")), SafeNumber(Get(d.income[idx[month]], "Net_Income"))))))
      && (month !in idx ==>
        (Get(Enhanced(d).cashFlow[i], "OCF_to_Net_Income_pct") == Num(0.0)
        && Get(Enhanced(d).cashFlow[i], "FCF_to_Revenue_pct") == Num(0.0)))
  {
    MonthIndexIsLast(d.income);
    var rows := d.cashFlow;
    WithCashFlowLookup(rows[i], CashFlowFiguresOf(rows[i], Sum(rows[..i + 1], "Net_Cash_Flow"), IncomeRowFor(d.income, rows[i])));
  }

  /**
   * The balance-sheet identities every enhanced row satisfies: working capital
   * is current assets less current liabilities, current liabilities are the
   * payables and total debt is payables plus loans.
   */
  lemma BalanceIdentities(d: Data, i: int)
    requires 0 <= i < |d.balance|
    ensures var row := Enhanced(d).balance[i];
      SafeNumber(Get(row, "Working_Capital")) == SafeNumber(Get(row, "Current_Assets")) - SafeNumber(Get(row, "Current_Liabilities"))
      && SafeNumber(Get(row, "Current_Liabilities")) == SafeNumber(Get(d.balance[i], "Accounts_Payable"))
      && SafeNumber(Get(row, "Total_Debt")) == SafeNumber(Get(d.balance[i], "Accounts_Payable")) + SafeNumber(Get(d.balance[i], "Loans"))
  {
    WithBalanceLookup(d.balance[i], BalanceFiguresOf(d.balance[i], Before(d.balance, i)));
  }

  /** Debt to equity is total debt over equity, and 0 when equity reads 0 (`RatioMeaning` gives the product form). */
  lemma DebtToEquityMeaning(d: Data, i: int)
    requires 0 <= i < |d.balance|
    ensures var row := Enhanced(d).balance[i];
      SafeNumber(Get(row, "Debt_to_Equity")) == Ratio(SafeNumber(Get(row, "Total_Debt")), SafeNumber(Get(d.balance[i], "Equity")))
  {
    WithBalanceLookup(d.balance[i], BalanceFiguresOf(d.balance[i], Before(d.balance, i)));
  }

  // ---------------------------------------------------------------------------
  // Idempotence
  // ---------------------------------------------------------------------------

  /** Writing the income figures into a row that already holds some is writing them once. */
  lemma WithIncomeAgain(row: Row, f: IncomeFigures, g: IncomeFigures)
    ensures WithIncome(WithIncome(row, f), g) == WithIncome(row, g)
  {
  }

  /** Writing the balance-sheet figures into a row that already holds some is writing them once. */
  lemma WithBalanceAgain(row: Row, f: BalanceFigures, g: BalanceFigures)
    ensures WithBalance(WithBalance(row, f), g) == WithBalance(row, g)
  {
  }

  /** Writing the cash-flow figures into a row that already holds some is writing them once. */
  lemma WithCashFlowAgain(row: Row, f: CashFlowFigures, g: CashFlowFigures)
    ensures WithCashFlow(WithCashFlow(row, f), g) == WithCashFlow(row, g)
  {
  }

  /** Rows that agree on a column have the same sum over it. */
  lemma {:induction false} SumAgree(a: seq<Row>, b: seq<Row>, key: string)
    requires |a| == |b| && forall i :: 0 <= i < |a| ==> Get(a[i], key) == Get(b[i], key)
    ensures Sum(a, key) == Sum(b, key)
  {
    if a != [] {
      SumAgree(a[..|a| - 1], b[..|b| - 1], key);
    }
  }

  /** Rows that agree on `Month` have the same month index. */
  lemma {:induction false} MonthIndexAgree(a: seq<Row>, b: seq<Row>)
    requires |a| == |b| && forall i :: 0 <= i < |a| ==> MonthOf(a[i]) == MonthOf(b[i])
    ensures MonthIndex(a) == MonthIndex(b)
  {
    if a != [] {
      MonthIndexAgree(a[..|a| - 1], b[..|b| - 1]);
    }
  }

  /** The income figures of an enhanced row, against the enhanced previous row, are those of the raw row. */
  lemma IncomeFiguresStable(rows: seq<Row>, i: int)
    requires 0 <= i < |rows|
    ensures IncomeFiguresOf(EnhancedIncomeRow(rows, i), Before(EnhancedIncome(rows), i)) == IncomeFiguresOf(rows[i], Before(rows, i))
  {
    WithIncomeKeepsReads(rows[i], IncomeFiguresOf(rows[i], Before(rows, i)));
    if i > 0 {
      WithIncomeKeepsReads(rows[i - 1], IncomeFiguresOf(rows[i - 1], Before(rows, i - 1)));
    }
    IncomeFiguresReads(EnhancedIncomeRow(rows, i), rows[i], Before(EnhancedIncome(rows), i), Before(rows, i));
  }

  /** The balance-sheet figures of an enhanced row are those of the raw row. */
  lemma BalanceFiguresStable(rows: seq<Row>, i: int)
    requires 0 <= i < |rows|
    ensures BalanceFiguresOf(EnhancedBalanceRow(rows, i), Before(EnhancedBalance(rows), i)) == BalanceFiguresOf(rows[i], Before(rows, i))
  {
    WithBalanceKeepsReads(rows[i], BalanceFiguresOf(rows[i], Before(rows, i)));
    if i > 0 {
      WithBalanceKeepsReads(rows[i - 1], BalanceFiguresOf(rows[i - 1], Before(rows, i - 1)));
    }
    BalanceFiguresReads(EnhancedBalanceRow(rows, i), rows[i], Before(EnhancedBalance(rows), i), Before(rows, i));
  }

  /** Enhancing the income statement twice is enhancing it once. */
  lemma IncomeIdempotent(rows: seq<Row>)
    ensures EnhancedIncome(EnhancedIncome(rows)) == EnhancedIncome(rows)
  {
    var e := EnhancedIncome(rows);
    forall i | 0 <= i < |rows|
      ensures EnhancedIncomeRow(e, i) == e[i]
    {
      IncomeFiguresStable(rows, i);
      WithIncomeAgain(rows[i], IncomeFiguresOf(rows[i], Before(rows, i)), IncomeFiguresOf(rows[i], Before(rows, i)));
    }
  }

  /** Enhancing the balance sheet twice is enhancing it once. */
  lemma BalanceIdempotent(rows: seq<Row>)
    ensures EnhancedBalance(EnhancedBalance(rows)) == EnhancedBalance(rows)
  {
    var e := EnhancedBalance(rows);
    forall i | 0 <= i < |rows|
      ensures EnhancedBalanceRow(e, i) == e[i]
    {
      BalanceFiguresStable(rows, i);
      WithBalanceAgain(rows[i], BalanceFiguresOf(rows[i], Before(rows, i)), BalanceFiguresOf(rows[i], Before(rows, i)));
    }
  }

  /** The enhanced income statement keeps the months of its rows, so it has the same month index. */
  lemma EnhancedIncomeMonths(income: seq<Row>)
    ensures MonthIndex(EnhancedIncome(income)) == MonthIndex(income)
  {
    var ei := EnhancedIncome(income);
    forall j | 0 <= j < |income|
      ensures MonthOf(ei[j]) == MonthOf(income[j])
    {
      WithIncomeKeepsReads(income[j], IncomeFiguresOf(income[j], Before(income, j)));
    }
    MonthIndexAgree(ei, income);
  }

  /** The running total over the enhanced cash-flow rows is the one over the raw rows. */
  lemma CumulativeStable(rows: seq<Row>, income: seq<Row>, i: int)
    requires 0 <= i < |rows|
    ensures Sum(EnhancedCashFlow(rows, income)[..i + 1], "Net_Cash_Flow") == Sum(rows[..i + 1], "Net_Cash_Flow")
  {
    var e := EnhancedCashFlow(rows, income);
    forall j | 0 <= j <= i
      ensures Get(e[j], "Net_Cash_Flow") == Get(rows[j], "Net_Cash_Flow")
    {
      WithCashFlowKeepsReads(rows[j], CashFlowFiguresOf(rows[j], Sum(rows[..j + 1], "Net_Cash_Flow"), IncomeRowFor(income, rows[j])));
    }
    SumAgree(e[..i + 1], rows[..i + 1], "Net_Cash_Flow");
  }

  /** Two rows of the same month find, in the enhanced and in the raw income statement, income rows with the same net income and revenue. */
  lemma IncomeRowForStable(income: seq<Row>, a: Row, b: Row)
    requires MonthOf(a) == MonthOf(b)
    ensures var ia := IncomeRowFor(EnhancedIncome(income), a);
      var ib := IncomeRowFor(income, b);
      Get(ia, "Net_Income") == Get(ib, "Net_Income") && Get(ia, "Revenue") == Get(ib, "Revenue")
  {
    EnhancedIncomeMonths(income);
    IncomeLookupStep(income, MonthOf(b));
  }

  /** The cash-flow figures of an enhanced row are those of the raw row. */
  lemma CashFlowFiguresStable(rows: seq<Row>, income: seq<Row>, i: int)
    requires 0 <= i < |rows|
    ensures var e := EnhancedCashFlow(rows, income);
      CashFlowFiguresOf(e[i], Sum(e[..i + 1], "Net_Cash_Flow"), IncomeRowFor(EnhancedIncome(income), e[i]))
      == CashFlowFiguresOf(rows[i], Sum(rows[..i + 1], "Net_Cash_Flow"), IncomeRowFor(income, rows[i]))
  {
    var e := EnhancedCashFlow(rows, income);
    CumulativeStable(rows, income, i);
    WithCashFlowKeepsReads(rows[i], CashFlowFiguresOf(rows[i], Sum(rows[..i + 1], "Net_Cash_Flow"), IncomeRowFor(income, rows[i])));
    IncomeRowForStable(income, e[i], rows[i]);
    CashFlowFiguresReads(e[i], rows[i], Sum(rows[..i + 1], "Net_Cash_Flow"), IncomeRowFor(EnhancedIncome(income), e[i]), IncomeRowFor(income, rows[i]));
  }

  /** Enhancing the cash-flow statement twice, against the enhanced income statement, is enhancing it once. */
  lemma CashFlowIdempotent(rows: seq<Row>, income: seq<Row>)
    ensures EnhancedCashFlow(EnhancedCashFlow(rows, income), EnhancedIncome(income)) == EnhancedCashFlow(rows, income)
  {
    var e := EnhancedCashFlow(rows, income);
    forall i | 0 <= i < |rows|
      ensures EnhancedCashFlowRow(e, EnhancedIncome(income), i) == e[i]
    {
      CashFlowFiguresStable(rows, income, i);
      var f := CashFlowFiguresOf(rows[i], Sum(rows[..i + 1], "Net_Cash_Flow"), IncomeRowFor(income, rows[i]));
      WithCashFlowAgain(rows[i], f, f);
    }
  }

  /** Running the pass a second time changes nothing. */
  lemma EnhanceIdempotent(d: Data)
    ensures Enhanced(Enhanced(d)) == Enhanced(d)
  {
    IncomeIdempotent(d.income);
    BalanceIdempotent(d.balance);
    CashFlowIdempotent(d.cashFlow, d.income);
  }
}
