/**
 * The dashboard's cell edit: the edited cell receives the typed text reduced
 * to digits, points and minus signs, the enhancement pass runs, and then the
 * three statements are recomputed in a fixed order: the income statement from
 * revenue, cost of goods sold and operating expenses; the cash-flow statement
 * from the new net income of each month; the balance sheet with its cash
 * carried forward by the new net cash flows.
 */
module Recompute {
  import opened Wrappers
  import opened JsValues
  import opened Core
  import opened Statements
  import opened Enhancer

  /** `EDITABLE_COLUMNS`: the columns each table offers for editing, by table id. */
  const EditableColumns: map<string, seq<string>> := map[
    "income" := ["Revenue", "Cost_of_Goods_Sold", "Operating_Expenses"],
    "cashflow" := ["Cash_From_Operations", "Cash_From_Investing", "Cash_From_Financing"],
    "balance" := ["Cash", "Accounts_Receivable", "Equipment", "Accounts_Payable", "Loans", "Equity"]]

  /** `EDITABLE_COLUMNS[id] && EDITABLE_COLUMNS[id].includes(col)`: whether a table cell is rendered editable. */
  predicate Editable(tableId: string, col: string) {
    tableId in EditableColumns && col in EditableColumns[tableId]
  }

  /** `Number(String(row[key] || '0').replace(/[^0-9.\-]/g, '')) || 0`: the edit path's reading of a raw column. */
  function Clean(row: Row, key: string): real {
    CleanNumber(Get(row, key))
  }

  /** Rows that hold the same cell in a column read the same cleaned amount there. */
  lemma CleanAgree(a: Row, b: Row, key: string)
    requires Get(a, key) == Get(b, key)
    ensures Clean(a, key) == Clean(b, key)
  {
  }

  /** The sum of a sequence of amounts, left to right. */
  function Total(xs: seq<real>): real {
    if xs == [] then 0.0 else Total(xs[..|xs| - 1]) + xs[|xs| - 1]
  }

  /** Adding one more amount to a prefix adds it to the total. */
  lemma TotalStep(xs: seq<real>, i: int)
    requires 0 <= i < |xs|
    ensures Total(xs[..i + 1]) == Total(xs[..i]) + xs[i]
  {
    assert xs[..i + 1][..i] == xs[..i];
  }

  // ---------------------------------------------------------------------------
  // The income statement
  // ---------------------------------------------------------------------------

  /** The columns the recompute writes into income rows: the enhancer's five and the two profit lines. */
  const IncomeTotalsKeys: set<string> := {"Gross_Profit", "Net_Income"} + IncomeKeys

  /** Gross profit of a row: revenue less cost of goods sold, both cleaned. */
  function GrossOf(row: Row): real {
    Clean(row, "Revenue") - Clean(row, "Cost_of_Goods_Sold")
  }

  /** Net income of a row: gross profit less operating expenses. */
  function NetOf(row: Row): real {
    GrossOf(row) - Clean(row, "Operating_Expenses")
  }

  /** The seven figures the recompute writes into an income row. */
  datatype IncomeTotals = IncomeTotals(gross: real, net: real, grossMargin: real, operatingMargin: real, netMargin: real,
                                       revenueGrowth: real, netIncomeGrowth: real)

  /**
   * The figures of an income row, given the revenue and net income the
   * previous row holds (`None` for the first row).
   */
  function IncomeTotalsOf(row: Row, prev: Option<(real, real)>): IncomeTotals {
    var rev := Clean(row, "Revenue");
    var gross := GrossOf(row);
    var opex := Clean(row, "Operating_Expenses");
    var net := gross - opex;
    IncomeTotals(gross, net, Pct(gross, rev), Pct(gross - opex, rev), Pct(net, rev),
      if prev.None? then 0.0 else GrowthPct(rev, prev.value.0),
      if prev.None? then 0.0 else GrowthPct(net, prev.value.1))
  }

  /** The row with the income figures written into it. */
  function WithIncomeTotals(row: Row, t: IncomeTotals): Row {
    row["Gross_Profit" := Num(t.gross)]
       ["Net_Income" := Num(t.net)]
       ["Gross_Margin_pct" := Num(t.grossMargin)]
       ["Operating_Margin_pct" := Num(t.operatingMargin)]
       ["Net_Margin_pct" := Num(t.netMargin)]
       ["Revenue_Growth_pct" := Num(t.revenueGrowth)]
       ["Net_Income_Growth_pct" := Num(t.netIncomeGrowth)]
  }

  /** The revenue and net income of the row before row i, as derived from its raw cells. */
  function PrevIncome(rows: seq<Row>, i: int): (p: Option<(real, real)>)
    requires 0 <= i < |rows|
    ensures i == 0 <==> p.None?
  {
    if i == 0 then None else Some((Clean(rows[i - 1], "Revenue"), NetOf(rows[i - 1])))
  }

  /** Row i of the recomputed income statement. */
  function RecomputedIncomeRow(rows: seq<Row>, i: int): Row
    requires 0 <= i < |rows|
  {
    WithIncomeTotals(rows[i], IncomeTotalsOf(rows[i], PrevIncome(rows, i)))
  }

  /** The recomputed income statement. */
  function RecomputedIncome(rows: seq<Row>): (r: seq<Row>)
    ensures |r| == |rows|
  {
    seq(|rows|, i requires 0 <= i < |rows| => RecomputedIncomeRow(rows, i))
  }

  /** What an income row holds in each column the recompute writes. */
  lemma WithIncomeTotalsLookup(row: Row, t: IncomeTotals)
    ensures var e := WithIncomeTotals(row, t);
      Get(e, "Gross_Profit") == Num(t.gross) && Get(e, "Net_Income") == Num(t.net)
      && Get(e, "Gross_Margin_pct") == Num(t.grossMargin) && Get(e, "Operating_Margin_pct") == Num(t.operatingMargin)
      && Get(e, "Net_Margin_pct") == Num(t.netMargin) && Get(e, "Revenue_Growth_pct") == Num(t.revenueGrowth)
      && Get(e, "Net_Income_Growth_pct") == Num(t.netIncomeGrowth)
  {
  }

  /** Every other column of an income row keeps its cell. */
  lemma WithIncomeTotalsKeeps(row: Row, t: IncomeTotals, key: string)
    requires key !in IncomeTotalsKeys
    ensures Get(WithIncomeTotals(row, t), key) == Get(row, key)
  {
  }

  /** A recomputed income row holds the revenue it had and the net income derived from its raw cells. */
  lemma RecomputedIncomeReads(rows: seq<Row>, i: int)
    requires 0 <= i < |rows|
    ensures Get(RecomputedIncome(rows)[i], "Revenue") == Get(rows[i], "Revenue")
    ensures Get(RecomputedIncome(rows)[i], "Net_Income") == Num(NetOf(rows[i]))
  {
    var t := IncomeTotalsOf(rows[i], PrevIncome(rows, i));
    assert RecomputedIncome(rows)[i] == WithIncomeTotals(rows[i], t);
    WithIncomeTotalsLookup(rows[i], t);
    WithIncomeTotalsKeeps(rows[i], t, "Revenue");
  }

  /**
   * One step of the income walk: row i, computed against the revenue and net
   * income the already recomputed row i - 1 holds, is row i of the recomputed
   * statement.
   */
  lemma IncomeRecomputeStep(rows: seq<Row>, i: int, prev: Option<(real, real)>)
    requires 0 <= i < |rows|
    requires i == 0 ==> prev.None?
    requires i > 0 ==> prev == Some((Clean(RecomputedIncome(rows)[i - 1], "Revenue"), Amount(RecomputedIncome(rows)[i - 1], "Net_Income")))
    ensures WithIncomeTotals(rows[i], IncomeTotalsOf(rows[i], prev)) == RecomputedIncome(rows)[i]
  {
    if i > 0 {
      RecomputedIncomeReads(rows, i - 1);
      CleanAgree(RecomputedIncome(rows)[i - 1], rows[i - 1], "Revenue");
      assert prev == PrevIncome(rows, i);
    }
    assert RecomputedIncome(rows)[i] == RecomputedIncomeRow(rows, i);
  }

  /**
   * The income walk: each row gains gross profit and net income from its
   * cleaned revenue, cost of goods sold and operating expenses, the three
   * margins on revenue, and the growth of revenue and net income against the
   * row before it, which the walk has already written into.
   */
  method RecomputeIncome(d: FinanceData)
    modifies d
    ensures d.income == RecomputedIncome(old(d.income))
    ensures d.cashFlow == old(d.cashFlow) && d.balance == old(d.balance)
  {
    ghost var rows := d.income;
    ghost var target := RecomputedIncome(rows);
    for i := 0 to |d.income|
      invariant d.cashFlow == old(d.cashFlow) && d.balance == old(d.balance)
      invariant |d.income| == |rows|
      invariant forall j :: 0 <= j < i ==> d.income[j] == target[j]
      invariant forall j :: i <= j < |rows| ==> d.income[j] == rows[j]
    {
      var row := d.income[i];
      assert row == rows[i];
      var prev: Option<(real, real)> := None;
      if i > 0 {
        prev := Some((Clean(d.income[i - 1], "Revenue"), Amount(d.income[i - 1], "Net_Income")));
      }
      IncomeRecomputeStep(rows, i, prev);
      var recomputed := WithIncomeTotals(row, IncomeTotalsOf(row, prev));
      d.income := d.income[i := recomputed];
    }
    assert d.income == target;
  }

  // ---------------------------------------------------------------------------
  // The cash-flow statement
  // ---------------------------------------------------------------------------

  /** The columns the recompute writes into cash-flow rows: the enhancer's four, operating cash and net cash flow. */
  const CashFlowTotalsKeys: set<string> := {"Cash_From_Operations", "Net_Cash_Flow"} + CashFlowKeys

  /** The six figures the recompute writes into a cash-flow row. */
  datatype CashFlowTotals = CashFlowTotals(operating: real, netFlow: real, cumulative: real, freeCashFlow: real,
                                           ocfToNetIncome: real, fcfToRevenue: real)

  /**
   * The figures of a cash-flow row, given the net income and revenue of its
   * month and the running total of net cash flow before it: operating cash is
   * the net income, net cash flow adds the cleaned investing and financing
   * cash, and free cash flow deducts the cash spent on investing.
   */
  function CashFlowTotalsOf(row: Row, netIncome: real, revenue: real, before: real): CashFlowTotals {
    var cfi := Clean(row, "Cash_From_Investing");
    var ncf := netIncome + cfi + Clean(row, "Cash_From_Financing");
    var fcf := netIncome - Max(0.0, -cfi);
    CashFlowTotals(netIncome, ncf, before + ncf, fcf, Pct(netIncome, netIncome), Pct(fcf, revenue))
  }

  /** The row with the cash-flow figures written into it. */
  function WithCashFlowTotals(row: Row, t: CashFlowTotals): Row {
    row["Cash_From_Operations" := Num(t.operating)]
       ["Net_Cash_Flow" := Num(t.netFlow)]
       ["Cumulative_Cash" := Num(t.cumulative)]
       ["Free_Cash_Flow" := Num(t.freeCashFlow)]
       ["OCF_to_Net_Income_pct" := Num(t.ocfToNetIncome)]
       ["FCF_to_Revenue_pct" := Num(t.fcfToRevenue)]
  }

  /**
   * The net cash flow of a cash-flow row against the income statement: the net
   * income of the last income row of its month (0 when there is none) plus the
   * cleaned investing and financing cash.
   */
  function NetCashFlowOf(row: Row, income: seq<Row>): real {
    NetOf(IncomeRowFor(income, row)) + Clean(row, "Cash_From_Investing") + Clean(row, "Cash_From_Financing")
  }

  /** The net cash flow of every cash-flow row. */
  function NetCashFlows(rows: seq<Row>, income: seq<Row>): (r: seq<real>)
    ensures |r| == |rows|
  {
    seq(|rows|, i requires 0 <= i < |rows| => NetCashFlowOf(rows[i], income))
  }

  /** Row i of the recomputed cash-flow statement: its month's income figures and the net cash flows before it. */
  function RecomputedCashFlowRow(rows: seq<Row>, income: seq<Row>, i: int): Row
    requires 0 <= i < |rows|
  {
    var inc := IncomeRowFor(income, rows[i]);
    WithCashFlowTotals(rows[i], CashFlowTotalsOf(rows[i], NetOf(inc), Amount(inc, "Revenue"), Total(NetCashFlows(rows, income)[..i])))
  }

  /** The recomputed cash-flow statement, compared month by month with the income statement. */
  function RecomputedCashFlow(rows: seq<Row>, income: seq<Row>): (r: seq<Row>)
    ensures |r| == |rows|
  {
    seq(|rows|, i requires 0 <= i < |rows| => RecomputedCashFlowRow(rows, income, i))
  }

  /** What a cash-flow row holds in each column the recompute writes. */
  lemma WithCashFlowTotalsLookup(row: Row, t: CashFlowTotals)
    ensures var e := WithCashFlowTotals(row, t);
      Get(e, "Cash_From_Operations") == Num(t.operating) && Get(e, "Net_Cash_Flow") == Num(t.netFlow)
      && Get(e, "Cumulative_Cash") == Num(t.cumulative) && Get(e, "Free_Cash_Flow") == Num(t.freeCashFlow)
      && Get(e, "OCF_to_Net_Income_pct") == Num(t.ocfToNetIncome) && Get(e, "FCF_to_Revenue_pct") == Num(t.fcfToRevenue)
  {
  }

  /** Every other column of a cash-flow row keeps its cell. */
  lemma WithCashFlowTotalsKeeps(row: Row, t: CashFlowTotals, key: string)
    requires key !in CashFlowTotalsKeys
    ensures Get(WithCashFlowTotals(row, t), key) == Get(row, key)
  {
  }

  /**
   * The income row the cash-flow walk finds for a month through the index of
   * the income rows, once those rows have been recomputed in place, holds the
   * net income derived from the row `IncomeRowFor` names and its revenue.
   */
  lemma IncomeRecomputedLookup(income: seq<Row>, month: Cell)
    ensures var idx := MonthIndex(income);
      var found := if month in idx then RecomputedIncome(income)[idx[month]] else map[];
      var expected := RowForMonth(income, idx, month);
      Amount(found, "Net_Income") == NetOf(expected) && Amount(found, "Revenue") == Amount(expected, "Revenue")
  {
    var idx := MonthIndex(income);
    if month in idx {
      RecomputedIncomeReads(income, idx[month]);
    }
  }

  /**
   * One step of the cash-flow walk: row i, written with the net income and
   * revenue of the income row its month leads to through the index (after the
   * income walk has recomputed that row in place) and the running total before
   * it, is row i of the recomputed statement, and the running total moves on
   * by its net cash flow.
   */
  lemma CashFlowRecomputeStep(rows: seq<Row>, income: seq<Row>, i: int, found: Row, before: real)
    requires 0 <= i < |rows| && before == Total(NetCashFlows(rows, income)[..i])
    requires var idx := MonthIndex(income); var month := MonthOf(rows[i]);
      found == if month in idx then RecomputedIncome(income)[idx[month]] else map[]
    ensures var t := CashFlowTotalsOf(rows[i], Amount(found, "Net_Income"), Amount(found, "Revenue"), before);
      WithCashFlowTotals(rows[i], t) == RecomputedCashFlow(rows, income)[i]
      && t.cumulative == Total(NetCashFlows(rows, income)[..i + 1])
  {
    IncomeRecomputedLookup(income, MonthOf(rows[i]));
    assert RecomputedCashFlow(rows, income)[i] == RecomputedCashFlowRow(rows, income, i);
    TotalStep(NetCashFlows(rows, income), i);
  }

  /**
   * The cash-flow walk: each row's operating cash becomes the new net income of
   * its month, read through the index built over the income rows, followed by
   * its net cash flow, the running total, free cash flow and the two ratios.
   */
  method RecomputeCashFlow(d: FinanceData, ghost income: seq<Row>, incomeByMonth: map<Cell, nat>)
    requires incomeByMonth == MonthIndex(income) && d.income == RecomputedIncome(income)
    modifies d
    ensures d.cashFlow == RecomputedCashFlow(old(d.cashFlow), income)
    ensures d.income == old(d.income) && d.balance == old(d.balance)
  {
    ghost var rows := d.cashFlow;
    ghost var target := RecomputedCashFlow(rows, income);
    var cumulative := 0.0;
    for i := 0 to |d.cashFlow|
      invariant d.income == old(d.income) && d.balance == old(d.balance)
      invariant cumulative == Total(NetCashFlows(rows, income)[..i])
      invariant |d.cashFlow| == |rows|
      invariant forall j :: 0 <= j < i ==> d.cashFlow[j] == target[j]
      invariant forall j :: i <= j < |rows| ==> d.cashFlow[j] == rows[j]
    {
      var row := d.cashFlow[i];
      assert row == rows[i];
      var month := MonthOf(row);
      var incomeRow: Row := map[];
      if month in incomeByMonth {
        incomeRow := d.income[incomeByMonth[month]];
      }
      CashFlowRecomputeStep(rows, income, i, incomeRow, cumulative);
      var t := CashFlowTotalsOf(row, Amount(incomeRow, "Net_Income"), Amount(incomeRow, "Revenue"), cumulative);
      cumulative := t.cumulative;
      d.cashFlow := d.cashFlow[i := WithCashFlowTotals(row, t)];
    }
    assert d.cashFlow == target;
  }

  /** A recomputed cash-flow row holds the net cash flow derived from its raw cells and its month's income row. */
  lemma RecomputedCashFlowReads(rows: seq<Row>, income: seq<Row>, i: int)
    requires 0 <= i < |rows|
    ensures Get(RecomputedCashFlow(rows, income)[i], "Net_Cash_Flow") == Num(NetCashFlows(rows, income)[i])
  {
    var inc := IncomeRowFor(income, rows[i]);
    var t := CashFlowTotalsOf(rows[i], NetOf(inc), Amount(inc, "Revenue"), Total(NetCashFlows(rows, income)[..i]));
    assert RecomputedCashFlow(rows, income)[i] == WithCashFlowTotals(rows[i], t);
    WithCashFlowTotalsLookup(rows[i], t);
  }

  // ---------------------------------------------------------------------------
  // The balance sheet
  // ---------------------------------------------------------------------------

  /** The columns the recompute writes into balance-sheet rows (besides cash): the enhancer's six, total assets and equity. */
  const BalanceTotalsKeys: set<string> := {"Total_Assets", "Equity"} + BalanceKeys

  /** The eight figures the recompute writes into a balance-sheet row. */
  datatype BalanceTotals = BalanceTotals(totalAssets: real, equity: real, currentAssets: real, currentLiabilities: real,
                                         workingCapital: real, totalDebt: real, debtToEquity: real, momChange: real)

  /** Total assets of a balance-sheet row with the given cash: cash, cleaned receivables and cleaned equipment. */
  function AssetsOf(row: Row, cash: real): real {
    cash + Clean(row, "Accounts_Receivable") + Clean(row, "Equipment")
  }

  /**
   * The figures of a balance-sheet row, given its cash and the total assets of
   * the previous row (`None` for the first row): equity is what is left of
   * total assets after payables and loans.
   */
  function BalanceTotalsOf(row: Row, cash: real, prevAssets: Option<real>): BalanceTotals {
    var ar := Clean(row, "Accounts_Receivable");
    var ap := Clean(row, "Accounts_Payable");
    var loans := Clean(row, "Loans");
    var totalAssets := AssetsOf(row, cash);
    var equity := totalAssets - (ap + loans);
    BalanceTotals(totalAssets, equity, cash + ar, ap, (cash + ar) - ap, ap + loans, Ratio(ap + loans, equity),
      if prevAssets.None? then 0.0 else GrowthPct(totalAssets, prevAssets.value))
  }

  /** The row with the balance-sheet figures written into it. */
  function WithBalanceTotals(row: Row, t: BalanceTotals): Row {
    row["Total_Assets" := Num(t.totalAssets)]
       ["Equity" := Num(t.equity)]
       ["Current_Assets" := Num(t.currentAssets)]
       ["Current_Liabilities" := Num(t.currentLiabilities)]
       ["Working_Capital" := Num(t.workingCapital)]
       ["Total_Debt" := Num(t.totalDebt)]
       ["Debt_to_Equity" := Num(t.debtToEquity)]
       ["MoM_Change_Total_Assets_pct" := Num(t.momChange)]
  }

  /**
   * The cash of balance row i when cash propagates: the first row keeps its
   * cleaned cash, a row with a cash-flow row at the same index carries the
   * previous row's cash forward by that row's net cash flow, and any other row
   * keeps its cleaned cash.
   */
  function PropagatedCash(rows: seq<Row>, flows: seq<real>, i: int): real
    requires 0 <= i < |rows|
  {
    if i == 0 then Clean(rows[0], "Cash")
    else if i < |flows| then PropagatedCash(rows, flows, i - 1) + flows[i]
    else Clean(rows[i], "Cash")
  }

  /** The cash of every balance row after the recompute: propagated, or each row's own cleaned cash. */
  function CashSeries(rows: seq<Row>, flows: seq<real>, propagate: bool): (c: seq<real>)
    ensures |c| == |rows|
  {
    seq(|rows|, i requires 0 <= i < |rows| => if propagate then PropagatedCash(rows, flows, i) else Clean(rows[i], "Cash"))
  }

  /** Row i of the recomputed balance sheet with the given cash; the cash is written only when it propagates. */
  function RecomputedBalanceRow(rows: seq<Row>, cash: seq<real>, propagate: bool, i: int): Row
    requires 0 <= i < |rows| == |cash|
  {
    var base := if propagate then rows[i]["Cash" := Num(cash[i])] else rows[i];
    WithBalanceTotals(base, BalanceTotalsOf(rows[i], cash[i], if i == 0 then None else Some(AssetsOf(rows[i - 1], cash[i - 1]))))
  }

  /** The recomputed balance sheet, given the cash of every row. */
  function RecomputedBalance(rows: seq<Row>, cash: seq<real>, propagate: bool): (r: seq<Row>)
    requires |cash| == |rows|
    ensures |r| == |rows|
  {
    seq(|rows|, i requires 0 <= i < |rows| => RecomputedBalanceRow(rows, cash, propagate, i))
  }

  /** What a balance-sheet row holds in each column the recompute writes. */
  lemma WithBalanceTotalsLookup(row: Row, t: BalanceTotals)
    ensures var e := WithBalanceTotals(row, t);
      Get(e, "Total_Assets") == Num(t.totalAssets) && Get(e, "Equity") == Num(t.equity)
      && Get(e, "Current_Assets") == Num(t.currentAssets) && Get(e, "Current_Liabilities") == Num(t.currentLiabilities)
      && Get(e, "Working_Capital") == Num(t.workingCapital) && Get(e, "Total_Debt") == Num(t.totalDebt)
      && Get(e, "Debt_to_Equity") == Num(t.debtToEquity) && Get(e, "MoM_Change_Total_Assets_pct") == Num(t.momChange)
  {
  }

  /** Every other column of a balance-sheet row keeps its cell. */
  lemma WithBalanceTotalsKeeps(row: Row, t: BalanceTotals, key: string)
    requires key !in BalanceTotalsKeys
    ensures Get(WithBalanceTotals(row, t), key) == Get(row, key)
  {
  }

  /** A recomputed balance-sheet row holds its total assets, and its cash when cash propagates. */
  lemma RecomputedBalanceReads(rows: seq<Row>, cash: seq<real>, propagate: bool, i: int)
    requires 0 <= i < |rows| == |cash|
    ensures Get(RecomputedBalance(rows, cash, propagate)[i], "Total_Assets") == Num(AssetsOf(rows[i], cash[i]))
    ensures propagate ==> Get(RecomputedBalance(rows, cash, propagate)[i], "Cash") == Num(cash[i])
  {
    var base := if propagate then rows[i]["Cash" := Num(cash[i])] else rows[i];
    var t := BalanceTotalsOf(rows[i], cash[i], if i == 0 then None else Some(AssetsOf(rows[i - 1], cash[i - 1])));
    assert RecomputedBalance(rows, cash, propagate)[i] == WithBalanceTotals(base, t);
    WithBalanceTotalsLookup(base, t);
    WithBalanceTotalsKeeps(base, t, "Cash");
  }

  /**
   * One step of either balance-sheet walk: a row that reads like row i in the
   * four columns the figures read, written with the cash of row i and the
   * total assets the already recomputed row i - 1 holds, is row i of the
   * recomputed statement.
   */
  lemma BalanceRecomputeStep(rows: seq<Row>, cash: seq<real>, propagate: bool, i: int, row: Row, prevAssets: Option<real>)
    requires 0 <= i < |rows| == |cash|
    requires Get(row, "Accounts_Receivable") == Get(rows[i], "Accounts_Receivable") && Get(row, "Equipment") == Get(rows[i], "Equipment")
    requires Get(row, "Accounts_Payable") == Get(rows[i], "Accounts_Payable") && Get(row, "Loans") == Get(rows[i], "Loans")
    requires if propagate then row["Cash" := Num(cash[i])] == rows[i]["Cash" := Num(cash[i])] else row == rows[i]
    requires i == 0 ==> prevAssets.None?
    requires i > 0 ==> prevAssets == Some(Amount(RecomputedBalance(rows, cash, propagate)[i - 1], "Total_Assets"))
    ensures WithBalanceTotals(if propagate then row["Cash" := Num(cash[i])] else row, BalanceTotalsOf(row, cash[i], prevAssets))
         == RecomputedBalance(rows, cash, propagate)[i]
  {
    var prevSpec := if i == 0 then None else Some(AssetsOf(rows[i - 1], cash[i - 1]));
    assert prevAssets == prevSpec by {
      if i > 0 {
        RecomputedBalanceReads(rows, cash, propagate, i - 1);
      }
    }
    assert BalanceTotalsOf(row, cash[i], prevAssets) == BalanceTotalsOf(rows[i], cash[i], prevSpec) by {
      CleanAgree(row, rows[i], "Accounts_Receivable");
      CleanAgree(row, rows[i], "Equipment");
      CleanAgree(row, rows[i], "Accounts_Payable");
      CleanAgree(row, rows[i], "Loans");
    }
    var base := if propagate then rows[i]["Cash" := Num(cash[i])] else rows[i];
    assert (if propagate then row["Cash" := Num(cash[i])] else row) == base;
    assert RecomputedBalance(rows, cash, propagate)[i] == WithBalanceTotals(base, BalanceTotalsOf(rows[i], cash[i], prevSpec));
  }

  /**
   * The cash the propagating walk computes for row i: the cash the already
   * recomputed row i - 1 holds plus the net cash flow of the cash-flow row at
   * index i when there is one, otherwise the cleaned cash of the row as it
   * stands (for the first row, the cash already cleaned before the walk).
   */
  lemma PropagatedCashStep(rows: seq<Row>, flows: seq<real>, i: int, row: Row, prevRow: Row, flowRow: Row)
    requires 0 <= i < |rows|
    requires i == 0 ==> row == rows[0]["Cash" := Num(Clean(rows[0], "Cash"))]
    requires i > 0 ==> row == rows[i] && prevRow == RecomputedBalance(rows, CashSeries(rows, flows, true), true)[i - 1]
    requires 0 < i < |flows| ==> Get(flowRow, "Net_Cash_Flow") == Num(flows[i])
    ensures 0 < i < |flows| ==> Amount(prevRow, "Cash") + Amount(flowRow, "Net_Cash_Flow") == CashSeries(rows, flows, true)[i]
    ensures !(0 < i < |flows|) ==> Clean(row, "Cash") == CashSeries(rows, flows, true)[i]
  {
    var cash := CashSeries(rows, flows, true);
    if 0 < i < |flows| {
      RecomputedBalanceReads(rows, cash, true, i - 1);
      assert cash[i] == PropagatedCash(rows, flows, i);
    } else {
      assert cash[i] == PropagatedCash(rows, flows, i);
    }
  }

  /**
   * One step of the propagating walk: the row the walk writes at index i, with
   * the cash and previous total assets it reads from the rows written before,
   * is row i of the recomputed statement.
   */
  lemma PropagateStep(rows: seq<Row>, flows: seq<real>, i: int, row: Row, prevRow: Row, flowRow: Row,
                       cash: real, prevAssets: Option<real>)
    requires 0 <= i < |rows|
    requires i == 0 ==> row == rows[0]["Cash" := Num(Clean(rows[0], "Cash"))]
    requires i > 0 ==> row == rows[i] && prevRow == RecomputedBalance(rows, CashSeries(rows, flows, true), true)[i - 1]
    requires 0 < i < |flows| ==> Get(flowRow, "Net_Cash_Flow") == Num(flows[i])
    requires cash == if 0 < i < |flows| then Amount(prevRow, "Cash") + Amount(flowRow, "Net_Cash_Flow") else Clean(row, "Cash")
    requires prevAssets == if i == 0 then None else Some(Amount(prevRow, "Total_Assets"))
    ensures WithBalanceTotals(row["Cash" := Num(cash)], BalanceTotalsOf(row, cash, prevAssets))
         == RecomputedBalance(rows, CashSeries(rows, flows, true), true)[i]
  {
    var cashes := CashSeries(rows, flows, true);
    PropagatedCashStep(rows, flows, i, row, prevRow, flowRow);
    BalanceRecomputeStep(rows, cashes, true, i, row, prevAssets);
  }

  /**
   * The balance-sheet walk when both the balance sheet and the cash-flow
   * statement have rows: the first row's cash is cleaned, then each row's cash
   * is carried forward from the row before by the net cash flow of the
   * cash-flow row at the same index (or cleaned when there is none), and the
   * row gains its totals.
   */
  method PropagateBalance(d: FinanceData, ghost flows: seq<real>)
    requires |d.balance| > 0 && |d.cashFlow| > 0 && |flows| == |d.cashFlow|
    requires forall j :: 0 <= j < |flows| ==> Get(d.cashFlow[j], "Net_Cash_Flow") == Num(flows[j])
    modifies d
    ensures d.balance == RecomputedBalance(old(d.balance), CashSeries(old(d.balance), flows, true), true)
    ensures d.income == old(d.income) && d.cashFlow == old(d.cashFlow)
  {
    ghost var rows := d.balance;
    ghost var cashes := CashSeries(rows, flows, true);
    ghost var target := RecomputedBalance(rows, cashes, true);
    var first := d.balance[0];
    d.balance := d.balance[0 := first["Cash" := Num(Clean(first, "Cash"))]];
    for i := 0 to |d.balance|
      invariant d.income == old(d.income) && d.cashFlow == old(d.cashFlow)
      invariant |d.balance| == |rows|
      invariant forall j :: 0 <= j < i ==> d.balance[j] == target[j]
      invariant forall j :: i <= j < |rows| && j > 0 ==> d.balance[j] == rows[j]
      invariant i == 0 ==> d.balance[0] == rows[0]["Cash" := Num(Clean(rows[0], "Cash"))]
    {
      var row := d.balance[i];
      var prevRow: Row := map[];
      var flowRow: Row := map[];
      if i > 0 {
        prevRow := d.balance[i - 1];
      }
      if i < |d.cashFlow| {
        flowRow := d.cashFlow[i];
      }
      var cash: real;
      if i > 0 && i < |d.cashFlow| {
        cash := Amount(prevRow, "Cash") + Amount(flowRow, "Net_Cash_Flow");
      } else {
        cash := Clean(row, "Cash");
      }
      var prevAssets: Option<real> := None;
      if i > 0 {
        prevAssets := Some(Amount(prevRow, "Total_Assets"));
      }
      var recomputed := WithBalanceTotals(row["Cash" := Num(cash)], BalanceTotalsOf(row, cash, prevAssets));
      PropagateStep(rows, flows, i, row, prevRow, flowRow, cash, prevAssets);
      d.balance := d.balance[i := recomputed];
    }
    assert d.balance == target;
  }

  /** The balance-sheet walk when either statement is empty: each row's totals from its own cleaned cash. */
  method RecomputeBalanceAlone(d: FinanceData, ghost flows: seq<real>)
    modifies d
    ensures d.balance == RecomputedBalance(old(d.balance), CashSeries(old(d.balance), flows, false), false)
    ensures d.income == old(d.income) && d.cashFlow == old(d.cashFlow)
  {
    ghost var rows := d.balance;
    ghost var cashes := CashSeries(rows, flows, false);
    ghost var target := RecomputedBalance(rows, cashes, false);
    for i := 0 to |d.balance|
      invariant d.income == old(d.income) && d.cashFlow == old(d.cashFlow)
      invariant |d.balance| == |rows|
      invariant forall j :: 0 <= j < i ==> d.balance[j] == target[j]
      invariant forall j :: i <= j < |rows| ==> d.balance[j] == rows[j]
    {
      var row := d.balance[i];
      assert row == rows[i];
      var cash := Clean(row, "Cash");
      assert cash == cashes[i];
      var prevAssets: Option<real> := None;
      if i > 0 {
        prevAssets := Some(Amount(d.balance[i - 1], "Total_Assets"));
      }
      BalanceRecomputeStep(rows, cashes, false, i, row, prevAssets);
      d.balance := d.balance[i := WithBalanceTotals(row, BalanceTotalsOf(row, cash, prevAssets))];
    }
    assert d.balance == target;
  }

  // ---------------------------------------------------------------------------
  // The recompute and the edit
  // ---------------------------------------------------------------------------

  /** Whether the balance-sheet walk carries cash forward: both the balance sheet and the cash-flow statement have rows. */
  predicate Propagates(d: Data) {
    |d.balance| > 0 && |d.cashFlow| > 0
  }

  /** The three statements after the recompute. */
  function Recomputed(d: Data): (r: Data)
    ensures |r.income| == |d.income| && |r.cashFlow| == |d.cashFlow| && |r.balance| == |d.balance|
  {
    var flows := NetCashFlows(d.cashFlow, d.income);
    Data(RecomputedIncome(d.income), RecomputedCashFlow(d.cashFlow, d.income),
         RecomputedBalance(d.balance, CashSeries(d.balance, flows, Propagates(d)), Propagates(d)))
  }

  /**
   * The recompute: index the income rows by month, walk the income statement,
   * then the cash-flow statement against the new net incomes, then the
   * balance sheet against the new net cash flows.
   */
  method RecomputeAll(d: FinanceData)
    modifies d
    ensures d.Value() == Recomputed(old(d.Value()))
  {
    ghost var income := d.income;
    ghost var flows := NetCashFlows(d.cashFlow, d.income);
    var incomeByMonth := BuildMonthIndex(d.income);
    RecomputeIncome(d);
    RecomputeCashFlow(d, income, incomeByMonth);
    if |d.balance| > 0 && |d.cashFlow| > 0 {
      forall j | 0 <= j < |flows|
        ensures Get(d.cashFlow[j], "Net_Cash_Flow") == Num(flows[j])
      {
        RecomputedCashFlowReads(old(d.cashFlow), income, j);
      }
      PropagateBalance(d, flows);
    } else {
      RecomputeBalanceAlone(d, flows);
    }
  }

  /**
   * The dataset with `text` stored in column `colKey` of row `rowIndex` of the
   * table `tableId` names, or `None` when there is no such table or row.
   */
  function Written(d: Data, tableId: string, rowIndex: int, colKey: string, text: string): (w: Option<Data>)
    ensures w.Some? <==> ((tableId == "income" && 0 <= rowIndex < |d.income|)
                          || (tableId == "cashflow" && 0 <= rowIndex < |d.cashFlow|)
                          || (tableId == "balance" && 0 <= rowIndex < |d.balance|))
  {
    if tableId == "income" then
      if 0 <= rowIndex < |d.income| then Some(d.(income := d.income[rowIndex := d.income[rowIndex][colKey := Str(text)]])) else None
    else if tableId == "cashflow" then
      if 0 <= rowIndex < |d.cashFlow| then Some(d.(cashFlow := d.cashFlow[rowIndex := d.cashFlow[rowIndex][colKey := Str(text)]])) else None
    else if tableId == "balance" then
      if 0 <= rowIndex < |d.balance| then Some(d.(balance := d.balance[rowIndex := d.balance[rowIndex][colKey := Str(text)]])) else None
    else None
  }

  /** The dataset after saving an edit: unchanged when there is no such cell, else written, enhanced and recomputed. */
  function SavedEdit(d: Data, tableId: string, rowIndex: int, colKey: string, newValue: string): Data {
    match Written(d, tableId, rowIndex, colKey, Sanitize(newValue))
    case None => d
    case Some(w) => Recomputed(Enhanced(w))
  }

  /**
   * `saveEditedCell(tableId, rowIndex, colKey, newValue)`: find the table's
   * rows and return when the table id is unknown or the row does not exist;
   * otherwise store the sanitised text in the cell, run the enhancement pass
   * and recompute the three statements.
   */
  method SaveEditedCell(d: FinanceData, tableId: string, rowIndex: int, colKey: string, newValue: string)
    modifies d
    ensures d.Value() == SavedEdit(old(d.Value()), tableId, rowIndex, colKey, newValue)
  {
    var rows: seq<Row>;
    if tableId == "income" {
      rows := d.income;
    } else if tableId == "cashflow" {
      rows := d.cashFlow;
    } else if tableId == "balance" {
      rows := d.balance;
    } else {
      return;
    }
    if !(0 <= rowIndex < |rows|) {
      return;
    }
    var clean := Sanitize(newValue);
    var edited := rows[rowIndex][colKey := Str(clean)];
    if tableId == "income" {
      d.income := d.income[rowIndex := edited];
    } else if tableId == "cashflow" {
      d.cashFlow := d.cashFlow[rowIndex := edited];
    } else {
      d.balance := d.balance[rowIndex := edited];
    }
    Enhance(d);
    RecomputeAll(d);
  }

  // ---------------------------------------------------------------------------
  // Properties of the recompute
  // ---------------------------------------------------------------------------

  /**
   * Every recomputed income row holds gross profit = revenue - cost of goods
   * sold and net income = gross profit - operating expenses on the cleaned
   * cells, keeps its revenue, and has zero margins when revenue is zero.
   */
  lemma RecomputedIncomeIdentities(rows: seq<Row>, i: int)
    requires 0 <= i < |rows|
    ensures var r := RecomputedIncome(rows)[i];
      Get(r, "Revenue") == Get(rows[i], "Revenue")
      && Get(r, "Gross_Profit") == Num(Clean(rows[i], "Revenue") - Clean(rows[i], "Cost_of_Goods_Sold"))
      && Get(r, "Net_Income") == Num(Amount(r, "Gross_Profit") - Clean(rows[i], "Operating_Expenses"))
    ensures var r := RecomputedIncome(rows)[i];
      Clean(rows[i], "Revenue") == 0.0 ==>
        Get(r, "Gross_Margin_pct") == Num(0.0) && Get(r, "Operating_Margin_pct") == Num(0.0) && Get(r, "Net_Margin_pct") == Num(0.0)
  {
    var t := IncomeTotalsOf(rows[i], PrevIncome(rows, i));
    assert RecomputedIncome(rows)[i] == WithIncomeTotals(rows[i], t);
    WithIncomeTotalsLookup(rows[i], t);
    WithIncomeTotalsKeeps(rows[i], t, "Revenue");
  }

  /**
   * The growth columns of a recomputed income row: zero in the first row, and
   * otherwise the growth of its revenue and of its new net income against
   * those the previous recomputed row holds.
   */
  lemma RecomputedIncomeGrowth(rows: seq<Row>, i: int)
    requires 0 <= i < |rows|
    ensures var r := RecomputedIncome(rows)[i];
      i == 0 ==> Get(r, "Revenue_Growth_pct") == Num(0.0) && Get(r, "Net_Income_Growth_pct") == Num(0.0)
    ensures var r := RecomputedIncome(rows)[i];
      i > 0 ==> var p := RecomputedIncome(rows)[i - 1];
        Get(r, "Revenue_Growth_pct") == Num(GrowthPct(Clean(r, "Revenue"), Clean(p, "Revenue")))
        && Get(r, "Net_Income_Growth_pct") == Num(GrowthPct(Amount(r, "Net_Income"), Amount(p, "Net_Income")))
  {
    var r := RecomputedIncome(rows)[i];
    var t := IncomeTotalsOf(rows[i], PrevIncome(rows, i));
    assert Get(r, "Revenue_Growth_pct") == Num(t.revenueGrowth) && Get(r, "Net_Income_Growth_pct") == Num(t.netIncomeGrowth) by {
      assert r == WithIncomeTotals(rows[i], t);
      WithIncomeTotalsLookup(rows[i], t);
    }
    if i > 0 {
      var p := RecomputedIncome(rows)[i - 1];
      RecomputedIncomeReads(rows, i);
      RecomputedIncomeReads(rows, i - 1);
      CleanAgree(r, rows[i], "Revenue");
      CleanAgree(p, rows[i - 1], "Revenue");
    }
  }

  /**
   * The cash-flow figures of a row: net cash flow is operating cash plus the
   * cleaned investing and financing cash, free cash flow never exceeds
   * operating cash, and operating cash over net income is 100 percent or 0.
   */
  lemma CashFlowTotalsMeaning(row: Row, netIncome: real, revenue: real, before: real)
    ensures var t := CashFlowTotalsOf(row, netIncome, revenue, before);
      t.operating == netIncome
      && t.netFlow == t.operating + Clean(row, "Cash_From_Investing") + Clean(row, "Cash_From_Financing")
      && t.cumulative == before + t.netFlow
      && t.freeCashFlow <= t.operating
      && t.ocfToNetIncome == (if t.operating == 0.0 then 0.0 else 100.0)
  {
    var t := CashFlowTotalsOf(row, netIncome, revenue, before);
    var cfi := Clean(row, "Cash_From_Investing");
    assert t.freeCashFlow == netIncome - Max(0.0, -cfi) && Max(0.0, -cfi) >= 0.0;
    assert t.ocfToNetIncome == Pct(netIncome, netIncome);
    if netIncome != 0.0 {
      assert netIncome / netIncome == 1.0;
    }
  }

  /**
   * Every recomputed cash-flow row: operating cash is the new net income of the
   * last income row of its month, or 0 when there is none (so an edit of that
   * column never survives); net cash flow adds the cleaned investing and
   * financing cash; free cash flow never exceeds operating cash; and operating
   * cash over net income is 100 percent, or 0 when net income is 0.
   */
  lemma RecomputedCashFlowIdentities(rows: seq<Row>, income: seq<Row>, i: int)
    requires 0 <= i < |rows|
    ensures var r := RecomputedCashFlow(rows, income)[i]; var idx := MonthIndex(income); var m := MonthOf(rows[i]);
      Get(r, "Cash_From_Operations") == (if m in idx then Get(RecomputedIncome(income)[idx[m]], "Net_Income") else Num(0.0))
    ensures var r := RecomputedCashFlow(rows, income)[i];
      Get(r, "Net_Cash_Flow")
        == Num(Amount(r, "Cash_From_Operations") + Clean(rows[i], "Cash_From_Investing") + Clean(rows[i], "Cash_From_Financing"))
      && Amount(r, "Free_Cash_Flow") <= Amount(r, "Cash_From_Operations")
      && Get(r, "OCF_to_Net_Income_pct") == Num(if Amount(r, "Cash_From_Operations") == 0.0 then 0.0 else 100.0)
  {
    var r := RecomputedCashFlow(rows, income)[i];
    var inc := IncomeRowFor(income, rows[i]);
    var t := CashFlowTotalsOf(rows[i], NetOf(inc), Amount(inc, "Revenue"), Total(NetCashFlows(rows, income)[..i]));
    assert r == WithCashFlowTotals(rows[i], t);
    WithCashFlowTotalsLookup(rows[i], t);
    CashFlowTotalsMeaning(rows[i], NetOf(inc), Amount(inc, "Revenue"), Total(NetCashFlows(rows, income)[..i]));
    assert Amount(r, "Cash_From_Operations") == t.operating && Amount(r, "Free_Cash_Flow") == t.freeCashFlow;
    assert t.operating == NetOf(inc);
    var idx := MonthIndex(income);
    var m := MonthOf(rows[i]);
    if m in idx {
      RecomputedIncomeReads(income, idx[m]);
    }
  }

  /** Cumulative cash: the first row's is its net cash flow, each later row's adds its net cash flow to the previous row's. */
  lemma CumulativeCashRuns(rows: seq<Row>, income: seq<Row>, i: int)
    requires 0 <= i < |rows|
    ensures var r := RecomputedCashFlow(rows, income);
      i == 0 ==> Get(r[0], "Cumulative_Cash") == Get(r[0], "Net_Cash_Flow")
    ensures var r := RecomputedCashFlow(rows, income);
      i > 0 ==> Get(r[i], "Cumulative_Cash") == Num(Amount(r[i - 1], "Cumulative_Cash") + Amount(r[i], "Net_Cash_Flow"))
  {
    var flows := NetCashFlows(rows, income);
    CumulativeCashAtRow(rows, income, i);
    RecomputedCashFlowReads(rows, income, i);
    TotalStep(flows, i);
    if i > 0 {
      CumulativeCashAtRow(rows, income, i - 1);
      TotalStep(flows, i - 1);
    } else {
      assert flows[..0] == [];
    }
  }

  /** The cumulative cash a recomputed cash-flow row holds: the total net cash flow of the rows before it and its own. */
  lemma CumulativeCashAtRow(rows: seq<Row>, income: seq<Row>, i: int)
    requires 0 <= i < |rows|
    ensures Get(RecomputedCashFlow(rows, income)[i], "Cumulative_Cash") == Num(Total(NetCashFlows(rows, income)[..i]) + NetCashFlows(rows, income)[i])
  {
    var inc := IncomeRowFor(income, rows[i]);
    var t := CashFlowTotalsOf(rows[i], NetOf(inc), Amount(inc, "Revenue"), Total(NetCashFlows(rows, income)[..i]));
    assert RecomputedCashFlow(rows, income)[i] == WithCashFlowTotals(rows[i], t);
    WithCashFlowTotalsLookup(rows[i], t);
  }

  /**
   * The balance-sheet figures of a row: equity and total debt add up to total
   * assets, working capital is current assets less current liabilities, and
   * debt to equity is total debt over equity.
   */
  lemma BalanceTotalsMeaning(row: Row, cash: real, prevAssets: Option<real>)
    ensures var t := BalanceTotalsOf(row, cash, prevAssets);
      t.totalAssets == AssetsOf(row, cash)
      && t.totalDebt == Clean(row, "Accounts_Payable") + Clean(row, "Loans")
      && t.currentAssets == cash + Clean(row, "Accounts_Receivable")
      && t.currentLiabilities == Clean(row, "Accounts_Payable")
      && t.equity + t.totalDebt == t.totalAssets
      && t.workingCapital == t.currentAssets - t.currentLiabilities
      && t.debtToEquity == Ratio(t.totalDebt, t.equity)
      && t.momChange == (if prevAssets.None? then 0.0 else GrowthPct(t.totalAssets, prevAssets.value))
  {
  }

  /**
   * Every recomputed balance-sheet row balances: total assets are its cash
   * plus cleaned receivables and equipment; total debt is payables plus loans;
   * equity and total debt add up to total assets, so an edited equity never
   * survives; working capital is current assets less current liabilities; debt
   * to equity is total debt over equity, 0 for zero equity. The cash is written
   * into the row only when it propagates.
   */
  lemma BalanceSheetBalances(rows: seq<Row>, cash: seq<real>, propagate: bool, i: int)
    requires 0 <= i < |rows| == |cash|
    ensures var r := RecomputedBalance(rows, cash, propagate)[i]; var row := rows[i];
      Get(r, "Total_Assets") == Num(cash[i] + Clean(row, "Accounts_Receivable") + Clean(row, "Equipment"))
      && Get(r, "Total_Debt") == Num(Clean(row, "Accounts_Payable") + Clean(row, "Loans"))
      && Get(r, "Current_Assets") == Num(cash[i] + Clean(row, "Accounts_Receivable"))
      && Get(r, "Current_Liabilities") == Num(Clean(row, "Accounts_Payable"))
      && Get(r, "Cash") == (if propagate then Num(cash[i]) else Get(row, "Cash"))
    ensures var r := RecomputedBalance(rows, cash, propagate)[i];
      Amount(r, "Equity") + Amount(r, "Total_Debt") == Amount(r, "Total_Assets")
      && Amount(r, "Working_Capital") == Amount(r, "Current_Assets") - Amount(r, "Current_Liabilities")
      && Get(r, "Debt_to_Equity") == Num(Ratio(Amount(r, "Total_Debt"), Amount(r, "Equity")))
  {
    var r := RecomputedBalance(rows, cash, propagate)[i];
    var base := if propagate then rows[i]["Cash" := Num(cash[i])] else rows[i];
    var prev := if i == 0 then None else Some(AssetsOf(rows[i - 1], cash[i - 1]));
    var t := BalanceTotalsOf(rows[i], cash[i], prev);
    assert r == WithBalanceTotals(base, t);
    WithBalanceTotalsLookup(base, t);
    WithBalanceTotalsKeeps(base, t, "Cash");
    BalanceTotalsMeaning(rows[i], cash[i], prev);
    assert Amount(r, "Equity") == t.equity && Amount(r, "Total_Debt") == t.totalDebt && Amount(r, "Total_Assets") == t.totalAssets;
    assert Amount(r, "Working_Capital") == t.workingCapital && Amount(r, "Current_Assets") == t.currentAssets;
    assert Amount(r, "Current_Liabilities") == t.currentLiabilities;
  }

  /** Month-on-month change of total assets: zero in the first row, else the growth against the previous recomputed row. */
  lemma BalanceAssetsGrowth(rows: seq<Row>, cash: seq<real>, propagate: bool, i: int)
    requires 0 <= i < |rows| == |cash|
    ensures var b := RecomputedBalance(rows, cash, propagate);
      i == 0 ==> Get(b[0], "MoM_Change_Total_Assets_pct") == Num(0.0)
    ensures var b := RecomputedBalance(rows, cash, propagate);
      i > 0 ==> Get(b[i], "MoM_Change_Total_Assets_pct") == Num(GrowthPct(Amount(b[i], "Total_Assets"), Amount(b[i - 1], "Total_Assets")))
  {
    var b := RecomputedBalance(rows, cash, propagate);
    var prev := if i == 0 then None else Some(AssetsOf(rows[i - 1], cash[i - 1]));
    var t := BalanceTotalsOf(rows[i], cash[i], prev);
    assert Get(b[i], "MoM_Change_Total_Assets_pct") == Num(t.momChange) by {
      var base := if propagate then rows[i]["Cash" := Num(cash[i])] else rows[i];
      assert b[i] == WithBalanceTotals(base, t);
      WithBalanceTotalsLookup(base, t);
    }
    if i > 0 {
      RecomputedBalanceReads(rows, cash, propagate, i);
      RecomputedBalanceReads(rows, cash, propagate, i - 1);
    }
  }

  /**
   * Propagated cash: a row with a flow at the same index (other than the
   * first) holds the previous recomputed row's cash plus that flow, and every
   * other row holds its own cleaned cash.
   */
  lemma CashPropagates(rows: seq<Row>, flows: seq<real>, i: int)
    requires 0 <= i < |rows|
    ensures var b := RecomputedBalance(rows, CashSeries(rows, flows, true), true);
      0 < i < |flows| ==> Get(b[i], "Cash") == Num(Amount(b[i - 1], "Cash") + flows[i])
    ensures var b := RecomputedBalance(rows, CashSeries(rows, flows, true), true);
      (i == 0 || i >= |flows|) ==> Get(b[i], "Cash") == Num(Clean(rows[i], "Cash"))
  {
    var cash := CashSeries(rows, flows, true);
    RecomputedBalanceReads(rows, cash, true, i);
    assert cash[i] == PropagatedCash(rows, flows, i);
    if 0 < i < |flows| {
      RecomputedBalanceReads(rows, cash, true, i - 1);
      assert cash[i - 1] == PropagatedCash(rows, flows, i - 1);
    }
  }

  /**
   * Cash after the recompute when the balance sheet and the cash-flow
   * statement both have rows: a balance row other than the first with a
   * cash-flow row at the same index holds the previous row's new cash plus
   * that cash-flow row's new net cash flow.
   */
  lemma CashPropagation(rows: seq<Row>, cashFlow: seq<Row>, income: seq<Row>, i: int)
    requires 0 < i < |rows| && i < |cashFlow|
    ensures var b := RecomputedBalance(rows, CashSeries(rows, NetCashFlows(cashFlow, income), true), true);
      Get(b[i], "Cash") == Num(Amount(b[i - 1], "Cash") + Amount(RecomputedCashFlow(cashFlow, income)[i], "Net_Cash_Flow"))
  {
    var flows := NetCashFlows(cashFlow, income);
    CashPropagates(rows, flows, i);
    RecomputedCashFlowReads(cashFlow, income, i);
  }

  /** Propagated cash in closed form: the first row's cleaned cash plus the net cash flows at indices 1 to i. */
  lemma {:induction false} PropagatedCashTotal(rows: seq<Row>, flows: seq<real>, i: int)
    requires 0 <= i < |rows| && i < |flows|
    ensures PropagatedCash(rows, flows, i) == Clean(rows[0], "Cash") + Total(flows[1..i + 1])
  {
    if i == 0 {
      assert flows[1..1] == [];
    } else {
      PropagatedCashTotal(rows, flows, i - 1);
      assert flows[1..i + 1][..i - 1] == flows[1..i];
    }
  }

  /**
   * When cash propagates, the cash of every balance row that has a cash-flow
   * row at its index is the first row's cleaned cash plus the new net cash
   * flows of cash-flow rows 1 to i.
   */
  lemma CashCarriedForward(rows: seq<Row>, cashFlow: seq<Row>, income: seq<Row>, i: int)
    requires 0 <= i < |rows| && i < |cashFlow|
    ensures var flows := NetCashFlows(cashFlow, income);
      Amount(RecomputedBalance(rows, CashSeries(rows, flows, true), true)[i], "Cash")
        == Clean(rows[0], "Cash") + Sum(RecomputedCashFlow(cashFlow, income)[1..i + 1], "Net_Cash_Flow")
  {
    var flows := NetCashFlows(cashFlow, income);
    var cash := CashSeries(rows, flows, true);
    assert Amount(RecomputedBalance(rows, cash, true)[i], "Cash") == Clean(rows[0], "Cash") + Total(flows[1..i + 1]) by {
      RecomputedBalanceReads(rows, cash, true, i);
      assert cash[i] == PropagatedCash(rows, flows, i);
      PropagatedCashTotal(rows, flows, i);
    }
    FlowsAreNetCashFlows(cashFlow, income, 1, i + 1);
  }

  /** Rows that hold each amount of a sequence as a number in a column sum, over that column, to its total. */
  lemma {:induction false} TotalIsSum(xs: seq<real>, rs: seq<Row>, key: string)
    requires |xs| == |rs| && forall j :: 0 <= j < |rs| ==> Get(rs[j], key) == Num(xs[j])
    ensures Total(xs) == Sum(rs, key)
  {
    if xs != [] {
      var n := |xs| - 1;
      TotalIsSum(xs[..n], rs[..n], key);
      assert Get(rs[n], key) == Num(xs[n]);
    }
  }

  /** The total of the net cash flows of rows lo to hi - 1 is the sum of the column the recompute wrote. */
  lemma FlowsAreNetCashFlows(rows: seq<Row>, income: seq<Row>, lo: int, hi: int)
    requires 0 <= lo <= hi <= |rows|
    ensures Total(NetCashFlows(rows, income)[lo..hi]) == Sum(RecomputedCashFlow(rows, income)[lo..hi], "Net_Cash_Flow")
  {
    var flows := NetCashFlows(rows, income)[lo..hi];
    var r := RecomputedCashFlow(rows, income)[lo..hi];
    forall j | 0 <= j < |r|
      ensures Get(r[j], "Net_Cash_Flow") == Num(flows[j])
    {
      RecomputedCashFlowReads(rows, income, lo + j);
    }
    TotalIsSum(flows, r, "Net_Cash_Flow");
  }

  /** The income recompute keeps every column it does not write. */
  lemma IncomeKeepsRaw(rows: seq<Row>, key: string)
    requires key !in IncomeTotalsKeys
    ensures forall i :: 0 <= i < |rows| ==> Get(RecomputedIncome(rows)[i], key) == Get(rows[i], key)
  {
    forall i | 0 <= i < |rows|
      ensures Get(RecomputedIncome(rows)[i], key) == Get(rows[i], key)
    {
      WithIncomeTotalsKeeps(rows[i], IncomeTotalsOf(rows[i], PrevIncome(rows, i)), key);
    }
  }

  /** The cash-flow recompute keeps every column it does not write. */
  lemma CashFlowKeepsRaw(rows: seq<Row>, income: seq<Row>, key: string)
    requires key !in CashFlowTotalsKeys
    ensures forall i :: 0 <= i < |rows| ==> Get(RecomputedCashFlow(rows, income)[i], key) == Get(rows[i], key)
  {
    forall i | 0 <= i < |rows|
      ensures Get(RecomputedCashFlow(rows, income)[i], key) == Get(rows[i], key)
    {
      var inc := IncomeRowFor(income, rows[i]);
      var t := CashFlowTotalsOf(rows[i], NetOf(inc), Amount(inc, "Revenue"), Total(NetCashFlows(rows, income)[..i]));
      assert RecomputedCashFlow(rows, income)[i] == WithCashFlowTotals(rows[i], t);
      WithCashFlowTotalsKeeps(rows[i], t, key);
    }
  }

  /** The balance-sheet recompute keeps every column it does not write (cash included, unless it propagates). */
  lemma BalanceKeepsRaw(rows: seq<Row>, cash: seq<real>, propagate: bool, key: string)
    requires |cash| == |rows| && key !in BalanceTotalsKeys && (key != "Cash" || !propagate)
    ensures forall i :: 0 <= i < |rows| ==> Get(RecomputedBalance(rows, cash, propagate)[i], key) == Get(rows[i], key)
  {
    forall i | 0 <= i < |rows|
      ensures Get(RecomputedBalance(rows, cash, propagate)[i], key) == Get(rows[i], key)
    {
      var base := if propagate then rows[i]["Cash" := Num(cash[i])] else rows[i];
      var t := BalanceTotalsOf(rows[i], cash[i], if i == 0 then None else Some(AssetsOf(rows[i - 1], cash[i - 1])));
      assert RecomputedBalance(rows, cash, propagate)[i] == WithBalanceTotals(base, t);
      WithBalanceTotalsKeeps(base, t, key);
    }
  }

  /**
   * The recompute writes only its own columns (and, when cash propagates, the
   * balance sheet's cash): every other column keeps its cell in every row.
   */
  lemma RecomputeKeepsRawColumns(d: Data, key: string)
    ensures key !in IncomeTotalsKeys ==> forall i :: 0 <= i < |d.income| ==> Get(Recomputed(d).income[i], key) == Get(d.income[i], key)
    ensures key !in CashFlowTotalsKeys ==> forall i :: 0 <= i < |d.cashFlow| ==> Get(Recomputed(d).cashFlow[i], key) == Get(d.cashFlow[i], key)
    ensures key !in BalanceTotalsKeys && (key != "Cash" || !Propagates(d)) ==>
      forall i :: 0 <= i < |d.balance| ==> Get(Recomputed(d).balance[i], key) == Get(d.balance[i], key)
  {
    if key !in IncomeTotalsKeys {
      IncomeKeepsRaw(d.income, key);
    }
    if key !in CashFlowTotalsKeys {
      CashFlowKeepsRaw(d.cashFlow, d.income, key);
    }
    if key !in BalanceTotalsKeys && (key != "Cash" || !Propagates(d)) {
      BalanceKeepsRaw(d.balance, CashSeries(d.balance, NetCashFlows(d.cashFlow, d.income), Propagates(d)), Propagates(d), key);
    }
  }

  // ---------------------------------------------------------------------------
  // What the recompute reads
  // ---------------------------------------------------------------------------

  /** Two rows that hold the same cells outside the given columns. */
  predicate SameOutside(a: Row, b: Row, keys: set<string>) {
    a - keys == b - keys
  }

  /** Two statements of equal length whose rows pairwise hold the same cells outside the given columns. */
  predicate RowsSameOutside(a: seq<Row>, b: seq<Row>, keys: set<string>) {
    |a| == |b| && forall i :: 0 <= i < |a| ==> SameOutside(a[i], b[i], keys)
  }

  /** Rows that hold the same cells outside some columns read the same cell in every other column. */
  lemma GetOutside(a: Row, b: Row, keys: set<string>, key: string)
    requires SameOutside(a, b, keys) && key !in keys
    ensures Get(a, key) == Get(b, key)
  {
    assert key in a <==> key in a - keys;
    assert key in b <==> key in b - keys;
    if key in a {
      assert (a - keys)[key] == a[key];
      assert (b - keys)[key] == b[key];
    }
  }

  /** Writing the same cell into the same column of two such rows keeps them so. */
  lemma SameOutsideUpdate(a: Row, b: Row, keys: set<string>, key: string, c: Cell)
    requires SameOutside(a, b, keys)
    ensures SameOutside(a[key := c], b[key := c], keys)
  {
    forall k | k !in keys && k != key
      ensures (k in a <==> k in b) && (k in a ==> a[k] == b[k])
    {
      assert k in a <==> k in a - keys;
      assert k in b <==> k in b - keys;
      if k in a {
        assert (a - keys)[k] == a[k];
      }
    }
  }

  /** Writing the income figures into rows that differ only in the columns they fill gives the same row. */
  lemma WithIncomeTotalsOutside(a: Row, b: Row, t: IncomeTotals)
    requires SameOutside(a, b, IncomeTotalsKeys)
    ensures WithIncomeTotals(a, t) == WithIncomeTotals(b, t)
  {
    forall k | k !in IncomeTotalsKeys
      ensures (k in a <==> k in b) && (k in a ==> a[k] == b[k])
    {
      assert k in a <==> k in a - IncomeTotalsKeys;
      assert k in b <==> k in b - IncomeTotalsKeys;
      if k in a {
        assert (a - IncomeTotalsKeys)[k] == a[k];
      }
    }
  }

  /** Rows that hold the same cells outside some columns agree on presence and value of every other column. */
  lemma SameOutsideAt(a: Row, b: Row, keys: set<string>, key: string)
    requires SameOutside(a, b, keys) && key !in keys
    ensures (key in a <==> key in b) && (key in a ==> a[key] == b[key])
  {
    assert key in a <==> key in a - keys;
    assert key in b <==> key in b - keys;
    if key in a {
      assert (a - keys)[key] == a[key];
    }
  }

  /** Writing the cash-flow figures into rows that differ only in the columns they fill gives the same row. */
  lemma WithCashFlowTotalsOutside(a: Row, b: Row, t: CashFlowTotals)
    requires SameOutside(a, b, CashFlowTotalsKeys)
    ensures WithCashFlowTotals(a, t) == WithCashFlowTotals(b, t)
  {
    forall k | k !in CashFlowTotalsKeys
      ensures (k in a <==> k in b) && (k in a ==> a[k] == b[k])
    {
      SameOutsideAt(a, b, CashFlowTotalsKeys, k);
    }
  }

  /** Writing the balance-sheet figures into rows that differ only in the columns they fill gives the same row. */
  lemma WithBalanceTotalsOutside(a: Row, b: Row, t: BalanceTotals)
    requires SameOutside(a, b, BalanceTotalsKeys)
    ensures WithBalanceTotals(a, t) == WithBalanceTotals(b, t)
  {
    forall k | k !in BalanceTotalsKeys
      ensures (k in a <==> k in b) && (k in a ==> a[k] == b[k])
    {
      SameOutsideAt(a, b, BalanceTotalsKeys, k);
    }
  }

  /** Overwriting a column among `keys` leaves a row the same outside them. */
  lemma UpdateSameOutside(row: Row, keys: set<string>, key: string, c: Cell)
    requires key in keys
    ensures SameOutside(row[key := c], row, keys)
  {
    assert row[key := c] - keys == row - keys;
  }

  /** The enhancer's income figures lie among the columns the recompute writes. */
  lemma WithIncomeSameOutside(row: Row, f: IncomeFigures)
    ensures SameOutside(WithIncome(row, f), row, IncomeTotalsKeys)
  {
    assert WithIncome(row, f) - IncomeTotalsKeys == row - IncomeTotalsKeys;
  }

  /** The enhancer's cash-flow figures lie among the columns the recompute writes. */
  lemma WithCashFlowSameOutside(row: Row, f: CashFlowFigures)
    ensures SameOutside(WithCashFlow(row, f), row, CashFlowTotalsKeys)
  {
    assert WithCashFlow(row, f) - CashFlowTotalsKeys == row - CashFlowTotalsKeys;
  }

  /** The enhancer's balance-sheet figures lie among the columns the recompute writes. */
  lemma WithBalanceSameOutside(row: Row, f: BalanceFigures)
    ensures SameOutside(WithBalance(row, f), row, BalanceTotalsKeys)
  {
    assert WithBalance(row, f) - BalanceTotalsKeys == row - BalanceTotalsKeys;
  }

  /** Income rows that differ only in the columns the recompute writes derive the same profit lines. */
  lemma IncomeReadsAgree(a: Row, b: Row)
    requires SameOutside(a, b, IncomeTotalsKeys)
    ensures Clean(a, "Revenue") == Clean(b, "Revenue") && Amount(a, "Revenue") == Amount(b, "Revenue")
    ensures GrossOf(a) == GrossOf(b) && NetOf(a) == NetOf(b)
  {
    GetOutside(a, b, IncomeTotalsKeys, "Revenue");
    GetOutside(a, b, IncomeTotalsKeys, "Cost_of_Goods_Sold");
    GetOutside(a, b, IncomeTotalsKeys, "Operating_Expenses");
  }

  /** Row i of two income statements that differ only in the columns the recompute writes is recomputed alike. */
  lemma IncomeRowAgree(a: seq<Row>, b: seq<Row>, i: int)
    requires RowsSameOutside(a, b, IncomeTotalsKeys) && 0 <= i < |a|
    ensures RecomputedIncomeRow(a, i) == RecomputedIncomeRow(b, i)
  {
    IncomeReadsAgree(a[i], b[i]);
    if i > 0 {
      IncomeReadsAgree(a[i - 1], b[i - 1]);
    }
    var t := IncomeTotalsOf(a[i], PrevIncome(a, i));
    assert t == IncomeTotalsOf(b[i], PrevIncome(b, i));
    WithIncomeTotalsOutside(a[i], b[i], t);
  }

  /** Income statements that differ only in the columns the recompute writes are recomputed alike. */
  lemma RecomputedIncomeAgree(a: seq<Row>, b: seq<Row>)
    requires RowsSameOutside(a, b, IncomeTotalsKeys)
    ensures RecomputedIncome(a) == RecomputedIncome(b)
  {
    forall i | 0 <= i < |a|
      ensures RecomputedIncome(a)[i] == RecomputedIncome(b)[i]
    {
      IncomeRowAgree(a, b, i);
    }
  }

  /** Income statements that differ only in the columns the recompute writes lead each month to alike rows. */
  lemma IncomeRowForAgree(incA: seq<Row>, incB: seq<Row>, a: Row, b: Row)
    requires RowsSameOutside(incA, incB, IncomeTotalsKeys) && MonthOf(a) == MonthOf(b)
    ensures SameOutside(IncomeRowFor(incA, a), IncomeRowFor(incB, b), IncomeTotalsKeys)
  {
    forall i | 0 <= i < |incA|
      ensures MonthOf(incA[i]) == MonthOf(incB[i])
    {
      GetOutside(incA[i], incB[i], IncomeTotalsKeys, "Month");
    }
    MonthIndexAgree(incA, incB);
  }

  /** Cash-flow statements and income statements that differ only in written columns give the same net cash flows. */
  lemma NetCashFlowsAgree(a: seq<Row>, b: seq<Row>, incA: seq<Row>, incB: seq<Row>)
    requires RowsSameOutside(a, b, CashFlowTotalsKeys) && RowsSameOutside(incA, incB, IncomeTotalsKeys)
    ensures NetCashFlows(a, incA) == NetCashFlows(b, incB)
    ensures forall i :: 0 <= i < |a| ==>
      SameOutside(IncomeRowFor(incA, a[i]), IncomeRowFor(incB, b[i]), IncomeTotalsKeys)
  {
    forall i | 0 <= i < |a|
      ensures NetCashFlows(a, incA)[i] == NetCashFlows(b, incB)[i]
      ensures SameOutside(IncomeRowFor(incA, a[i]), IncomeRowFor(incB, b[i]), IncomeTotalsKeys)
    {
      GetOutside(a[i], b[i], CashFlowTotalsKeys, "Month");
      GetOutside(a[i], b[i], CashFlowTotalsKeys, "Cash_From_Investing");
      GetOutside(a[i], b[i], CashFlowTotalsKeys, "Cash_From_Financing");
      IncomeRowForAgree(incA, incB, a[i], b[i]);
      IncomeReadsAgree(IncomeRowFor(incA, a[i]), IncomeRowFor(incB, b[i]));
    }
  }

  /** Row i of the cash-flow statements, given the same net cash flows and alike income rows for its month. */
  lemma CashFlowRowAgree(a: seq<Row>, b: seq<Row>, incA: seq<Row>, incB: seq<Row>, i: int)
    requires |a| == |b| && 0 <= i < |a| && SameOutside(a[i], b[i], CashFlowTotalsKeys)
    requires NetCashFlows(a, incA) == NetCashFlows(b, incB)
    requires SameOutside(IncomeRowFor(incA, a[i]), IncomeRowFor(incB, b[i]), IncomeTotalsKeys)
    ensures RecomputedCashFlowRow(a, incA, i) == RecomputedCashFlowRow(b, incB, i)
  {
    var incRowA := IncomeRowFor(incA, a[i]);
    var incRowB := IncomeRowFor(incB, b[i]);
    var t := CashFlowTotalsOf(a[i], NetOf(incRowA), Amount(incRowA, "Revenue"), Total(NetCashFlows(a, incA)[..i]));
    assert t == CashFlowTotalsOf(b[i], NetOf(incRowB), Amount(incRowB, "Revenue"), Total(NetCashFlows(b, incB)[..i])) by {
      IncomeReadsAgree(incRowA, incRowB);
      GetOutside(a[i], b[i], CashFlowTotalsKeys, "Cash_From_Investing");
      GetOutside(a[i], b[i], CashFlowTotalsKeys, "Cash_From_Financing");
    }
    WithCashFlowTotalsOutside(a[i], b[i], t);
  }

  /** Cash-flow statements and income statements that differ only in written columns are recomputed alike. */
  lemma RecomputedCashFlowAgree(a: seq<Row>, b: seq<Row>, incA: seq<Row>, incB: seq<Row>)
    requires RowsSameOutside(a, b, CashFlowTotalsKeys) && RowsSameOutside(incA, incB, IncomeTotalsKeys)
    ensures RecomputedCashFlow(a, incA) == RecomputedCashFlow(b, incB)
  {
    NetCashFlowsAgree(a, b, incA, incB);
    forall i | 0 <= i < |a|
      ensures RecomputedCashFlow(a, incA)[i] == RecomputedCashFlow(b, incB)[i]
    {
      CashFlowRowAgree(a, b, incA, incB, i);
    }
  }

  /** Balance-sheet rows that differ only in the columns the recompute writes read the same raw amounts. */
  lemma BalanceReadsAgree(a: Row, b: Row)
    requires SameOutside(a, b, BalanceTotalsKeys)
    ensures Clean(a, "Cash") == Clean(b, "Cash") && Clean(a, "Accounts_Receivable") == Clean(b, "Accounts_Receivable")
    ensures Clean(a, "Equipment") == Clean(b, "Equipment") && Clean(a, "Accounts_Payable") == Clean(b, "Accounts_Payable")
    ensures Clean(a, "Loans") == Clean(b, "Loans")
  {
    GetOutside(a, b, BalanceTotalsKeys, "Cash");
    GetOutside(a, b, BalanceTotalsKeys, "Accounts_Receivable");
    GetOutside(a, b, BalanceTotalsKeys, "Equipment");
    GetOutside(a, b, BalanceTotalsKeys, "Accounts_Payable");
    GetOutside(a, b, BalanceTotalsKeys, "Loans");
  }

  /** Propagated cash depends on the rows only through their cleaned cash. */
  lemma {:induction false} PropagatedCashAgree(a: seq<Row>, b: seq<Row>, flows: seq<real>, i: int)
    requires RowsSameOutside(a, b, BalanceTotalsKeys) && 0 <= i < |a|
    ensures PropagatedCash(a, flows, i) == PropagatedCash(b, flows, i)
  {
    BalanceReadsAgree(a[i], b[i]);
    if i > 0 {
      PropagatedCashAgree(a, b, flows, i - 1);
    }
  }

  /** Balance sheets that differ only in the columns the recompute writes carry the same cash. */
  lemma CashSeriesAgree(a: seq<Row>, b: seq<Row>, flows: seq<real>, propagate: bool)
    requires RowsSameOutside(a, b, BalanceTotalsKeys)
    ensures CashSeries(a, flows, propagate) == CashSeries(b, flows, propagate)
  {
    forall i | 0 <= i < |a|
      ensures CashSeries(a, flows, propagate)[i] == CashSeries(b, flows, propagate)[i]
    {
      BalanceReadsAgree(a[i], b[i]);
      PropagatedCashAgree(a, b, flows, i);
    }
  }

  /** Row i of two balance sheets that differ only in the columns the recompute writes is recomputed alike. */
  lemma BalanceRowAgree(a: seq<Row>, b: seq<Row>, cash: seq<real>, propagate: bool, i: int)
    requires RowsSameOutside(a, b, BalanceTotalsKeys) && |cash| == |a| && 0 <= i < |a|
    ensures RecomputedBalanceRow(a, cash, propagate, i) == RecomputedBalanceRow(b, cash, propagate, i)
  {
    BalanceReadsAgree(a[i], b[i]);
    var prev := if i == 0 then None else Some(AssetsOf(a[i - 1], cash[i - 1]));
    if i > 0 {
      BalanceReadsAgree(a[i - 1], b[i - 1]);
      assert prev == Some(AssetsOf(b[i - 1], cash[i - 1]));
    }
    var t := BalanceTotalsOf(a[i], cash[i], prev);
    assert t == BalanceTotalsOf(b[i], cash[i], prev);
    if propagate {
      SameOutsideUpdate(a[i], b[i], BalanceTotalsKeys, "Cash", Num(cash[i]));
      WithBalanceTotalsOutside(a[i]["Cash" := Num(cash[i])], b[i]["Cash" := Num(cash[i])], t);
    } else {
      WithBalanceTotalsOutside(a[i], b[i], t);
    }
  }

  /** Balance sheets that differ only in the columns the recompute writes are recomputed alike. */
  lemma RecomputedBalanceAgree(a: seq<Row>, b: seq<Row>, cash: seq<real>, propagate: bool)
    requires RowsSameOutside(a, b, BalanceTotalsKeys) && |cash| == |a|
    ensures RecomputedBalance(a, cash, propagate) == RecomputedBalance(b, cash, propagate)
  {
    forall i | 0 <= i < |a|
      ensures RecomputedBalance(a, cash, propagate)[i] == RecomputedBalance(b, cash, propagate)[i]
    {
      BalanceRowAgree(a, b, cash, propagate, i);
    }
  }

  /**
   * The recompute reads only raw columns: datasets whose rows differ only in
   * the columns it writes (an income row's profit lines and ratios, a
   * cash-flow row's operating cash, net cash flow and what follows from them,
   * a balance row's totals, equity and ratios) are recomputed alike.
   */
  lemma RecomputedAgree(x: Data, y: Data)
    requires RowsSameOutside(x.income, y.income, IncomeTotalsKeys)
    requires RowsSameOutside(x.cashFlow, y.cashFlow, CashFlowTotalsKeys)
    requires RowsSameOutside(x.balance, y.balance, BalanceTotalsKeys)
    ensures Recomputed(x) == Recomputed(y)
  {
    RecomputedIncomeAgree(x.income, y.income);
    RecomputedCashFlowAgree(x.cashFlow, y.cashFlow, x.income, y.income);
    NetCashFlowsAgree(x.cashFlow, y.cashFlow, x.income, y.income);
    var flows := NetCashFlows(x.cashFlow, x.income);
    CashSeriesAgree(x.balance, y.balance, flows, Propagates(x));
    RecomputedBalanceAgree(x.balance, y.balance, CashSeries(x.balance, flows, Propagates(x)), Propagates(x));
  }

  /** The enhancement pass writes only columns the recompute overwrites. */
  lemma EnhancedSameOutside(d: Data)
    ensures RowsSameOutside(Enhanced(d).income, d.income, IncomeTotalsKeys)
    ensures RowsSameOutside(Enhanced(d).cashFlow, d.cashFlow, CashFlowTotalsKeys)
    ensures RowsSameOutside(Enhanced(d).balance, d.balance, BalanceTotalsKeys)
  {
    var e := Enhanced(d);
    forall i | 0 <= i < |d.income|
      ensures SameOutside(e.income[i], d.income[i], IncomeTotalsKeys)
    {
      WithIncomeSameOutside(d.income[i], IncomeFiguresOf(d.income[i], Before(d.income, i)));
    }
    forall i | 0 <= i < |d.cashFlow|
      ensures SameOutside(e.cashFlow[i], d.cashFlow[i], CashFlowTotalsKeys)
    {
      WithCashFlowSameOutside(d.cashFlow[i], CashFlowFiguresOf(d.cashFlow[i], Sum(d.cashFlow[..i + 1], "Net_Cash_Flow"), IncomeRowFor(d.income, d.cashFlow[i])));
    }
    forall i | 0 <= i < |d.balance|
      ensures SameOutside(e.balance[i], d.balance[i], BalanceTotalsKeys)
    {
      WithBalanceSameOutside(d.balance[i], BalanceFiguresOf(d.balance[i], Before(d.balance, i)));
    }
  }

  /**
   * The enhancement pass that runs before the recompute in an edit changes
   * nothing: every column it writes is overwritten by the recompute, and none
   * of them is read.
   */
  lemma RecomputeAfterEnhance(d: Data)
    ensures Recomputed(Enhanced(d)) == Recomputed(d)
  {
    EnhancedSameOutside(d);
    RecomputedAgree(Enhanced(d), d);
  }

  // ---------------------------------------------------------------------------
  // Properties of the edit
  // ---------------------------------------------------------------------------

  /**
   * Saving an edit: nothing changes when the table id is unknown or the row
   * does not exist; otherwise the result is the recompute of the dataset with
   * the sanitised text stored, the enhancement pass in between notwithstanding.
   */
  lemma SavedEditOutcome(d: Data, tableId: string, rowIndex: int, colKey: string, newValue: string)
    ensures var w := Written(d, tableId, rowIndex, colKey, Sanitize(newValue));
      w.None? ==> SavedEdit(d, tableId, rowIndex, colKey, newValue) == d
    ensures var w := Written(d, tableId, rowIndex, colKey, Sanitize(newValue));
      w.Some? ==> SavedEdit(d, tableId, rowIndex, colKey, newValue) == Recomputed(w.value)
  {
    var w := Written(d, tableId, rowIndex, colKey, Sanitize(newValue));
    if w.Some? {
      RecomputeAfterEnhance(w.value);
    }
  }

  /**
   * An edit of a column the recompute does not write survives it: the edited
   * cell afterwards holds the sanitised text. In the balance sheet this holds
   * for cash only when cash does not propagate.
   */
  lemma EditSurvives(d: Data, tableId: string, rowIndex: int, colKey: string, newValue: string)
    ensures tableId == "income" && 0 <= rowIndex < |d.income| && colKey !in IncomeTotalsKeys ==>
      Get(SavedEdit(d, tableId, rowIndex, colKey, newValue).income[rowIndex], colKey) == Str(Sanitize(newValue))
    ensures tableId == "cashflow" && 0 <= rowIndex < |d.cashFlow| && colKey !in CashFlowTotalsKeys ==>
      Get(SavedEdit(d, tableId, rowIndex, colKey, newValue).cashFlow[rowIndex], colKey) == Str(Sanitize(newValue))
    ensures tableId == "balance" && 0 <= rowIndex < |d.balance| && colKey !in BalanceTotalsKeys && (colKey != "Cash" || !Propagates(d)) ==>
      Get(SavedEdit(d, tableId, rowIndex, colKey, newValue).balance[rowIndex], colKey) == Str(Sanitize(newValue))
  {
    var w := Written(d, tableId, rowIndex, colKey, Sanitize(newValue));
    SavedEditOutcome(d, tableId, rowIndex, colKey, newValue);
    if w.Some? {
      RecomputeKeepsRawColumns(w.value, colKey);
    }
  }

  /** A statement with one cell overwritten in a column among `keys` is the same outside them. */
  lemma RowsUpdateSameOutside(rows: seq<Row>, keys: set<string>, k: int, key: string, c: Cell)
    requires 0 <= k < |rows| && key in keys
    ensures RowsSameOutside(rows[k := rows[k][key := c]], rows, keys)
  {
    UpdateSameOutside(rows[k], keys, key, c);
  }

  /** Every statement is the same as itself outside any columns. */
  lemma RowsSameOutsideSelf(rows: seq<Row>, keys: set<string>)
    ensures RowsSameOutside(rows, rows, keys)
  {
  }

  /**
   * An edit of a column the recompute writes (operating cash in the cash-flow
   * statement, equity in the balance sheet, or any derived figure) is lost:
   * the result is the recompute of the dataset as it was.
   */
  lemma EditOfDerivedColumnLost(d: Data, tableId: string, rowIndex: int, colKey: string, newValue: string)
    requires (tableId == "income" && colKey in IncomeTotalsKeys) || (tableId == "cashflow" && colKey in CashFlowTotalsKeys)
          || (tableId == "balance" && colKey in BalanceTotalsKeys)
    ensures var w := Written(d, tableId, rowIndex, colKey, Sanitize(newValue));
      w.Some? ==> SavedEdit(d, tableId, rowIndex, colKey, newValue) == Recomputed(d)
  {
    var w := Written(d, tableId, rowIndex, colKey, Sanitize(newValue));
    SavedEditOutcome(d, tableId, rowIndex, colKey, newValue);
    if w.Some? {
      var c := Str(Sanitize(newValue));
      var x := w.value;
      RowsSameOutsideSelf(d.income, IncomeTotalsKeys);
      RowsSameOutsideSelf(d.cashFlow, CashFlowTotalsKeys);
      RowsSameOutsideSelf(d.balance, BalanceTotalsKeys);
      if tableId == "income" {
        RowsUpdateSameOutside(d.income, IncomeTotalsKeys, rowIndex, colKey, c);
      } else if tableId == "cashflow" {
        RowsUpdateSameOutside(d.cashFlow, CashFlowTotalsKeys, rowIndex, colKey, c);
      } else {
        RowsUpdateSameOutside(d.balance, BalanceTotalsKeys, rowIndex, colKey, c);
      }
      RecomputedAgree(x, d);
    }
  }

  /** Writing one cell into a column of rows that differ only there and in `keys` makes them differ only in `keys`. */
  lemma SameOutsideOverwrite(a: Row, b: Row, keys: set<string>, key: string, c: Cell)
    requires SameOutside(a, b, keys + {key})
    ensures SameOutside(a[key := c], b[key := c], keys)
  {
    forall k | k !in keys && k != key
      ensures (k in a <==> k in b) && (k in a ==> a[k] == b[k])
    {
      SameOutsideAt(a, b, keys + {key}, k);
    }
  }

  /** Propagated cash reads a row's own cash only in the first row and in rows without a flow at their index. */
  lemma {:induction false} PropagatedCashReads(a: seq<Row>, b: seq<Row>, flows: seq<real>, i: int)
    requires |a| == |b| && 0 <= i < |a|
    requires forall j :: 0 <= j < |a| && (j == 0 || j >= |flows|) ==> Clean(a[j], "Cash") == Clean(b[j], "Cash")
    ensures PropagatedCash(a, flows, i) == PropagatedCash(b, flows, i)
  {
    if i > 0 {
      PropagatedCashReads(a, b, flows, i - 1);
    }
  }

  /** Row i of two balance sheets that differ only in written columns and cash is recomputed alike when cash propagates. */
  lemma PropagatedRowAgree(a: seq<Row>, b: seq<Row>, cash: seq<real>, i: int)
    requires RowsSameOutside(a, b, BalanceTotalsKeys + {"Cash"}) && |cash| == |a| && 0 <= i < |a|
    ensures RecomputedBalanceRow(a, cash, true, i) == RecomputedBalanceRow(b, cash, true, i)
  {
    var keys := BalanceTotalsKeys + {"Cash"};
    GetOutside(a[i], b[i], keys, "Accounts_Receivable");
    GetOutside(a[i], b[i], keys, "Equipment");
    GetOutside(a[i], b[i], keys, "Accounts_Payable");
    GetOutside(a[i], b[i], keys, "Loans");
    var prev := if i == 0 then None else Some(AssetsOf(a[i - 1], cash[i - 1]));
    if i > 0 {
      GetOutside(a[i - 1], b[i - 1], keys, "Accounts_Receivable");
      GetOutside(a[i - 1], b[i - 1], keys, "Equipment");
      assert prev == Some(AssetsOf(b[i - 1], cash[i - 1]));
    }
    var t := BalanceTotalsOf(a[i], cash[i], prev);
    assert t == BalanceTotalsOf(b[i], cash[i], prev);
    SameOutsideOverwrite(a[i], b[i], BalanceTotalsKeys, "Cash", Num(cash[i]));
    WithBalanceTotalsOutside(a[i]["Cash" := Num(cash[i])], b[i]["Cash" := Num(cash[i])], t);
  }

  /** Balance sheets that differ only in written columns and cash are recomputed alike with the same propagated cash. */
  lemma PropagatedBalanceAgree(a: seq<Row>, b: seq<Row>, cash: seq<real>)
    requires RowsSameOutside(a, b, BalanceTotalsKeys + {"Cash"}) && |cash| == |a|
    ensures RecomputedBalance(a, cash, true) == RecomputedBalance(b, cash, true)
  {
    forall i | 0 <= i < |a|
      ensures RecomputedBalance(a, cash, true)[i] == RecomputedBalance(b, cash, true)[i]
    {
      PropagatedRowAgree(a, b, cash, i);
    }
  }

  /** Overwriting the cash of a row that has a flow at its index (other than the first) leaves the propagated cash as it was. */
  lemma MidCashIgnored(rows: seq<Row>, flows: seq<real>, k: int, c: Cell)
    requires 0 < k < |rows| && k < |flows|
    ensures CashSeries(rows[k := rows[k]["Cash" := c]], flows, true) == CashSeries(rows, flows, true)
  {
    var b := rows[k := rows[k]["Cash" := c]];
    forall i | 0 <= i < |rows|
      ensures PropagatedCash(b, flows, i) == PropagatedCash(rows, flows, i)
    {
      PropagatedCashReads(b, rows, flows, i);
    }
  }

  /**
   * An edit of the cash of a balance row other than the first, when the
   * cash-flow statement has a row at the same index, is lost: the recompute
   * carries the previous row's cash forward over it.
   */
  lemma MidCashEditLost(d: Data, rowIndex: int, newValue: string)
    requires 0 < rowIndex < |d.balance| && rowIndex < |d.cashFlow|
    ensures SavedEdit(d, "balance", rowIndex, "Cash", newValue) == Recomputed(d)
  {
    var c := Str(Sanitize(newValue));
    var rows := d.balance;
    var edited := rows[rowIndex := rows[rowIndex]["Cash" := c]];
    var x := d.(balance := edited);
    assert SavedEdit(d, "balance", rowIndex, "Cash", newValue) == Recomputed(x) by {
      assert Written(d, "balance", rowIndex, "Cash", Sanitize(newValue)) == Some(x);
      SavedEditOutcome(d, "balance", rowIndex, "Cash", newValue);
    }
    var flows := NetCashFlows(d.cashFlow, d.income);
    assert Recomputed(x).balance == Recomputed(d).balance by {
      MidCashIgnored(rows, flows, rowIndex, c);
      UpdateSameOutside(rows[rowIndex], BalanceTotalsKeys + {"Cash"}, "Cash", c);
      PropagatedBalanceAgree(edited, rows, CashSeries(rows, flows, true));
    }
  }
}
