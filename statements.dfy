/**
 * The three financial statements as the application holds them: rows of the
 * income statement, the cash-flow statement and the balance sheet, and the
 * month index the enhancer and the edit path use to align them.
 */
module Statements {
  import opened Wrappers
  import opened JsValues
  import opened Core

  /** A dataset object as it arrives: each statement may be absent. */
  datatype RawDatasets = RawDatasets(incomeStatement: Option<seq<Row>>, cashFlow: Option<seq<Row>>, balanceSheet: Option<seq<Row>>)

  /** The three statements. */
  datatype Data = Data(income: seq<Row>, cashFlow: seq<Row>, balance: seq<Row>)

  /** `dataset.X || []` for each statement. */
  function Normalize(raw: RawDatasets): (d: Data)
    ensures raw.incomeStatement.None? ==> d.income == []
    ensures raw.incomeStatement.Some? ==> d.income == raw.incomeStatement.value
    ensures raw.cashFlow.None? ==> d.cashFlow == []
    ensures raw.cashFlow.Some? ==> d.cashFlow == raw.cashFlow.value
    ensures raw.balanceSheet.None? ==> d.balance == []
    ensures raw.balanceSheet.Some? ==> d.balance == raw.balanceSheet.value
  {
    Data(raw.incomeStatement.GetOr([]), raw.cashFlow.GetOr([]), raw.balanceSheet.GetOr([]))
  }

  /**
   * The dataset object the dashboard edits in place (`window.financeData`):
   * its statements are reassigned row by row by the enhancer and the edit path.
   */
  class FinanceData {
    var income: seq<Row>
    var cashFlow: seq<Row>
    var balance: seq<Row>

    /** The statements as a value. */
    function Value(): Data
      reads this
    {
      Data(income, cashFlow, balance)
    }

    constructor (d: Data)
      ensures Value() == d
    {
      income := d.income;
      cashFlow := d.cashFlow;
      balance := d.balance;
    }
  }

  /** The `Month` cell of a row. */
  function MonthOf(row: Row): Cell {
    Get(row, "Month")
  }

  /**
   * The month lookup `byMonth[r.Month] = ...` built by one pass over the rows:
   * rows whose month is falsy are skipped and a later row with the same month
   * replaces an earlier one. It maps a month to the index of its row.
   */
  function MonthIndex(rows: seq<Row>): (idx: map<Cell, nat>)
    ensures forall c :: c in idx ==> idx[c] < |rows|
  {
    if rows == [] then map[]
    else
      var n := |rows| - 1;
      var m := MonthOf(rows[n]);
      if Truthy(m) then MonthIndex(rows[..n])[m := n] else MonthIndex(rows[..n])
  }

  /** The index only holds truthy months, each pointing at a row of that month. */
  lemma {:induction false} MonthIndexFinds(rows: seq<Row>)
    ensures forall c :: c in MonthIndex(rows) ==> MonthOf(rows[MonthIndex(rows)[c]]) == c && Truthy(c)
  {
    if rows != [] {
      var n := |rows| - 1;
      MonthIndexFinds(rows[..n]);
      forall c | c in MonthIndex(rows[..n])
        ensures rows[MonthIndex(rows[..n])[c]] == rows[..n][MonthIndex(rows[..n])[c]]
      {
      }
    }
  }

  /** No row after the one the index points at has the same month. */
  lemma {:induction false} MonthIndexIsLast(rows: seq<Row>)
    ensures forall c, j :: c in MonthIndex(rows) && MonthIndex(rows)[c] < j < |rows| ==> MonthOf(rows[j]) != c
  {
    if rows != [] {
      var n := |rows| - 1;
      MonthIndexIsLast(rows[..n]);
      MonthIndexFinds(rows[..n]);
      forall c, j | c in MonthIndex(rows) && MonthIndex(rows)[c] < j < |rows|
        ensures MonthOf(rows[j]) != c
      {
        if j < n {
          assert rows[..n][j] == rows[j];
        }
      }
    }
  }

  /** Every row with a truthy month has its month in the index. */
  lemma {:induction false} MonthIndexCovers(rows: seq<Row>)
    ensures forall j :: 0 <= j < |rows| && Truthy(MonthOf(rows[j])) ==> MonthOf(rows[j]) in MonthIndex(rows)
  {
    if rows != [] {
      var n := |rows| - 1;
      MonthIndexCovers(rows[..n]);
      forall j | 0 <= j < n && Truthy(MonthOf(rows[j]))
        ensures MonthOf(rows[j]) in MonthIndex(rows[..n])
      {
        assert rows[..n][j] == rows[j];
      }
    }
  }

  /** Two rows with the same truthy month: the index never points before the later one. */
  lemma MonthIndexLastWins(rows: seq<Row>, i: nat, j: nat)
    requires i < j < |rows| && MonthOf(rows[i]) == MonthOf(rows[j]) && Truthy(MonthOf(rows[j]))
    ensures MonthOf(rows[i]) in MonthIndex(rows) && MonthIndex(rows)[MonthOf(rows[i])] >= j
  {
    MonthIndexCovers(rows);
    MonthIndexIsLast(rows);
  }

  /** `rows.forEach((r, i) => { if (r && r.Month) byMonth[r.Month] = i; })`. */
  method BuildMonthIndex(rows: seq<Row>) returns (idx: map<Cell, nat>)
    ensures idx == MonthIndex(rows)
  {
    idx := map[];
    for i := 0 to |rows|
      invariant idx == MonthIndex(rows[..i])
    {
      assert rows[..i + 1][..i] == rows[..i];
      var m := MonthOf(rows[i]);
      if Truthy(m) {
        idx := idx[m := i];
      }
    }
    assert rows[..|rows|] == rows;
  }

  /**
   * The row a month lookup finds (`byMonth[month] || {}`): the last row with that
   * month, or an empty row when the month is falsy or absent.
   */
  function RowForMonth(rows: seq<Row>, idx: map<Cell, nat>, month: Cell): (r: Row)
    requires idx == MonthIndex(rows)
    ensures month !in idx ==> r == map[]
    ensures month in idx ==> r == rows[idx[month]] && MonthOf(r) == month
  {
    MonthIndexFinds(rows);
    if month in idx then rows[idx[month]] else map[]
  }
}
