/**
 * Working-capital metrics of the last balance-sheet row: working capital,
 * current ratio and quick ratio, each reading a column under any of a few
 * spellings, and the cash conversion cycle.
 */
module WorkingCapital {
  import opened JsValues
  import opened Core

  /** The row the metrics read: the last one, or an empty row when there is none. */
  function LastRow(rows: seq<Row>): (r: Row)
    ensures rows == [] ==> r == map[]
    ensures rows != [] ==> r == rows[|rows| - 1]
  {
    if rows == [] then map[] else rows[|rows| - 1]
  }

  /** `get(obj, keys)`: the value under the first listed key that is not `undefined`; `null` counts as present. */
  function Alias(row: Row, keys: seq<string>): (r: Cell)
    ensures forall k ::
      (0 <= k < |keys| && !Get(row, keys[k]).Missing? && forall j :: 0 <= j < k ==> Get(row, keys[j]).Missing?)
      ==> r == Get(row, keys[k])
    ensures (forall k :: 0 <= k < |keys| ==> Get(row, keys[k]).Missing?) ==> r == Missing
  {
    if keys == [] then Missing
    else if !Get(row, keys[0]).Missing? then Get(row, keys[0])
    else Alias(row, keys[1..])
  }

  const CashKeys: seq<string> := ["Cash", "cash", "Cash_Balance"]
  const ReceivableKeys: seq<string> := ["Accounts_Receivable", "Accounts Receivable", "AccountsReceivable", "AR"]
  const PayableKeys: seq<string> := ["Accounts_Payable", "Accounts Payable", "AccountsPayable", "AP"]
  const LoanKeys: seq<string> := ["Loans", "Debt", "Total_Debt"]
  const CurrentLiabilityKeys: seq<string> := ["Current_Liabilities", "Current Liabilities", "CurrentLiability"]

  /** `safeNumber(get(row, keys) || 0)`. */
  function AliasNumber(row: Row, keys: seq<string>): (r: real)
    ensures r == SafeNumber(Alias(row, keys))
  {
    SafeNumberOrZero(Alias(row, keys));
    SafeNumber(Or(Alias(row, keys), Num(0.0)))
  }

  /** Cash plus receivables. */
  function CurrentAssets(row: Row): real {
    AliasNumber(row, CashKeys) + AliasNumber(row, ReceivableKeys)
  }

  /** Payables plus loans, without the separate current-liabilities column. */
  function PayablesAndLoans(row: Row): real {
    AliasNumber(row, PayableKeys) + AliasNumber(row, LoanKeys)
  }

  /** `workingCapital(balanceSheet)`: current assets less payables, loans and current liabilities (two spellings). */
  function WorkingCapital(balance: seq<Row>): (r: real)
    ensures balance == [] ==> r == 0.0
    ensures r + PayablesAndLoans(LastRow(balance)) + SafeNumber(Or(Get(LastRow(balance), "Current_Liabilities"), Get(LastRow(balance), "CurrentLiability")))
            == CurrentAssets(LastRow(balance))
  {
    var row := LastRow(balance);
    var other := Or(Or(Get(row, "Current_Liabilities"), Get(row, "CurrentLiability")), Num(0.0));
    SafeNumberOrZero(Or(Get(row, "Current_Liabilities"), Get(row, "CurrentLiability")));
    CurrentAssets(row) - (PayablesAndLoans(row) + SafeNumber(other))
  }

  /**
   * `currentRatio(balanceSheet)`: current assets over payables, loans and
   * `Current_Liabilities`, with a zero denominator replaced by 1, so it is
   * always a finite number.
   */
  function CurrentRatio(balance: seq<Row>): (r: real)
    ensures balance == [] ==> r == 0.0
    ensures var row := LastRow(balance);
      var liabilities := PayablesAndLoans(row) + SafeNumber(Get(row, "Current_Liabilities"));
      (liabilities != 0.0 ==> r * liabilities == CurrentAssets(row)) && (liabilities == 0.0 ==> r == CurrentAssets(row))
  {
    var row := LastRow(balance);
    SafeNumberOrZero(Get(row, "Current_Liabilities"));
    var liabilities := PayablesAndLoans(row) + SafeNumber(Or(Get(row, "Current_Liabilities"), Num(0.0)));
    var denominator := if liabilities != 0.0 then liabilities else 1.0;
    CurrentAssets(row) / denominator
  }

  /** A liability recorded only under `CurrentLiability` lowers working capital but not the current ratio's denominator. */
  lemma CurrentRatioIgnoresAlias(v: real)
    requires v > 0.0
    ensures WorkingCapital([map["Cash" := Num(v), "CurrentLiability" := Num(v)]]) == 0.0
    ensures CurrentRatio([map["Cash" := Num(v), "CurrentLiability" := Num(v)]]) == v
  {
    var row := map["Cash" := Num(v), "CurrentLiability" := Num(v)];
    assert LastRow([row]) == row;
    assert CurrentAssets(row) == v by {
      assert Alias(row, CashKeys) == Num(v);
      assert Alias(row, ReceivableKeys) == Missing;
    }
    assert PayablesAndLoans(row) == 0.0 by {
      assert Alias(row, PayableKeys) == Missing;
      assert Alias(row, LoanKeys) == Missing;
    }
  }

  /**
   * `quickRatio(balanceSheet)`: cash plus receivables over current liabilities
   * (three spellings), a falsy one replaced by 1. Text such as "0" is truthy
   * and reads 0, so the quotient can be infinite or NaN.
   */
  function QuickRatio(balance: seq<Row>): (r: JsNum)
    ensures balance == [] ==> r == Finite(0.0)
    ensures var row := LastRow(balance);
      var cl := Alias(row, CurrentLiabilityKeys);
      (!Truthy(cl) ==> r == Finite(CurrentAssets(row))) &&
      (Truthy(cl) && SafeNumber(cl) != 0.0 ==> r.Finite? && r.value * SafeNumber(cl) == CurrentAssets(row)) &&
      (Truthy(cl) && SafeNumber(cl) == 0.0 ==> !r.Finite?)
  {
    var row := LastRow(balance);
    var cl := Or(Alias(row, CurrentLiabilityKeys), Num(1.0));
    Div(CurrentAssets(row), Finite(SafeNumber(Or(cl, Num(1.0)))))
  }

  /** A current-liabilities cell holding the text "0" makes the quick ratio non-finite. */
  lemma QuickRatioZeroText(balance: seq<Row>)
    requires balance != [] && Get(balance[|balance| - 1], "Current_Liabilities") == Str("0")
    ensures !QuickRatio(balance).Finite?
  {
    var row := balance[|balance| - 1];
    assert Alias(row, CurrentLiabilityKeys) == Str("0");
    assert StringToNumber("0") == Finite(0.0);
  }

  /** `cashConversionCycle({dso, dio, dpo})`: days sales plus days inventory, less days payables. */
  function CashConversionCycle(dso: real, dio: real, dpo: real): (r: real)
    ensures r + dpo == dso + dio
  {
    dso + dio - dpo
  }
}
