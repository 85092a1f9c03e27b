/**
 * Valuation engine: the free-cash-flow series of the cash-flow statement,
 * discounting of a cash-flow series, a growing-perpetuity terminal value and
 * the bundle of the three.
 */
module Valuation {
  import opened JsValues
  import opened Core

  const DefaultDiscountRate: real := 0.12
  const DefaultGrowthRate: real := 0.03

  /** `undefined` and `null`, the values `??` skips. */
  predicate Nullish(c: Cell) {
    c.Missing? || c.Null?
  }

  /** `a ?? b ?? ... ?? z`: the first operand that is not nullish, else the last one. */
  function Coalesce(cs: seq<Cell>): (r: Cell)
    requires cs != []
    ensures forall i :: 0 <= i < |cs| && !Nullish(cs[i]) && (forall j :: 0 <= j < i ==> Nullish(cs[j])) ==> r == cs[i]
    ensures (forall i :: 0 <= i < |cs| ==> Nullish(cs[i])) ==> r == cs[|cs| - 1]
  {
    if |cs| == 1 || !Nullish(cs[0]) then cs[0] else Coalesce(cs[1..])
  }

  /** Operating cash flow of a row: `Operating_Cash_Flow` unless nullish, else `Cash_From_Operations`. */
  function OperatingCash(row: Row): (r: real)
    ensures !Nullish(Get(row, "Operating_Cash_Flow")) ==> r == SafeNumber(Get(row, "Operating_Cash_Flow"))
    ensures Nullish(Get(row, "Operating_Cash_Flow")) ==> r == SafeNumber(Get(row, "Cash_From_Operations"))
  {
    SafeNumber(Coalesce([Get(row, "Operating_Cash_Flow"), Get(row, "Cash_From_Operations")]))
  }

  /** The capital-expenditure columns, in the order they are tried. */
  const CapexKeys: seq<string> := ["Capex", "CapEx", "Capital_Expenditure", "Investing_Capex"]

  /** Capital expenditure of a row: the first of the capex columns that is not nullish, 0 when all are. */
  function Capex(row: Row): (r: real)
    ensures (forall k :: 0 <= k < |CapexKeys| ==> Nullish(Get(row, CapexKeys[k]))) ==> r == 0.0
    ensures forall k ::
      (0 <= k < |CapexKeys| && !Nullish(Get(row, CapexKeys[k])) && forall j :: 0 <= j < k ==> Nullish(Get(row, CapexKeys[j])))
      ==> r == SafeNumber(Get(row, CapexKeys[k]))
  {
    var cs := seq(|CapexKeys|, k requires 0 <= k < |CapexKeys| => Get(row, CapexKeys[k]));
    assert forall k :: 0 <= k < |CapexKeys| ==> cs[k] == Get(row, CapexKeys[k]);
    SafeNumber(Coalesce(cs))
  }

  /** `freeCashFlowSeries(cashflow)`: operating cash less capital expenditure, row by row. */
  function FreeCashFlowSeries(cashflow: seq<Row>): (r: seq<real>)
    ensures |r| == |cashflow|
    ensures forall i :: 0 <= i < |cashflow| ==> r[i] + Capex(cashflow[i]) == OperatingCash(cashflow[i])
  {
    seq(|cashflow|, i requires 0 <= i < |cashflow| => OperatingCash(cashflow[i]) - Capex(cashflow[i]))
  }

  /** A row with none of the capex columns contributes its operating cash flow unchanged. */
  lemma NoCapexFreeCashFlow(cashflow: seq<Row>, i: nat)
    requires i < |cashflow|
    requires forall k :: 0 <= k < |CapexKeys| ==> Nullish(Get(cashflow[i], CapexKeys[k]))
    ensures FreeCashFlowSeries(cashflow)[i] == OperatingCash(cashflow[i])
  {
  }

  /**
   * The `reduce` of `discountedCashFlow`: cash flow i (from 0) is divided by
   * `(1 + rate)^(i+1)` and the quotients are added from the left.
   */
  function DiscountSum(cfs: seq<real>, rate: real): real
    requires rate != -1.0
  {
    if cfs == [] then 0.0
    else
      PowNonZero(1.0 + rate, |cfs|);
      DiscountSum(cfs[..|cfs| - 1], rate) + cfs[|cfs| - 1] / Pow(1.0 + rate, |cfs|)
  }

  /**
   * Present value by backward induction: a cash flow one period ahead plus the
   * present value of what follows it, all discounted by one period.
   */
  function PresentValue(cfs: seq<real>, rate: real): real
    requires rate != -1.0
  {
    if cfs == [] then 0.0 else (cfs[0] + PresentValue(cfs[1..], rate)) / (1.0 + rate)
  }

  lemma DivSplit(a: real, b: real, p: real, q: real)
    requires q != 0.0 && p != 0.0
    ensures a / q + b / (q * p) == (a + b / p) / q
  {
  }

  /** Peeling the first cash flow off the discounted sum. */
  lemma {:induction false} DiscountSumFront(cfs: seq<real>, rate: real)
    requires rate != -1.0 && cfs != []
    ensures DiscountSum(cfs, rate) == (cfs[0] + DiscountSum(cfs[1..], rate)) / (1.0 + rate)
  {
    var q := 1.0 + rate;
    var n := |cfs|;
    if n == 1 {
      assert cfs[..0] == [];
      assert cfs[1..] == [];
      assert Pow(q, 1) == q;
    } else {
      var init := cfs[..n - 1];
      var tail := cfs[1..];
      DiscountSumFront(init, rate);
      assert init[1..] == tail[..n - 2];
      assert init[0] == cfs[0];
      assert tail[n - 2] == cfs[n - 1];
      PowNonZero(q, n - 1);
      var p := Pow(q, n - 1);
      assert Pow(q, n) == q * p;
      var rest := DiscountSum(init[1..], rate);
      assert DiscountSum(tail, rate) == rest + cfs[n - 1] / p;
      assert DiscountSum(init, rate) == (cfs[0] + rest) / q;
      assert DiscountSum(cfs, rate) == DiscountSum(init, rate) + cfs[n - 1] / (q * p);
      DivSplit(cfs[0] + rest, cfs[n - 1], p, q);
    }
  }

  /** The left fold of `discountedCashFlow` equals the backward-induction present value. */
  lemma {:induction false} DiscountSumIsPresentValue(cfs: seq<real>, rate: real)
    requires rate != -1.0
    ensures DiscountSum(cfs, rate) == PresentValue(cfs, rate)
  {
    if cfs != [] {
      DiscountSumFront(cfs, rate);
      DiscountSumIsPresentValue(cfs[1..], rate);
    }
  }

  /** `discountedCashFlow(cashflows, discountRate)`: 0 for no cash flows, else their discounted sum. */
  function DiscountedCashFlow(cashflows: seq<real>, discountRate: real): (r: real)
    requires discountRate != -1.0
    ensures cashflows == [] ==> r == 0.0
    ensures r == PresentValue(cashflows, discountRate)
  {
    DiscountSumIsPresentValue(cashflows, discountRate);
    if cashflows == [] then 0.0 else DiscountSum(cashflows, discountRate)
  }

  /** Three equal cash flows of 100 at 10%. */
  lemma DiscountedCashFlowExample()
    ensures DiscountedCashFlow([100.0, 100.0, 100.0], 0.1) == 100.0 / 1.1 + 100.0 / 1.21 + 100.0 / 1.331
  {
    var c := [100.0, 100.0, 100.0];
    assert c[..2] == [100.0, 100.0] && c[..2][..1] == [100.0] && c[..2][..1][..0] == [];
    assert Pow(1.1, 1) == 1.1 && Pow(1.1, 2) == 1.21 && Pow(1.1, 3) == 1.331;
  }

  /**
   * `terminalValue(lastFCF, growthRate, discountRate)`: 0 unless the discount
   * rate exceeds the growth rate, else the growing perpetuity
   * `lastFCF * (1 + g) / (r - g)`.
   */
  function TerminalValue(lastFcf: real, growthRate: real, discountRate: real): (r: real)
    ensures discountRate <= growthRate ==> r == 0.0
    ensures discountRate > growthRate ==> r * (discountRate - growthRate) == lastFcf * (1.0 + growthRate)
  {
    if discountRate <= growthRate then 0.0
    else lastFcf * (1.0 + growthRate) / (discountRate - growthRate)
  }

  datatype ValuationBundle = ValuationBundle(freeCashFlow: seq<real>, dcf: real, terminalValue: real, intrinsicValue: real)

  /** The last element of a series, or 0 when there is none: the parameter default here, `series.at(-1) || 0` in the engine. */
  function LastOr0(s: seq<real>): (r: real)
    ensures s == [] ==> r == 0.0
    ensures s != [] ==> r == s[|s| - 1]
  {
    if s == [] then 0.0 else s[|s| - 1]
  }

  /**
   * `buildValuationEngine(cashflow)`: the free-cash-flow series, its DCF at 12%,
   * the terminal value of its last element at 3% growth, and their sum.
   */
  function BuildValuationEngine(cashflow: seq<Row>): (b: ValuationBundle)
    ensures b.freeCashFlow == FreeCashFlowSeries(cashflow)
    ensures b.dcf == PresentValue(b.freeCashFlow, DefaultDiscountRate)
    ensures b.terminalValue * (DefaultDiscountRate - DefaultGrowthRate) == LastOr0(b.freeCashFlow) * (1.0 + DefaultGrowthRate)
    ensures b.intrinsicValue == b.dcf + b.terminalValue
    ensures cashflow == [] ==> b.dcf == 0.0 && b.terminalValue == 0.0 && b.intrinsicValue == 0.0
  {
    var fcf := FreeCashFlowSeries(cashflow);
    var dcf := DiscountedCashFlow(fcf, DefaultDiscountRate);
    var terminal := TerminalValue(LastOr0(fcf), DefaultGrowthRate, DefaultDiscountRate);
    ValuationBundle(fcf, dcf, terminal, dcf + terminal)
  }
}
