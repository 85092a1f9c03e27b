/**
 * Profitability and return engine: per-period margin series over the income
 * statement and the return on invested capital over income and balance rows.
 */
module Profitability {
  import opened JsValues
  import opened Core

  const DefaultTaxRate: real := 0.25

  /** The revenue of an income row, read with `safeNumber`. */
  function Revenue(row: Row): real {
    SafeNumber(Get(row, "Revenue"))
  }

  /** `margin(row[part], row.Revenue)`. */
  function RowMargin(row: Row, part: string): real {
    Margin(SafeNumber(Get(row, part)), Revenue(row))
  }

  /** The margin series of one income column: one share of revenue per row, 0 where revenue reads 0. */
  function MarginSeries(income: seq<Row>, part: string): (r: seq<real>)
    ensures |r| == |income|
    ensures forall i :: 0 <= i < |income| && Revenue(income[i]) == 0.0 ==> r[i] == 0.0
    ensures forall i :: 0 <= i < |income| && Revenue(income[i]) != 0.0 ==>
      r[i] * Revenue(income[i]) == SafeNumber(Get(income[i], part))
  {
    Series(income, (row, i, rows) => RowMargin(row, part))
  }

  function GrossMarginSeries(income: seq<Row>): (r: seq<real>)
    ensures r == MarginSeries(income, "Gross_Profit")
  {
    Series(income, (row, i, rows) => RowMargin(row, "Gross_Profit"))
  }

  function OperatingMarginSeries(income: seq<Row>): (r: seq<real>)
    ensures r == MarginSeries(income, "Operating_Income")
  {
    Series(income, (row, i, rows) => RowMargin(row, "Operating_Income"))
  }

  function NetMarginSeries(income: seq<Row>): (r: seq<real>)
    ensures r == MarginSeries(income, "Net_Income")
  {
    Series(income, (row, i, rows) => RowMargin(row, "Net_Income"))
  }

  /** A row whose revenue reads 0 (0, missing or not a number) gives 0 in all three margin series. */
  lemma ZeroRevenueZeroMargins(income: seq<Row>, i: nat)
    requires i < |income| && Revenue(income[i]) == 0.0
    ensures GrossMarginSeries(income)[i] == 0.0
    ensures OperatingMarginSeries(income)[i] == 0.0
    ensures NetMarginSeries(income)[i] == 0.0
  {
  }

  /** Net operating profit after tax of an income row. */
  function Nopat(row: Row, taxRate: real): real {
    SafeNumber(Get(row, "Operating_Income")) * (1.0 - taxRate)
  }

  /** Total assets less accounts payable and loans of a balance row. */
  function InvestedCapital(row: Row): real {
    SafeNumber(Get(row, "Total_Assets")) - (SafeNumber(Get(row, "Accounts_Payable")) + SafeNumber(Get(row, "Loans")))
  }

  function Min(a: nat, b: nat): nat {
    if a <= b then a else b
  }

  /**
   * `roicSeries(income, balance, taxRate)`: one entry per period present in both statements;
   * NOPAT over invested capital, 0 where invested capital is 0.
   */
  function RoicSeries(income: seq<Row>, balance: seq<Row>, taxRate: real): (r: seq<real>)
    ensures |r| == Min(|income|, |balance|)
    ensures forall i :: 0 <= i < |r| && InvestedCapital(balance[i]) == 0.0 ==> r[i] == 0.0
    ensures forall i :: 0 <= i < |r| && InvestedCapital(balance[i]) != 0.0 ==>
      r[i] * InvestedCapital(balance[i]) == Nopat(income[i], taxRate)
  {
    seq(Min(|income|, |balance|), i requires 0 <= i < Min(|income|, |balance|) =>
      var invested := InvestedCapital(balance[i]);
      if invested == 0.0 then 0.0
      else
        var q := Nopat(income[i], taxRate) / invested;
        assert q * invested == Nopat(income[i], taxRate);
        q)
  }

  /** The bundle the dashboard consumes. */
  datatype ProfitabilityBundle = ProfitabilityBundle(
    grossMargin: seq<real>, operatingMargin: seq<real>, netMargin: seq<real>, roic: seq<real>)

  /** `buildProfitabilityEngine(income, balance)`: the four series, ROIC at the default 25% tax rate. */
  function BuildProfitabilityEngine(income: seq<Row>, balance: seq<Row>): (b: ProfitabilityBundle)
    ensures b.grossMargin == MarginSeries(income, "Gross_Profit")
    ensures b.operatingMargin == MarginSeries(income, "Operating_Income")
    ensures b.netMargin == MarginSeries(income, "Net_Income")
    ensures b.roic == RoicSeries(income, balance, 0.25)
    ensures |b.grossMargin| == |b.operatingMargin| == |b.netMargin| == |income|
  {
    ProfitabilityBundle(GrossMarginSeries(income), OperatingMarginSeries(income), NetMarginSeries(income),
                        RoicSeries(income, balance, DefaultTaxRate))
  }

  // Backwards-compatible single-name exports: each returns its series unchanged.

  function GrossMargin(income: seq<Row>): (r: seq<real>)
    ensures r == GrossMarginSeries(income)
  {
    GrossMarginSeries(income)
  }

  function OperatingMargin(income: seq<Row>): (r: seq<real>)
    ensures r == OperatingMarginSeries(income)
  {
    OperatingMarginSeries(income)
  }

  function NetMargin(income: seq<Row>): (r: seq<real>)
    ensures r == NetMarginSeries(income)
  {
    NetMarginSeries(income)
  }

  function Roic(income: seq<Row>, balance: seq<Row>, taxRate: real): (r: seq<real>)
    ensures r == RoicSeries(income, balance, taxRate)
  {
    RoicSeries(income, balance, taxRate)
  }
}
