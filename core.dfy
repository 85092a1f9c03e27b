/**
 * The engine's numeric and row utilities: safe coercion, column picking,
 * aggregates over a column, series builders and the two guarded ratios
 * (growth rate and margin) every other component uses.
 */
module Core {
  import opened Wrappers
  import opened JsValues

  /** A row of a statement: column name to cell. An absent column reads as `undefined`. */
  type Row = map<string, Cell>

  /** `row[key]`. */
  function Get(row: Row, key: string): (c: Cell)
    ensures key !in row ==> c == Missing
    ensures key in row ==> c == row[key]
  {
    if key in row then row[key] else Missing
  }

  /** `safeNumber(value)`: the finite numeric reading of a cell, or 0 (NaN, `undefined`, non-numeric text). */
  function SafeNumber(value: Cell): (r: real)
    ensures ToNumber(value).Finite? ==> r == ToNumber(value).value
    ensures ToNumber(value).NaN? ==> r == 0.0
    ensures value.Num? ==> r == value.n
    ensures value.Missing? || value.Null? ==> r == 0.0
  {
    SafeNum(ToNumber(value))
  }

  /** `Number(x || 0)` with NaN read as 0: every falsy cell already reads 0, so `|| 0` changes nothing. */
  lemma SafeNumberOrZero(c: Cell)
    ensures SafeNumber(Or(c, Num(0.0))) == SafeNumber(c)
  {
    if c.Str? && c.s == "" {
      assert ToNumber(c) == Finite(0.0);
    }
  }

  /** `Number(x || 0)`, with a NaN reading taken as 0 like `safeNumber` does. */
  function NumberOr0(c: Cell): (r: real)
    ensures r == SafeNumber(c)
  {
    SafeNumberOrZero(c);
    SafeNumber(Or(c, Num(0.0)))
  }

  /** `pick(row, key)`: 0 for a missing row, else the safe number in that column. */
  function Pick(row: Option<Row>, key: string): (r: real)
    ensures row.None? ==> r == 0.0
    ensures row.Some? ==> r == SafeNumber(Get(row.value, key))
  {
    match row
    case None => 0.0
    case Some(rw) => SafeNumber(Get(rw, key))
  }

  /** `sum(rows, key)`: the left-to-right `reduce` over the column. */
  function Sum(rows: seq<Row>, key: string): real {
    if rows == [] then 0.0 else Sum(rows[..|rows| - 1], key) + Pick(Some(rows[|rows| - 1]), key)
  }

  /** The sum of a concatenation is the sum of the parts. */
  lemma {:induction false} SumAppend(a: seq<Row>, b: seq<Row>, key: string)
    ensures Sum(a + b, key) == Sum(a, key) + Sum(b, key)
  {
    if b == [] {
      assert a + b == a;
    } else {
      assert (a + b)[..|a + b| - 1] == a + b[..|b| - 1];
      SumAppend(a, b[..|b| - 1], key);
    }
  }

  /** The running total over rows 0 to i is the one over rows 0 to i - 1 plus row i. */
  lemma SumStep(rows: seq<Row>, i: int, key: string)
    requires 0 <= i < |rows|
    ensures Sum(rows[..i + 1], key) == Sum(rows[..i], key) + SafeNumber(Get(rows[i], key))
  {
    assert rows[..i + 1][..i] == rows[..i];
  }

  /** A column that reads 0 in every row sums to 0; one that is never negative sums to a non-negative value. */
  lemma {:induction false} SumNonNegative(rows: seq<Row>, key: string)
    requires forall i :: 0 <= i < |rows| ==> SafeNumber(Get(rows[i], key)) >= 0.0
    ensures Sum(rows, key) >= 0.0
  {
    if rows != [] {
      SumNonNegative(rows[..|rows| - 1], key);
    }
  }

  /** `average(rows, key)`: 0 for no rows, else sum over count. */
  function Average(rows: seq<Row>, key: string): (r: real)
    ensures rows == [] ==> r == 0.0
    ensures rows != [] ==> r == Sum(rows, key) / |rows| as real
  {
    if rows == [] then 0.0 else Sum(rows, key) / |rows| as real
  }

  /** `latest(rows, key)`: 0 for no rows, else the column of the last row. */
  function Latest(rows: seq<Row>, key: string): (r: real)
    ensures rows == [] ==> r == 0.0
    ensures rows != [] ==> r == SafeNumber(Get(rows[|rows| - 1], key))
  {
    if rows == [] then 0.0 else Pick(Some(rows[|rows| - 1]), key)
  }

  /** `series(rows, builder)`: one entry per row, entry i is `builder(rows[i], i, rows)`. */
  function Series(rows: seq<Row>, builder: (Row, nat, seq<Row>) -> real): (r: seq<real>)
    ensures |r| == |rows|
    ensures forall i :: 0 <= i < |rows| ==> r[i] == builder(rows[i], i, rows)
  {
    seq(|rows|, i requires 0 <= i < |rows| => builder(rows[i], i, rows))
  }

  /** `getSeries(rows, key)`: the column, each cell read with `pick`. */
  function GetSeries(rows: seq<Row>, key: string): (r: seq<real>)
    ensures |r| == |rows|
    ensures forall i :: 0 <= i < |rows| ==> r[i] == SafeNumber(Get(rows[i], key))
  {
    seq(|rows|, i requires 0 <= i < |rows| => Pick(Some(rows[i]), key))
  }

  /** `getLabels(rows, labelKey)`: the label column, with `undefined` and `null` shown as "". */
  function GetLabels(rows: seq<Row>, labelKey: string): (r: seq<Cell>)
    ensures |r| == |rows|
    ensures forall i :: 0 <= i < |rows| ==>
      r[i] == (if Get(rows[i], labelKey).Missing? || Get(rows[i], labelKey).Null? then Str("") else Get(rows[i], labelKey))
  {
    seq(|rows|, i requires 0 <= i < |rows| =>
      var c := Get(rows[i], labelKey);
      if c.Missing? || c.Null? then Str("") else c)
  }

  /**
   * `growthRate(current, previous)`: relative change, 0 when the previous value is 0.
   * Away from 0, it times |previous| is the change, so its sign is the sign of the change.
   */
  function GrowthRate(current: real, previous: real): (r: real)
    ensures previous == 0.0 ==> r == 0.0
    ensures previous != 0.0 ==> r * Abs(previous) == current - previous
    ensures previous != 0.0 ==> (r > 0.0 <==> current > previous) && (r < 0.0 <==> current < previous)
  {
    if previous == 0.0 then 0.0
    else
      var r := (current - previous) / Abs(previous);
      assert r * Abs(previous) == current - previous;
      r
  }

  /** `margin(part, total)`: the share `part/total`, 0 when the total is 0. */
  function Margin(part: real, total: real): (r: real)
    ensures total == 0.0 ==> r == 0.0
    ensures total != 0.0 ==> r * total == part
  {
    if total == 0.0 then 0.0 else part / total
  }

  /** `deltaSeries(rows, key)`: change of the column against the previous row, 0 for the first row. */
  function DeltaSeries(rows: seq<Row>, key: string): (r: seq<real>)
    ensures |r| == |rows|
    ensures |rows| > 0 ==> r[0] == 0.0
    ensures forall i :: 0 < i < |rows| ==>
      r[i] + SafeNumber(Get(rows[i - 1], key)) == SafeNumber(Get(rows[i], key))
  {
    seq(|rows|, i requires 0 <= i < |rows| =>
      if i == 0 then 0.0 else SafeNumber(Get(rows[i], key)) - SafeNumber(Get(rows[i - 1], key)))
  }

  /** `growthSeries(rows, key)`: growth of the column against the previous row, 0 for the first row. */
  function GrowthSeries(rows: seq<Row>, key: string): (r: seq<real>)
    ensures |r| == |rows|
    ensures |rows| > 0 ==> r[0] == 0.0
  {
    seq(|rows|, i requires 0 <= i < |rows| =>
      if i == 0 then 0.0 else GrowthRate(SafeNumber(Get(rows[i], key)), SafeNumber(Get(rows[i - 1], key))))
  }

  /**
   * Entry i of the growth series is the growth rate of row i against row i - 1:
   * 0 when the previous row reads 0, and otherwise positive exactly when the
   * column rose and negative exactly when it fell.
   */
  lemma GrowthSeriesMeaning(rows: seq<Row>, key: string, i: int)
    requires 0 < i < |rows|
    ensures var cur := SafeNumber(Get(rows[i], key));
      var prev := SafeNumber(Get(rows[i - 1], key));
      var g := GrowthSeries(rows, key)[i];
      g == GrowthRate(cur, prev)
      && (prev == 0.0 ==> g == 0.0)
      && (prev != 0.0 ==> (g > 0.0 <==> cur > prev) && (g < 0.0 <==> cur < prev))
  {
    var g := GrowthSeries(rows, key)[i];
    assert g == GrowthRate(SafeNumber(Get(rows[i], key)), SafeNumber(Get(rows[i - 1], key)));
  }

  /** `Math.pow(x, n)` for a natural exponent. */
  function Pow(x: real, n: nat): real {
    if n == 0 then 1.0 else x * Pow(x, n - 1)
  }

  lemma {:induction false} PowPositive(x: real, n: nat)
    requires x > 0.0
    ensures Pow(x, n) > 0.0
  {
    if n > 0 {
      PowPositive(x, n - 1);
    }
  }

  lemma {:induction false} PowNonZero(x: real, n: nat)
    requires x != 0.0
    ensures Pow(x, n) != 0.0
  {
    if n > 0 {
      PowNonZero(x, n - 1);
    }
  }
}
