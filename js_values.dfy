/**
 * JavaScript values as the engine sees them in a table cell, and the coercions
 * it applies to them: truthiness, `Number(...)`, `parseFloat(...)`, the numeric
 * sanitiser of the edit path, unguarded division and `toFixed(2)`.
 *
 * Numbers are exact reals. A number that a computation can turn non-finite
 * (a division by a value that may be zero) is a `JsNum`.
 */
module JsValues {
  import opened Wrappers
  import opened JsText

  /** A cell of a row: `undefined`, `null`, text from a CSV file, or a number written by the engine. */
  datatype Cell = Missing | Null | Str(s: string) | Num(n: real)

  /** A JavaScript number that may be non-finite. */
  datatype JsNum = Finite(value: real) | PosInf | NegInf | NaN

  /** JavaScript truthiness of a cell: `undefined`, `null`, `""` and `0` are falsy. */
  predicate Truthy(c: Cell) {
    match c
    case Missing => false
    case Null => false
    case Str(s) => s != ""
    case Num(n) => n != 0.0
  }

  /** JavaScript truthiness of a number: `0` and `NaN` are falsy, the infinities are truthy. */
  predicate NumTruthy(x: JsNum) {
    match x
    case Finite(v) => v != 0.0
    case PosInf => true
    case NegInf => true
    case NaN => false
  }

  /** `a || b` on cells. */
  function Or(a: Cell, b: Cell): (r: Cell)
    ensures Truthy(a) ==> r == a
    ensures !Truthy(a) ==> r == b
  {
    if Truthy(a) then a else b
  }

  // ---------------------------------------------------------------------------
  // Decimal numerals
  // ---------------------------------------------------------------------------

  predicate IsDigit(ch: char) {
    '0' <= ch <= '9'
  }

  function DigitValue(ch: char): (d: nat)
    requires IsDigit(ch)
    ensures d < 10
  {
    ch as int - '0' as int
  }

  /**
   * Where a left-to-right reading of a numeral stands: before it (only white
   * space so far), after its sign, in its whole part, after its point, or in the
   * white space that follows it.
   */
  datatype Phase = Lead | Signed | Whole | Fraction | Trail

  /**
   * The state of that reading: the phase, the sign, the whole digits read so far
   * as a number, the fraction digits as a number with their count, and whether
   * any digit at all has been read.
   */
  datatype Reader = Reader(phase: Phase, neg: bool, whole: nat, frac: nat, fracLen: nat, digits: bool)

  const Start := Reader(Lead, false, 0, 0, 0, false)

  /** `f / 10^k`, by repeated division so that it stays linear. */
  function Shift(f: nat, k: nat): (r: real)
    ensures r >= 0.0
  {
    if k == 0 then f as real else Shift(f, k - 1) / 10.0
  }

  /** The value of the numeral read so far. */
  function ReaderValue(r: Reader): real {
    var v := r.whole as real + Shift(r.frac, r.fracLen);
    if r.neg then -v else v
  }

  /**
   * One character of `[ws] [+|-] (digits [. [digits]] | . digits) [ws]`; `None` when
   * the character cannot continue the numeral.
   */
  function Step(r: Reader, ch: char): Option<Reader> {
    match r.phase
    case Lead =>
      if IsSpace(ch) then Some(r)
      else if ch == '-' || ch == '+' then Some(r.(phase := Signed, neg := ch == '-'))
      else if IsDigit(ch) then Some(r.(phase := Whole, whole := DigitValue(ch), digits := true))
      else if ch == '.' then Some(r.(phase := Fraction))
      else None
    case Signed =>
      if IsDigit(ch) then Some(r.(phase := Whole, whole := DigitValue(ch), digits := true))
      else if ch == '.' then Some(r.(phase := Fraction))
      else None
    case Whole =>
      if IsDigit(ch) then Some(r.(whole := r.whole * 10 + DigitValue(ch)))
      else if ch == '.' then Some(r.(phase := Fraction))
      else if IsSpace(ch) then Some(r.(phase := Trail))
      else None
    case Fraction =>
      if IsDigit(ch) then Some(r.(frac := r.frac * 10 + DigitValue(ch), fracLen := r.fracLen + 1, digits := true))
      else if IsSpace(ch) && r.digits then Some(r.(phase := Trail))
      else None
    case Trail =>
      if IsSpace(ch) then Some(r) else None
  }

  /**
   * Reads `s` from state `r`. With `prefix` false this is `Number(text)`: the
   * whole text must be one numeral between white space, and blank text is 0.
   * With `prefix` true it is `parseFloat(text)`: the longest numeral after
   * leading white space, whatever follows it, and NaN when there is none.
   */
  function Read(s: string, r: Reader, prefix: bool): (x: JsNum)
    ensures x.Finite? || x.NaN?
    decreases s, 1
  {
    if s == [] then
      if r.phase == Lead then (if prefix then NaN else Finite(0.0))
      else if r.digits then Finite(ReaderValue(r))
      else NaN
    else
      Advance(s, r, prefix)
  }

  /** Reads the first character of the non-empty `s` from state `r` and the rest after it. */
  function Advance(s: string, r: Reader, prefix: bool): (x: JsNum)
    requires s != []
    ensures x.Finite? || x.NaN?
    decreases s, 0
  {
    match Step(r, s[0])
    case None => if prefix && r.digits then Finite(ReaderValue(r)) else NaN
    case Some(next) => Read(s[1..], next, prefix)
  }

  /** `Number(text)`: blank text is 0, a whole decimal numeral is its value, anything else NaN. */
  function StringToNumber(s: string): (r: JsNum)
    ensures r.Finite? || r.NaN?
  {
    Read(s, Start, false)
  }

  /** `Number(cell)`: never infinite, NaN for `undefined` and for text that is not a numeral. */
  function ToNumber(c: Cell): (r: JsNum)
    ensures r.Finite? || r.NaN?
    ensures c.Missing? ==> r.NaN?
    ensures c.Null? ==> r == Finite(0.0)
    ensures c.Num? ==> r == Finite(c.n)
  {
    match c
    case Missing => NaN
    case Null => Finite(0.0)
    case Str(s) => StringToNumber(s)
    case Num(n) => Finite(n)
  }

  /** `parseFloat(cell)`: the numeral at the start of the text after white space, NaN if there is none. */
  function ParseFloat(c: Cell): (r: JsNum)
    ensures r.Finite? || r.NaN?
    ensures c.Missing? || c.Null? ==> r.NaN?
    ensures c.Num? ==> r == Finite(c.n)
  {
    match c
    case Missing => NaN
    case Null => NaN
    case Num(n) => Finite(n)
    case Str(s) => Read(s, Start, true)
  }

  /** `parseFloat(cell) || 0`. */
  function ParseFloatOr0(c: Cell): (r: real)
    ensures ParseFloat(c).Finite? ==> r == ParseFloat(c).value
    ensures ParseFloat(c).NaN? ==> r == 0.0
  {
    match ParseFloat(c)
    case Finite(v) => v
    case _ => 0.0
  }

  /** `safeNumber` on a number: the value if finite, else 0. */
  function SafeNum(x: JsNum): (r: real)
    ensures x.Finite? ==> r == x.value
    ensures !x.Finite? ==> r == 0.0
  {
    if x.Finite? then x.value else 0.0
  }

  // ---------------------------------------------------------------------------
  // The edit path's sanitiser: String(v).replace(/[^0-9.\-]/g, '')
  // ---------------------------------------------------------------------------

  predicate IsNumeralChar(ch: char) {
    IsDigit(ch) || ch == '.' || ch == '-'
  }

  /** Keeps the digits, points and minus signs of `s`, in their order. */
  function Sanitize(s: string): (r: string)
    ensures |r| <= |s|
    ensures forall i :: 0 <= i < |r| ==> IsNumeralChar(r[i])
  {
    if s == [] then []
    else (if IsNumeralChar(s[0]) then [s[0]] else []) + Sanitize(s[1..])
  }

  /** The sanitiser is a filter: it distributes over concatenation ... */
  lemma {:induction false} SanitizeAppend(a: string, b: string)
    ensures Sanitize(a + b) == Sanitize(a) + Sanitize(b)
  {
    if a == [] {
      assert a + b == b;
    } else {
      assert (a + b)[1..] == a[1..] + b;
      SanitizeAppend(a[1..], b);
    }
  }

  /** ... keeps exactly the allowed characters ... */
  lemma SanitizeChar(ch: char)
    ensures Sanitize([ch]) == if IsNumeralChar(ch) then [ch] else []
  {
    assert [ch][1..] == [];
  }

  /** ... and leaves text made only of allowed characters as it is, so it is idempotent. */
  lemma {:induction false} SanitizeClean(s: string)
    requires forall i :: 0 <= i < |s| ==> IsNumeralChar(s[i])
    ensures Sanitize(s) == s
  {
    if s != [] {
      SanitizeClean(s[1..]);
      assert [s[0]] + s[1..] == s;
    }
  }

  lemma SanitizeIdempotent(s: string)
    ensures Sanitize(Sanitize(s)) == Sanitize(s)
  {
    SanitizeClean(Sanitize(s));
  }

  /**
   * `Number(String(c || '0').replace(/[^0-9.\-]/g, '')) || 0`, the edit path's reading of a raw cell.
   * A number cell reads as itself.
   */
  function CleanNumber(c: Cell): (r: real)
    ensures c.Num? ==> r == c.n
    ensures !Truthy(c) ==> r == 0.0
    ensures c.Str? && c.s != "" ==> r == SafeNum(StringToNumber(Sanitize(c.s)))
  {
    match c
    case Str(s) => if s == "" then 0.0 else SafeNum(StringToNumber(Sanitize(s)))
    case Num(n) => n
    case _ => 0.0
  }

  // ---------------------------------------------------------------------------
  // Arithmetic that can leave the reals
  // ---------------------------------------------------------------------------

  /** `a / b` in JavaScript: division by 0 gives an infinity, or NaN for 0/0. */
  function Div(a: real, b: JsNum): (r: JsNum)
    ensures b.Finite? && b.value != 0.0 ==> r == Finite(a / b.value)
    ensures b == Finite(0.0) ==> !r.Finite?
    ensures b.NaN? ==> r.NaN?
  {
    match b
    case Finite(v) =>
      if v != 0.0 then Finite(a / v)
      else if a > 0.0 then PosInf
      else if a < 0.0 then NegInf
      else NaN
    case PosInf => Finite(0.0)
    case NegInf => Finite(0.0)
    case NaN => NaN
  }

  /** `x || 0` on a number: NaN becomes 0, everything else stays. */
  function Or0(x: JsNum): (r: JsNum)
    ensures !r.NaN?
    ensures !x.NaN? ==> r == x
  {
    if x.NaN? then Finite(0.0) else x
  }

  /** `x > t` for a finite threshold `t`; every comparison with NaN is false. */
  predicate Gt(x: JsNum, t: real) {
    match x
    case Finite(v) => v > t
    case PosInf => true
    case NegInf => false
    case NaN => false
  }

  predicate Ge(x: JsNum, t: real) {
    match x
    case Finite(v) => v >= t
    case PosInf => true
    case NegInf => false
    case NaN => false
  }

  predicate Lt(x: JsNum, t: real) {
    match x
    case Finite(v) => v < t
    case PosInf => false
    case NegInf => true
    case NaN => false
  }

  predicate Le(x: JsNum, t: real) {
    match x
    case Finite(v) => v <= t
    case PosInf => false
    case NegInf => true
    case NaN => false
  }

  function Abs(x: real): (r: real)
    ensures r >= 0.0 && (r == x || r == -x)
  {
    if x < 0.0 then -x else x
  }

  /**
   * `Number(x.toFixed(2))`: the nearest multiple of 1/100, ties away from zero.
   * It is never more than half a cent from `x` and keeps its sign.
   */
  function Round2(x: real): (r: real)
    ensures -0.005 <= r - x <= 0.005
    ensures x >= 0.0 ==> r >= 0.0
    ensures x <= 0.0 ==> r <= 0.0
  {
    if x >= 0.0 then RoundHalfUp(x) else -RoundHalfUp(-x)
  }

  function RoundHalfUp(x: real): (r: real)
    requires x >= 0.0
    ensures -0.005 <= r - x <= 0.005 && r >= 0.0
  {
    var k := (x * 100.0 + 0.5).Floor;
    assert k as real <= x * 100.0 + 0.5 < k as real + 1.0;
    k as real / 100.0
  }

  /** `(v).toFixed(2)` read back as a number; non-finite values stay as they are. */
  function Fixed2(x: JsNum): (r: JsNum)
    ensures x.Finite? ==> r.Finite? && -0.005 <= r.value - x.value <= 0.005
    ensures !x.Finite? ==> r == x
  {
    if x.Finite? then Finite(Round2(x.value)) else x
  }

  // ---------------------------------------------------------------------------
  // Facts about the numeral reader
  // ---------------------------------------------------------------------------

  /** The decimal text of a natural number reads back as that number, with `Number` and with `parseFloat`. */
  lemma NatTextRoundTrip(n: nat)
    ensures ToNumber(Str(NatToString(n))) == Finite(n as real)
    ensures ParseFloat(Str(NatToString(n))) == Finite(n as real)
    ensures CleanNumber(Str(NatToString(n))) == n as real
  {
    var t := NatToString(n);
    ReadNatText(n, [], false);
    ReadNatText(n, [], true);
    assert t + [] == t;
    SanitizeClean(t);
  }

  /** Reading the decimal text of `n` from the start leaves the reader in the whole part with value `n`. */
  lemma {:induction false} ReadNatText(n: nat, rest: string, prefix: bool)
    ensures Read(NatToString(n) + rest, Start, prefix) ==
            Read(rest, Reader(Whole, false, n, 0, 0, true), prefix)
  {
    if n < 10 {
      assert (NatToString(n) + rest)[1..] == rest;
    } else {
      var c := ('0' as int + n % 10) as char;
      assert NatToString(n) + rest == NatToString(n / 10) + ([c] + rest);
      ReadNatText(n / 10, [c] + rest, prefix);
      assert ([c] + rest)[1..] == rest;
    }
  }
}
