/**
 * `BigDecimal` arithmetic at the fixed scales the backend uses, on unscaled integers.
 * A money amount at scale 2 is held in hundredths, a quantity at scale 3 in thousandths,
 * and a working-stock amount (a scale-3 stock minus scale-3 times scale-3 consumption,
 * so scale 6) in millionths.
 */
module Numeric {

  /** A scale-2 decimal (product value, item total), in hundredths. */
  type Money = int
  /** A scale-3 decimal (stock, required quantity, produced quantity), in thousandths. */
  type Qty = int

  function Abs(x: int): nat {
    if x < 0 then -x else x
  }

  /**
   * The unscaled result of `a.divide(b, s, RoundingMode.DOWN)`, where the scales of `a`, `b`
   * and `s` have already been lined up: the exact quotient truncated toward zero.
   */
  function DivDown(a: int, b: int): (q: int)
    requires b != 0
    ensures Abs(q) * Abs(b) <= Abs(a) < (Abs(q) + 1) * Abs(b)
    ensures q == 0 || ((q > 0) <==> ((a > 0) == (b > 0)))
  {
    var m := Abs(a) / Abs(b);
    if (a >= 0) == (b > 0) then m else -m
  }

  /** On a non-negative dividend and a positive divisor, truncation is the floor. */
  lemma DivDownNonNegative(a: int, b: int)
    requires a >= 0 && b > 0
    ensures 0 <= DivDown(a, b) && DivDown(a, b) * b <= a < (DivDown(a, b) + 1) * b
  {
  }

  /**
   * The unscaled result of `x.setScale(s, RoundingMode.HALF_UP)`, where `unit` is ten to the
   * number of digits dropped: the nearest multiple, ties rounded away from zero.
   */
  function RoundHalfUp(n: int, unit: int): (r: int)
    requires unit > 0
    ensures n >= 0 ==> 2 * (r * unit) - unit <= 2 * n < 2 * (r * unit) + unit
    ensures n < 0 ==> 2 * (r * unit) - unit < 2 * n <= 2 * (r * unit) + unit
  {
    if n >= 0 then (2 * n + unit) / (2 * unit) else -((2 * -n + unit) / (2 * unit))
  }
}
