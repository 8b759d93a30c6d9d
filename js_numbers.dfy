/**
 * The handful of JavaScript number operations the timer relies on: division that can
 * produce an infinity or NaN, `Math.floor`, `Math.round`, truncation, the `%` operator
 * and p5's `constrain`. Finite numbers are mathematical reals; floating-point rounding
 * is not modelled.
 */
module JsNumbers {

  /** A JavaScript number: a finite value, one of the two infinities, or NaN. */
  datatype JsNumber = Finite(value: real) | PosInfinity | NegInfinity | NaN

  function Min(a: real, b: real): real { if a <= b then a else b }

  function Max(a: real, b: real): real { if a >= b then a else b }

  /** `n / d` as JavaScript evaluates it: a zero divisor gives an infinity, or NaN for `0 / 0`. */
  function Divide(n: real, d: real): (r: JsNumber)
    ensures r.Finite? <==> d != 0.0
    ensures r.Finite? ==> r.value == n / d
    ensures r.NaN? <==> n == 0.0 && d == 0.0
    ensures r.PosInfinity? <==> n > 0.0 && d == 0.0
    ensures r.NegInfinity? <==> n < 0.0 && d == 0.0
  {
    if d != 0.0 then Finite(n / d)
    else if n > 0.0 then PosInfinity
    else if n < 0.0 then NegInfinity
    else NaN
  }

  /** `x * k` for a positive constant `k`: infinities and NaN survive the product. */
  function Scale(x: JsNumber, k: real): (r: JsNumber)
    requires k > 0.0
    ensures r.Finite? <==> x.Finite?
    ensures r.NaN? <==> x.NaN?
    ensures x.Finite? ==> r.value / k == x.value
    ensures x.PosInfinity? ==> r.PosInfinity?
  {
    match x
    case Finite(v) => Finite(v * k)
    case _ => x
  }

  /** p5's `constrain(n, low, high)`, which is `Math.max(Math.min(n, high), low)`. */
  function Constrain(n: real, low: real, high: real): (r: real)
    ensures low <= high ==> low <= r <= high
    ensures low <= n <= high ==> r == n
    ensures n < low ==> r == low
    ensures low <= high < n ==> r == high
  {
    Max(Min(n, high), low)
  }

  /**
   * `constrain` applied to a number that is not NaN: `Math.min(Infinity, high)` is `high`
   * and `Math.max(-Infinity, low)` is `low`, so the result is always a finite value.
   */
  function ConstrainNumber(x: JsNumber, low: real, high: real): (r: real)
    requires !x.NaN?
    ensures low <= high ==> low <= r <= high
    ensures x.Finite? ==> r == Constrain(x.value, low, high)
    ensures low <= high && x.PosInfinity? ==> r == high
    ensures x.NegInfinity? ==> r == low
  {
    match x
    case Finite(v) => Constrain(v, low, high)
    case PosInfinity => Max(high, low)
    case NegInfinity => low
  }

  /** `Math.floor` on a finite number. */
  function Floor(x: real): (r: int)
    ensures r as real <= x < r as real + 1.0
  {
    x.Floor
  }

  /** `Math.round`: the nearest integer, with halves rounded up (towards +Infinity). */
  function Round(x: real): (r: int)
    ensures x - 0.5 < r as real <= x + 0.5
  {
    Floor(x + 0.5)
  }

  /** Truncation towards zero, the quotient JavaScript's `%` is defined by. */
  function Trunc(x: real): (r: int)
    ensures x >= 0.0 ==> r as real <= x < r as real + 1.0
    ensures x < 0.0 ==> r as real - 1.0 < x <= r as real
  {
    if x >= 0.0 then Floor(x) else -Floor(-x)
  }

  /**
   * JavaScript's `x % m`: the remainder takes the sign of the dividend. Its bounds are
   * proved where it is used, with a constant `m`, where the arithmetic stays linear.
   */
  function Remainder(x: real, m: real): real
    requires m > 0.0
  {
    x - (Trunc(x / m) as real) * m
  }
}
