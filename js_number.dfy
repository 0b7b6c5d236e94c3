/**
 * The JavaScript numbers the metrics code computes with.  A value is either a
 * finite number or non-finite; NaN, +Infinity and -Infinity, which the code
 * produces instead of throwing when a divisor is zero or a logarithm's
 * argument is not positive, are not told apart.  IEEE-754 rounding is not
 * modelled: finite values are exact reals.
 */
module JsNumber {

  datatype Num = Real(v: real) | NonFinite

  /** JavaScript `+` on numbers: finite exactly when both operands are, so `Infinity + (-Infinity)` is non-finite. */
  function Add(a: Num, b: Num): (r: Num)
    ensures r.Real? <==> a.Real? && b.Real?
    ensures r.Real? ==> r.v == a.v + b.v
  {
    if a.Real? && b.Real? then Real(a.v + b.v) else NonFinite
  }

  /** JavaScript `-`: finite exactly when both operands are. */
  function Sub(a: Num, b: Num): (r: Num)
    ensures r.Real? <==> a.Real? && b.Real?
    ensures r.Real? ==> r.v == a.v - b.v
  {
    if a.Real? && b.Real? then Real(a.v - b.v) else NonFinite
  }

  /** JavaScript `*`: finite exactly when both operands are, so `Infinity * 0` is non-finite. */
  function Mul(a: Num, b: Num): (r: Num)
    ensures r.Real? <==> a.Real? && b.Real?
    ensures r.Real? ==> r.v == a.v * b.v
  {
    if a.Real? && b.Real? then Real(a.v * b.v) else NonFinite
  }

  /** JavaScript `/`: a zero divisor gives NaN or an infinity, never an exception. */
  function Div(a: Num, b: Num): (q: Num)
    ensures q.Real? <==> a.Real? && b.Real? && b.v != 0.0
    ensures q.Real? ==> q.v * b.v == a.v
  {
    if a.Real? && b.Real? && b.v != 0.0 then Real(a.v / b.v) else NonFinite
  }

  /** `x` raised to a natural power, as `Math.pow` with an integral exponent. */
  function Pow(x: real, n: nat): real
  {
    if n == 0 then 1.0 else x * Pow(x, n - 1)
  }

  /** `Math.pow(a, n)`: any base to the power 0 is 1, a non-finite base stays non-finite. */
  function PowNum(a: Num, n: nat): (p: Num)
    ensures n == 0 ==> p == Real(1.0)
    ensures n > 0 ==> (p.Real? <==> a.Real?)
  {
    if n == 0 then Real(1.0)
    else if a.Real? then Real(Pow(a.v, n))
    else NonFinite
  }

  /**
   * `Math.log`, with the natural logarithm of positive reals given as `ln`:
   * zero gives -Infinity, a negative argument NaN, a non-finite one stays so.
   */
  function Log(ln: real -> real, a: Num): (l: Num)
    ensures l.Real? <==> a.Real? && a.v > 0.0
  {
    if a.Real? && a.v > 0.0 then Real(ln(a.v)) else NonFinite
  }

  lemma {:induction false} PowAtLeastOne(x: real, n: nat)
    requires x >= 1.0
    ensures Pow(x, n) >= 1.0
  {
    if n > 0 {
      PowAtLeastOne(x, n - 1);
    }
  }

  /** For a base of at least 1, a larger exponent never gives a smaller power. */
  lemma {:induction false} PowMonotone(x: real, m: nat, n: nat)
    requires x >= 1.0 && m <= n
    ensures Pow(x, m) <= Pow(x, n)
  {
    if m < n {
      PowMonotone(x, m, n - 1);
      PowAtLeastOne(x, n - 1);
      assert Pow(x, n) == x * Pow(x, n - 1);
      assert x * Pow(x, n - 1) >= Pow(x, n - 1);
    }
  }

  lemma {:induction false} PowOfOne(n: nat)
    ensures Pow(1.0, n) == 1.0
  {
    if n > 0 {
      PowOfOne(n - 1);
    }
  }
}
