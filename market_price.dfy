/**
 * The spot price of the liquidity pair, once `getReserves()` has been read:
 * the two reserves are plain inputs here.
 */
module MarketPrice {
  import opened JsNumber

  /** Reserve 0 over reserve 1, returned without further scaling. */
  function ReservePrice(reserve0: nat, reserve1: nat): (price: Num)
    ensures price.Real? <==> reserve1 != 0
    ensures price.Real? ==> price.v * (reserve1 as real) == reserve0 as real
  {
    Div(Real(reserve0 as real), Real(reserve1 as real))
  }

  /** With a non-empty second reserve the price is a finite, non-negative number. */
  lemma ReservePriceNonNegative(reserve0: nat, reserve1: nat)
    requires reserve1 > 0
    ensures ReservePrice(reserve0, reserve1).Real?
    ensures ReservePrice(reserve0, reserve1).v >= 0.0
  {
    var p := ReservePrice(reserve0, reserve1).v;
    assert p == (reserve0 as real) / (reserve1 as real);
  }

  /** Reserve 0 is the numerator: swapping the reserves gives the reciprocal price. */
  lemma ReservePriceSwap(reserve0: nat, reserve1: nat)
    requires reserve0 != 0 && reserve1 != 0
    ensures ReservePrice(reserve1, reserve0).Real? && ReservePrice(reserve0, reserve1).Real?
    ensures ReservePrice(reserve1, reserve0).v * ReservePrice(reserve0, reserve1).v == 1.0
  {
    var a, b := reserve0 as real, reserve1 as real;
    assert ReservePrice(reserve1, reserve0).v == b / a;
    assert ReservePrice(reserve0, reserve1).v == a / b;
    assert (b / a) * (a / b) == (b * a) / (a * b);
  }

  /** Only the ratio of the reserves matters: scaling both by k > 0 keeps the price. */
  lemma ReservePriceScale(reserve0: nat, reserve1: nat, k: nat)
    requires k > 0
    ensures ReservePrice(k * reserve0, k * reserve1) == ReservePrice(reserve0, reserve1)
  {
    var a, b, c := reserve0 as real, reserve1 as real, k as real;
    assert (k * reserve0) as real == c * a;
    assert (k * reserve1) as real == c * b;
    if b != 0.0 {
      assert (c * a) / (c * b) == a / b;
    }
  }

  /** 300000 against 100000 is a price of 3. */
  lemma ReservePriceExample()
    ensures ReservePrice(300000, 100000) == Real(3.0)
  {
  }
}
