/**
 * Prices and discounts (functions/functions.py, apply_discount and
 * apply_promo_code). Money is a real number of dollars; a discount is a
 * percentage.
 */
module Pricing {

  /**
   * apply_discount's formula, `price * (1 - discount / 100)`, before
   * rounding.
   */
  function PreviewPrice(price: real, discount: real): (r: real)
    ensures discount == 0.0 ==> r == price
    ensures discount == 100.0 ==> r == 0.0
    ensures 0.0 <= discount <= 100.0 && price >= 0.0 ==> 0.0 <= r <= price
  {
    var factor := 1.0 - discount / 100.0;
    assert 0.0 <= discount <= 100.0 && price >= 0.0 ==> 0.0 <= price * factor <= price by {
      if 0.0 <= discount <= 100.0 && price >= 0.0 {
        assert 0.0 <= factor <= 1.0;
        assert price * factor <= price * 1.0;
      }
    }
    price * factor
  }

  /**
   * apply_promo_code's formula, `price - price * discount / 100`: a zero
   * discount keeps the price, and a discount between 0 and 100 per cent
   * never makes a non-negative price negative or larger.
   */
  function ChargedPrice(price: real, discount: real): (r: real)
    ensures discount == 0.0 ==> r == price
    ensures discount == 100.0 ==> r == 0.0
    ensures 0.0 <= discount <= 100.0 && price >= 0.0 ==> 0.0 <= r <= price
    ensures price >= 0.0 && discount >= 0.0 ==> r <= price
  {
    var cut := price * discount / 100.0;
    assert 0.0 <= discount <= 100.0 && price >= 0.0 ==> 0.0 <= cut <= price by {
      if 0.0 <= discount <= 100.0 && price >= 0.0 {
        assert price * discount <= price * 100.0;
      }
    }
    price - cut
  }

  /** The preview and the charge are the same number before rounding. */
  lemma FormulasAgree(price: real, discount: real)
    ensures PreviewPrice(price, discount) == ChargedPrice(price, discount)
  {
    calc {
      PreviewPrice(price, discount);
      price * 1.0 - price * (discount / 100.0);
      ChargedPrice(price, discount);
    }
  }

  /** Whether a real is a whole number of cents. */
  predicate IsCents(x: real) {
    (x * 100.0).Floor as real == x * 100.0
  }

  /**
   * Python's round(x, 2) taken on the exact value: to the nearest cent,
   * a tie going to the even cent. The result is a whole number of cents
   * at most half a cent away from x.
   */
  function Round2(x: real): (r: real)
    ensures IsCents(r)
    ensures -0.005 <= r - x <= 0.005
  {
    var n := x * 100.0;
    var f := n.Floor;
    var frac := n - f as real;
    var k := if frac < 0.5 then f
             else if frac > 0.5 then f + 1
             else if f % 2 == 0 then f
             else f + 1;
    assert (k as real / 100.0) * 100.0 == k as real;
    k as real / 100.0
  }

  /** A whole number of cents is left as it is. */
  lemma Round2Cents(x: real)
    requires IsCents(x)
    ensures Round2(x) == x
  {
    var n := x * 100.0;
    assert n.Floor as real == n;
  }

  /** A tie goes to the even cent: 0.125 becomes 0.12 and 0.135 becomes 0.14. */
  lemma Round2Ties(a: real, b: real)
    requires a == 0.125 && b == 0.135
    ensures Round2(a) == 0.12 && Round2(b) == 0.14
  {
    assert (a * 100.0).Floor == 12;
    assert (b * 100.0).Floor == 13;
  }

  /**
   * What apply_discount shows and what apply_promo_code then charges for
   * the same code differ by at most half a cent.
   */
  lemma PreviewWithinHalfCent(price: real, discount: real)
    ensures -0.005 <= Round2(PreviewPrice(price, discount)) - ChargedPrice(price, discount) <= 0.005
  {
    FormulasAgree(price, discount);
  }
}
