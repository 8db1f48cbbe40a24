/**
 * The checkout total that services/nets.js and services/stripe.js both compute: subtotal,
 * 7% tax and a flat shipping fee for a non-empty cart. Amounts are exact rationals in cents.
 */
module Pricing {
  import opened CartItem

  const TaxRate: real := 0.07
  /** 5.00 in cents. */
  const ShippingFlat: int := 500

  function Shipping(cart: seq<Line>): int {
    if |cart| > 0 then ShippingFlat else 0
  }

  function Tax(cart: seq<Line>): real {
    Subtotal(cart) as real * TaxRate
  }

  /** subtotal + tax + shipping. */
  function Total(cart: seq<Line>): (r: real)
    ensures r == Subtotal(cart) as real * 1.07 + (if cart == [] then 0.0 else 500.0)
  {
    Subtotal(cart) as real + Tax(cart) + Shipping(cart) as real
  }

  /** `Math.round` of the tax in cents: the nearest whole cent, halves rounded up. */
  function RoundedTaxCents(cart: seq<Line>): (r: int)
    ensures r as real - 0.5 <= Tax(cart) < r as real + 0.5
  {
    var s := Subtotal(cart);
    var r := (7 * s + 50) / 100;
    assert 100 * r <= 7 * s + 50 < 100 * r + 100;
    assert Tax(cart) == (7 * s) as real / 100.0;
    r
  }

  /** An empty cart costs nothing: no shipping is charged without lines. */
  lemma TotalOfEmptyCart()
    ensures Total([]) == 0.0 && Shipping([]) == 0
  {
  }

  /** The worked example: 2 × 10.00 and 1 × 5.00 give 25.00 + 1.75 + 5.00 = 31.75. */
  lemma TotalExample(a: Line, b: Line)
    requires a.price == 1000 && a.quantity == 2 && b.price == 500 && b.quantity == 1
    ensures Subtotal([a, b]) == 2500 && Tax([a, b]) == 175.0 && Shipping([a, b]) == 500
    ensures Total([a, b]) == 3175.0
  {
    assert [a, b][..1] == [a];
    assert [a][..0] == [];
    assert Subtotal([a]) == 2000;
    assert Subtotal([a, b]) == 2500;
  }

  /** With no negative price or quantity, the total is at least the shipping fee. */
  lemma {:induction false} TotalCoversShipping(cart: seq<Line>)
    requires forall k | 0 <= k < |cart| :: cart[k].price >= 0 && cart[k].quantity >= 0
    ensures Subtotal(cart) >= 0
    ensures Total(cart) >= Shipping(cart) as real
  {
    if cart != [] {
      TotalCoversShipping(cart[..|cart| - 1]);
      var last := cart[|cart| - 1];
      assert last.price * last.quantity >= 0;
    }
  }
}
