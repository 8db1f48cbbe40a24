/**
 * The Stripe Checkout request that services/stripe.js builds for a cart: one line per cart line,
 * a shipping line and a tax line (both quantity 1, in whole cents), and metadata tying the
 * Stripe session to the local order and user. Sending it is left to the Stripe SDK.
 */
module Stripe {
  import opened Wrappers
  import opened CartItem
  import opened Sessions
  import opened Pricing

  /** `price_data` and `quantity` of one checkout line; `unitAmount` in cents. */
  datatype LineItem = LineItem(currency: string, name: string, unitAmount: int, quantity: int)

  datatype Metadata = Metadata(localOrderId: string, userId: string)

  datatype SessionRequest = SessionRequest(
    mode: string, lineItems: seq<LineItem>, metadata: Metadata, successUrl: string, cancelUrl: string)

  // ---------------------------------------------------------------------------------------
  // `String(n)` for an integer
  // ---------------------------------------------------------------------------------------

  predicate IsDigit(c: char) {
    '0' <= c <= '9'
  }

  function DigitChar(d: int): (c: char)
    requires 0 <= d < 10
    ensures IsDigit(c) && (c as int) - ('0' as int) == d
  {
    (('0' as int) + d) as char
  }

  /** The decimal digits of `n`, most significant first, without leading zeros. */
  function NatToString(n: nat): (r: string)
    ensures |r| >= 1 && forall k | 0 <= k < |r| :: IsDigit(r[k])
    ensures (r[0] == '0') <==> n == 0
  {
    if n < 10 then [DigitChar(n)] else NatToString(n / 10) + [DigitChar(n % 10)]
  }

  function IntToString(n: int): (r: string)
    ensures |r| >= 1
  {
    if n < 0 then "-" + NatToString(-n) else NatToString(n)
  }

  /** The value of a string of decimal digits. */
  function DigitsValue(s: string): nat
    requires forall k | 0 <= k < |s| :: IsDigit(s[k])
  {
    if s == [] then 0
    else
      assert IsDigit(s[|s| - 1]);
      DigitsValue(s[..|s| - 1]) * 10 + ((s[|s| - 1] as int) - ('0' as int))
  }

  /** Reading back what `IntToString` wrote. */
  function ParseInt(s: string): int
    requires |s| >= 1
    requires forall k | 1 <= k < |s| :: IsDigit(s[k])
    requires s[0] == '-' || IsDigit(s[0])
  {
    if s[0] == '-' then -(DigitsValue(s[1..]) as int) else DigitsValue(s)
  }

  lemma {:induction false} NatToStringRoundTrip(n: nat)
    ensures DigitsValue(NatToString(n)) == n
  {
    if n >= 10 {
      var s := NatToString(n);
      assert s[..|s| - 1] == NatToString(n / 10);
      NatToStringRoundTrip(n / 10);
    }
  }

  /** `String(n)` is decimal and loses nothing: the order and user ids read back as they were. */
  lemma IntToStringRoundTrip(n: int)
    ensures var s := IntToString(n);
      (forall k | 1 <= k < |s| :: IsDigit(s[k])) && (s[0] == '-' || IsDigit(s[0])) && ParseInt(s) == n
  {
    var s := IntToString(n);
    if n < 0 {
      assert s[1..] == NatToString(-n);
      NatToStringRoundTrip(-n);
    } else {
      NatToStringRoundTrip(n);
    }
  }

  lemma IntToStringInjective(a: int, b: int)
    requires IntToString(a) == IntToString(b)
    ensures a == b
  {
    IntToStringRoundTrip(a);
    IntToStringRoundTrip(b);
  }

  // ---------------------------------------------------------------------------------------
  // Line items
  // ---------------------------------------------------------------------------------------

  /** The checkout line of one cart line; a line with no name is called 'Item'. */
  function ItemLine(l: Line): LineItem {
    LineItem("sgd", if l.productName == "" then "Item" else l.productName, l.price, l.quantity)
  }

  const ShippingLine := LineItem("sgd", "Shipping", ShippingFlat, 1)

  function TaxLine(cart: seq<Line>): LineItem {
    LineItem("sgd", "Tax", RoundedTaxCents(cart), 1)
  }

  /** What Stripe charges for a list of lines: Σ unit amount × quantity. */
  function Charged(items: seq<LineItem>): int {
    if items == [] then 0 else Charged(items[..|items| - 1]) + items[|items| - 1].unitAmount * items[|items| - 1].quantity
  }

  function ItemLines(cart: seq<Line>): (r: seq<LineItem>)
    ensures |r| == |cart| && forall k | 0 <= k < |cart| :: r[k] == ItemLine(cart[k])
  {
    seq(|cart|, k requires 0 <= k < |cart| => ItemLine(cart[k]))
  }

  /**
   * The lines of the checkout: the cart's lines in order, then shipping for a non-empty cart,
   * then the rounded tax when it is positive; everything in SGD.
   */
  function RequestLines(c: seq<Line>): (r: seq<LineItem>)
    ensures var n := |c|;
      && |r| == n + (if n > 0 then 1 else 0) + (if Subtotal(c) > 0 then 1 else 0)
      && r[..n] == ItemLines(c)
      && (forall k | n <= k < |r| :: r[k].quantity == 1)
      && (n > 0 ==> r[n] == ShippingLine)
      && (Subtotal(c) > 0 ==> r[|r| - 1] == TaxLine(c))
    ensures forall item | item in r :: item.currency == "sgd"
  {
    var extra := (if |c| > 0 then [ShippingLine] else []) + (if Subtotal(c) > 0 then [TaxLine(c)] else []);
    var items := ItemLines(c) + extra;
    assert items[..|c|] == ItemLines(c);
    items
  }

  /** Where Stripe sends the browser back to, after `baseUrl`. */
  const SuccessPath: string := "/stripe/success?session_id={CHECKOUT_SESSION_ID}"
  const CancelPath: string := "/checkout"

  /** The `stripe.checkout.sessions.create` argument. */
  function CheckoutRequest(cart: Option<seq<Line>>, user: Option<User>, localOrderId: int, baseUrl: string)
    : (r: SessionRequest)
    ensures r.lineItems == RequestLines(cart.GetOr([]))
    ensures r.metadata.localOrderId == IntToString(localOrderId)
    ensures r.metadata.userId == "" <==> user.None? || user.value.id == 0
    ensures user.Some? && user.value.id != 0 ==> r.metadata.userId == IntToString(user.value.id)
  {
    var meta := Metadata(IntToString(localOrderId),
                         if user.Some? && user.value.id != 0 then IntToString(user.value.id) else "");
    SessionRequest("payment", RequestLines(cart.GetOr([])), meta,
                   baseUrl + SuccessPath, baseUrl + CancelPath)
  }

  lemma {:induction false} ChargedConcat(a: seq<LineItem>, b: seq<LineItem>)
    ensures Charged(a + b) == Charged(a) + Charged(b)
  {
    if b != [] {
      assert (a + b)[..|a + b| - 1] == a + b[..|b| - 1];
      assert (a + b)[|a + b| - 1] == b[|b| - 1];
      ChargedConcat(a, b[..|b| - 1]);
    } else {
      assert a + b == a;
    }
  }

  /** The item lines charge exactly the cart's subtotal. */
  lemma {:induction false} ChargedItemLines(cart: seq<Line>)
    ensures Charged(ItemLines(cart)) == Subtotal(cart)
  {
    if cart != [] {
      var init := cart[..|cart| - 1];
      assert ItemLines(cart) == ItemLines(init) + [ItemLine(cart[|cart| - 1])];
      ChargedConcat(ItemLines(init), [ItemLine(cart[|cart| - 1])]);
      ChargedItemLines(init);
    }
  }

  /** Stripe charges the subtotal, the shipping and the rounded tax when it is positive. */
  lemma ChargedRequestLines(cart: seq<Line>)
    ensures Charged(RequestLines(cart)) ==
      Subtotal(cart) + Shipping(cart) + (if Subtotal(cart) > 0 then RoundedTaxCents(cart) else 0)
  {
    var ship: seq<LineItem> := if |cart| > 0 then [ShippingLine] else [];
    var tax: seq<LineItem> := if Subtotal(cart) > 0 then [TaxLine(cart)] else [];
    assert RequestLines(cart) == ItemLines(cart) + ship + tax;
    ChargedConcat(ItemLines(cart) + ship, tax);
    ChargedConcat(ItemLines(cart), ship);
    ChargedItemLines(cart);
    assert Charged(ship) == Shipping(cart);
    assert Charged(tax) == (if Subtotal(cart) > 0 then RoundedTaxCents(cart) else 0);
  }

  /**
   * For a cart whose subtotal is not negative, Stripe charges the checkout total rounded to a
   * whole cent: within half a cent of the total the NETS page shows.
   */
  lemma ChargeMatchesTotal(cart: seq<Line>, user: Option<User>, localOrderId: int, baseUrl: string)
    requires Subtotal(cart) >= 0
    ensures var charged := Charged(CheckoutRequest(Some(cart), user, localOrderId, baseUrl).lineItems);
      && charged == Subtotal(cart) + Shipping(cart) + (if Subtotal(cart) > 0 then RoundedTaxCents(cart) else 0)
      && Total(cart) - 0.5 < charged as real <= Total(cart) + 0.5
  {
    ChargedRequestLines(cart);
    var r := RoundedTaxCents(cart);
    assert r as real - 0.5 <= Tax(cart) < r as real + 0.5;
  }

  /**
   * `createCheckoutSession` up to the SDK call: it maps the cart to lines and then pushes the
   * shipping and tax lines onto them.
   */
  method CreateCheckoutSession(cart: Option<seq<Line>>, user: Option<User>, localOrderId: int, baseUrl: string)
    returns (request: SessionRequest)
    ensures request == CheckoutRequest(cart, user, localOrderId, baseUrl)
  {
    var lineItems := BuildLines(cart.GetOr([]));
    var userId := if user.Some? && user.value.id != 0 then IntToString(user.value.id) else "";
    request := SessionRequest("payment", lineItems, Metadata(IntToString(localOrderId), userId),
                              baseUrl + SuccessPath, baseUrl + CancelPath);
  }

  /** The map-then-push construction of the line items. */
  method BuildLines(c: seq<Line>) returns (lineItems: seq<LineItem>)
    ensures lineItems == RequestLines(c)
  {
    var subtotal := Subtotal(c);
    var shipping := Shipping(c);
    lineItems := ItemLines(c);
    if shipping > 0 {
      lineItems := lineItems + [LineItem("sgd", "Shipping", shipping, 1)];
    }
    if subtotal > 0 {
      lineItems := lineItems + [LineItem("sgd", "Tax", RoundedTaxCents(c), 1)];
    }
  }
}
