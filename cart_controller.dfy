/** The cart routes (controllers/CartController.js), acting on the session's cart in place. */
module CartController {
  import opened Wrappers
  import opened Catalog
  import opened CartItem
  import opened Sessions
  import opened Http

  /** `parseInt(req.body.quantity) || 1`, where `None` is the NaN of an unparsable field. */
  function DefaultQuantity(parsed: Option<int>): (q: int)
    ensures q != 0
    ensures parsed.Some? && parsed.value != 0 ==> q == parsed.value
    ensures parsed.None? || parsed.value == 0 ==> q == 1
  {
    if parsed.Some? && parsed.value != 0 then parsed.value else 1
  }

  /**
   * `addToCart`: an unknown product answers 404 and leaves the session alone; otherwise a
   * missing cart becomes empty and the cart is replaced by `addItem(cart, product, quantity)`.
   */
  method AddToCart(s: Session, store: ProductStore, productId: int, parsedQuantity: Option<int>)
    returns (res: Response)
    requires s.Valid()
    modifies s
    ensures s.Valid()
    ensures productId !in store.products ==> res == Status(404) && s.State() == old(s.State())
    ensures productId in store.products ==>
      && res == Redirect("/cart")
      && s.State() == old(s.State()).(cart := Some(
           Merged(old(s.cart).GetOr([]), store.products[productId], DefaultQuantity(parsedQuantity))))
  {
    var quantity := DefaultQuantity(parsedQuantity);
    var product := store.GetById(productId);
    if product.None? {
      return Status(404);
    }
    if s.cart.None? {
      s.cart := Some([]);
    }
    var updated := AddItem(s.cart, product.value, quantity);
    MergedKeepsUniqueIds(s.cart.value, product.value, quantity);
    s.cart := Some(updated);
    res := Redirect("/cart");
  }

  /** `viewCart`: the cart (empty when unset) and `calculateGrandTotal` of it. */
  method ViewCart(s: Session) returns (lines: seq<Line>, grandTotal: int)
    ensures lines == s.cart.GetOr([])
    ensures grandTotal == Subtotal(lines)
  {
    lines := s.cart.GetOr([]);
    grandTotal := GrandTotal(Some(lines));
  }

  /**
   * `updateQuantity`: a missing cart becomes empty; then the first line of the product gets
   * exactly `newQty`, without clamping, and nothing else changes.
   */
  method UpdateQuantity(s: Session, productId: int, newQty: int) returns (res: Response)
    requires s.Valid()
    modifies s
    ensures s.Valid()
    ensures res == Redirect("/cart")
    ensures s.State() == old(s.State()).(cart := Some(WithQuantity(old(s.cart).GetOr([]), productId, newQty)))
  {
    if s.cart.None? {
      s.cart := Some([]);
    }
    var lines := s.cart.value;
    WithQuantityKeepsUniqueIds(lines, productId, newQty);
    var item := Find(lines, productId);
    if item.Some? {
      var i := item.value;
      s.cart := Some(lines[i := lines[i].(quantity := newQty)]);
    }
    res := Redirect("/cart");
  }

  /**
   * `removeItem`: the cart is replaced by its lines of other products. With no cart at all,
   * `req.session.cart.filter` throws and the session is left as it was.
   */
  method RemoveItem(s: Session, productId: int) returns (res: Response)
    requires s.Valid()
    modifies s
    ensures s.Valid()
    ensures old(s.cart).None? ==> res == Crash && s.State() == old(s.State())
    ensures old(s.cart).Some? ==>
      res == Redirect("/cart") && s.State() == old(s.State()).(cart := Some(Removed(old(s.cart).value, productId)))
  {
    if s.cart.None? {
      return Crash;
    }
    RemovedKeepsUniqueIds(s.cart.value, productId);
    s.cart := Some(Removed(s.cart.value, productId));
    res := Redirect("/cart");
  }

  /** `clearCart`: the cart is always empty afterwards. */
  method ClearCart(s: Session) returns (res: Response)
    modifies s
    ensures s.Valid()
    ensures res == Redirect("/cart") && s.State() == old(s.State()).(cart := Some([]))
  {
    s.cart := Some([]);
    res := Redirect("/cart");
  }

  /** `checkoutPage`: the `forEach` accumulation equals `calculateGrandTotal` of the session cart. */
  method CheckoutPage(s: Session) returns (lines: seq<Line>, grandTotal: int)
    ensures lines == s.cart.GetOr([])
    ensures grandTotal == GrandTotal(s.cart)
  {
    lines := s.cart.GetOr([]);
    grandTotal := 0;
    var i := 0;
    while i < |lines|
      invariant 0 <= i <= |lines|
      invariant grandTotal == Subtotal(lines[..i])
    {
      assert lines[..i + 1][..i] == lines[..i];
      grandTotal := grandTotal + lines[i].price * lines[i].quantity;
      i := i + 1;
    }
    assert lines[..i] == lines;
  }
}
