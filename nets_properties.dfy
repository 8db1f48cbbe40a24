/**
 * What the NETS checkout promises across calls: a poll may be repeated without effect, an order
 * is finalized at most once and completely or not at all, stock never goes negative, the tables
 * keep their invariants, and a generated QR code that is paid ends in a PAID order.
 */
module NetsProperties {
  import opened Wrappers
  import opened JsValues
  import opened Catalog
  import opened CartItem
  import opened Sessions
  import opened Pricing
  import opened Nets
  import Order
  import Payment
  import OrderItem

  /** The finalize step applies when the answer is paid and a pending order is not finalized yet. */
  predicate Finalizing(w: World, queryRef: Option<string>, resp: StatusResponse) {
    && Present(queryRef) && resp.StatusAnswer? && IsPaid(ResultOf(resp.data))
    && IdPresent(w.session.pendingNetsOrderId) && !w.session.netsOrderFinalized
    && |w.session.cart.GetOr([])| > 0 && w.session.user.Some?
  }

  predicate StockNonNegative(products: map<int, Product>) {
    forall pid | pid in products :: products[pid].quantity >= 0
  }

  /** Polling again with the same answer changes nothing more and gives the same reply. */
  lemma PollIdempotent(w: World, queryRef: Option<string>, resp: StatusResponse)
    ensures var p := Poll(w, queryRef, resp); Poll(p.world, queryRef, resp) == p
  {
    if Finalizing(w, queryRef, resp) {
      var id := w.session.pendingNetsOrderId.value;
      var cart := w.session.cart.value;
      if FirstShortage(w.products, cart).Some? {
        Payment.UpdateIdempotent(w.payments, id, Failed);
      }
    }
  }

  /** Once an order is finalized, no poll changes the world any more; a paid one returns the last order id. */
  lemma FinalizedIsFinal(w: World, queryRef: Option<string>, resp: StatusResponse)
    requires w.session.netsOrderFinalized
    ensures Poll(w, queryRef, resp).world == w
    ensures Present(queryRef) && resp.StatusAnswer? && IsPaid(ResultOf(resp.data)) ==>
      Poll(w, queryRef, resp).reply ==
        JsonOk(true, if IdPresent(w.session.lastNetsOrderId) then w.session.lastNetsOrderId else None)
  {
  }

  /** An answer that is not paid changes nothing and returns no order id. */
  lemma PollNotPaid(w: World, queryRef: Option<string>, resp: StatusResponse)
    requires Present(queryRef) && resp.StatusAnswer? && !IsPaid(ResultOf(resp.data))
    ensures Poll(w, queryRef, resp) == Polled(w, JsonOk(false, None))
  {
  }

  /** The provider's status may sit under `result.data`, under `result`, or at the top of the body. */
  lemma ResultOfFallbacks(f: StatusFields)
    ensures ResultOf(Some(StatusPayload(Some(ResultNode(Some(f), NoFields)), NoFields))) == f
    ensures ResultOf(Some(StatusPayload(Some(ResultNode(None, f)), NoFields))) == f
    ensures ResultOf(Some(StatusPayload(None, f))) == f
    ensures !IsPaid(ResultOf(None))
  {
  }

  /** Over two polls with any answers, the order items are written at most once. */
  lemma ItemsWrittenOnce(
    w: World, q1: Option<string>, r1: StatusResponse, q2: Option<string>, r2: StatusResponse)
    ensures var w1 := Poll(w, q1, r1).world; var w2 := Poll(w1, q2, r2).world;
      w1.items == w.items || w2.items == w1.items
  {
    var w1 := Poll(w, q1, r1).world;
    if w1.items != w.items {
      FinalizedIsFinal(w1, q2, r2);
    }
  }

  /**
   * A paid poll with enough stock finalizes the pending order: one item per cart line, each
   * product's stock reduced by its line's quantity, the order PAID, its payments COMPLETED with
   * the provider's reference, the cart emptied, and the order id returned.
   */
  lemma PollSuccess(w: World, queryRef: Option<string>, resp: StatusResponse)
    requires WorldValid(w) && Finalizing(w, queryRef, resp)
    requires FirstShortage(w.products, w.session.cart.value).None?
    ensures var id := w.session.pendingNetsOrderId.value; var cart := w.session.cart.value;
      var p := Poll(w, queryRef, resp);
      && p.reply == JsonOk(true, Some(id))
      && p.world.items == w.items + ItemsFor(id, cart)
      && p.world.products.Keys == w.products.Keys
      && (forall pid | pid in w.products ::
            p.world.products[pid].quantity ==
              w.products[pid].quantity - match Find(cart, pid) case Some(i) => cart[i].quantity case None => 0)
      && Order.Lookup(p.world.orders, id) ==
           (match Order.Lookup(w.orders, id) case Some(o) => Some(o.(status := "PAID")) case None => None)
      && (forall k | 0 <= k < |w.payments| && w.payments[k].orderId == id ::
            p.world.payments[k].status == "COMPLETED" &&
            p.world.payments[k].providerRef == Some(ProviderRef(ResultOf(resp.data), queryRef.value)))
      && p.world.session.cart == Some([]) && p.world.session.pendingNetsOrderId == None
      && p.world.session.netsOrderFinalized && p.world.session.lastNetsOrderId == Some(id)
  {
    var id := w.session.pendingNetsOrderId.value;
    var cart := w.session.cart.value;
    forall pid | pid in w.products
      ensures QtyInCart(cart, pid) == match Find(cart, pid) case Some(i) => cart[i].quantity case None => 0
    {
      QtyInCartUnique(cart, pid);
    }
    Order.LookupAfterWithStatus(w.orders, id, "PAID", id);
  }

  /** A paid poll that finds a line short of stock only marks the order's payments FAILED. */
  lemma PollShortage(w: World, queryRef: Option<string>, resp: StatusResponse)
    requires Finalizing(w, queryRef, resp)
    requires FirstShortage(w.products, w.session.cart.value).Some?
    ensures var id := w.session.pendingNetsOrderId.value; var cart := w.session.cart.value;
      var k := FirstShortage(w.products, cart).value;
      var p := Poll(w, queryRef, resp);
      && p.reply == JsonError(400, ShortageMessage(cart[k].productName))
      && !InStock(w.products, cart[k])
      && p.world.products == w.products && p.world.items == w.items && p.world.orders == w.orders
      && p.world.session == w.session
      && |p.world.payments| == |w.payments|
      && (forall j | 0 <= j < |w.payments| ::
            p.world.payments[j] == if w.payments[j].orderId == id then w.payments[j].(status := "FAILED") else w.payments[j])
  {
  }

  /** With at most one line per product, a poll never takes a product's stock below zero. */
  lemma PollKeepsStockNonNegative(w: World, queryRef: Option<string>, resp: StatusResponse)
    requires WorldValid(w) && StockNonNegative(w.products)
    ensures StockNonNegative(Poll(w, queryRef, resp).world.products)
  {
    if Finalizing(w, queryRef, resp) && FirstShortage(w.products, w.session.cart.value).None? {
      var cart := w.session.cart.value;
      var r := Poll(w, queryRef, resp).world.products;
      forall pid | pid in r ensures r[pid].quantity >= 0 {
        QtyInCartUnique(cart, pid);
        match Find(cart, pid)
        case Some(i) => assert InStock(w.products, cart[i]);
        case None =>
      }
    }
  }

  /** The per-line stock check alone does not protect a cart with two lines of one product. */
  lemma DuplicateLinesOversell()
    ensures var products := map[1 := Product(1, "Milk", 250, 1, None, true)];
      var l := Line(1, "Milk", 250, 1, None);
      FirstShortage(products, [l, l]).None? && Decremented(products, [l, l])[1].quantity == -1
  {
    var products := map[1 := Product(1, "Milk", 250, 1, None, true)];
    var l := Line(1, "Milk", 250, 1, None);
    assert QtyInCart([l, l], 1) == QtyInCart([l], 1) + 1;
  }

  /** A poll keeps the cart invariant and the tables' id invariants. */
  lemma PollKeepsWorldValid(w: World, queryRef: Option<string>, resp: StatusResponse)
    requires WorldValid(w)
    ensures WorldValid(Poll(w, queryRef, resp).world)
  {
    if Finalizing(w, queryRef, resp) {
      var id := w.session.pendingNetsOrderId.value;
      Order.WithStatusKeepsTableValid(w.orders, w.nextOrderId, id, "PAID");
      Payment.UpdatedByOrderKeepsTableValid(w.payments, w.nextPaymentId, id, Failed);
      Payment.UpdatedByOrderKeepsTableValid(
        w.payments, w.nextPaymentId, id, Completed(ResultOf(resp.data), queryRef.value));
    }
  }

  /** `generateQrCode` changes something exactly when it issues a QR code, and it keeps the world valid. */
  lemma GenerateOutcome(w: World, resp: QrResponse, orderDate: int)
    requires WorldValid(w)
    ensures var g := Generate(w, resp, orderDate);
      && WorldValid(g.world)
      && (g.reply.QrPage? <==> g.world != w)
      && (g.reply.QrPage? <==>
            |w.session.cart.GetOr([])| > 0 && resp.QrAnswer? && QrAccepted(resp.data) && w.session.user.Some?)
  {
    var cart := w.session.cart.GetOr([]);
    if |cart| > 0 && resp.QrAnswer? && QrAccepted(resp.data) && w.session.user.Some? {
      var g := Generate(w, resp, orderDate);
      var user := w.session.user.value;
      var order := Order.NewOrder(w.nextOrderId, user.id, Total(cart), Some("nets"), Some("PENDING"), orderDate);
      var payment := Payment.NewPayment(w.nextPaymentId, w.nextOrderId, user.id, "nets", Total(cart), "SGD",
                                        "CREATED", user.email, resp.data.txn_retrieval_ref);
      assert g.world.orders == w.orders + [order];
      assert g.world.payments == w.payments + [payment];
      Order.AppendKeepsTableValid(w.orders, w.nextOrderId, order);
      Payment.AppendKeepsTableValid(w.payments, w.nextPaymentId, payment);
      assert |g.world.orders| != |w.orders|;
    }
  }

  /**
   * An issued QR code inserts exactly one order and one payment for it, both for the cart's
   * total, and remembers that order as the pending one.
   */
  lemma GenerateInserts(w: World, resp: QrResponse, orderDate: int)
    requires WorldValid(w)
    requires |w.session.cart.GetOr([])| > 0 && resp.QrAnswer? && QrAccepted(resp.data) && w.session.user.Some?
    ensures var g := Generate(w, resp, orderDate);
      var cart := w.session.cart.value; var user := w.session.user.value; var id := w.nextOrderId;
      && g.reply == QrPage(Total(cart), resp.data.txn_retrieval_ref)
      && g.world.orders == w.orders + [g.world.orders[|w.orders|]]
      && g.world.payments == w.payments + [g.world.payments[|w.payments|]]
      && Order.Lookup(g.world.orders, id) == Some(g.world.orders[|w.orders|])
      && g.world.orders[|w.orders|].status == "PENDING"
      && g.world.orders[|w.orders|].userId == user.id
      && g.world.orders[|w.orders|].totalAmount == Total(cart)
      && g.world.orders[|w.orders|].paymentMethod == Some("nets")
      && g.world.orders[|w.orders|].orderDate == orderDate
      && g.world.payments[|w.payments|].id == w.nextPaymentId
      && g.world.payments[|w.payments|].orderId == id
      && g.world.payments[|w.payments|].userId == user.id
      && g.world.payments[|w.payments|].provider == "nets"
      && g.world.payments[|w.payments|].amount == Total(cart)
      && g.world.payments[|w.payments|].currency == "SGD"
      && g.world.payments[|w.payments|].status == "CREATED"
      && g.world.payments[|w.payments|].providerRef == OrNull(resp.data.txn_retrieval_ref)
      && g.world.payments[|w.payments|].payerEmail == OrNull(user.email)
      && g.world.session == w.session.(pendingNetsOrderId := Some(id), netsOrderFinalized := false,
                                       lastNetsOrderId := None)
  {
    var g := Generate(w, resp, orderDate);
    var cart := w.session.cart.value;
    var order := Order.NewOrder(w.nextOrderId, w.session.user.value.id, Total(cart), Some("nets"), Some("PENDING"), orderDate);
    assert g.world.orders == w.orders + [order];
    Order.AppendKeepsTableValid(w.orders, w.nextOrderId, order);
    Order.LookupUnique(g.world.orders, |w.orders|);
  }

  /**
   * End to end: after a QR code is issued for a cart in stock, the first paid poll turns the new
   * order PAID, writes the cart as its items, empties the cart and returns the order id.
   */
  lemma GenerateThenPaidPoll(
    w: World, qr: QrResponse, orderDate: int, queryRef: Option<string>, status: StatusResponse)
    requires WorldValid(w)
    requires |w.session.cart.GetOr([])| > 0 && w.session.user.Some?
    requires qr.QrAnswer? && QrAccepted(qr.data)
    requires Present(queryRef) && status.StatusAnswer? && IsPaid(ResultOf(status.data))
    requires FirstShortage(w.products, w.session.cart.value).None?
    ensures var cart := w.session.cart.value; var id := w.nextOrderId;
      var g := Generate(w, qr, orderDate).world;
      var p := Poll(g, queryRef, status);
      && p.reply == JsonOk(true, Some(id))
      && Order.Lookup(p.world.orders, id) ==
           Some(Order.NewOrder(id, w.session.user.value.id, Total(cart), Some("nets"), Some("PENDING"), orderDate)
                  .(status := "PAID"))
      && p.world.items == w.items + ItemsFor(id, cart)
      && p.world.payments[|w.payments|].status == "COMPLETED"
      && p.world.session.cart == Some([])
  {
    GenerateOutcome(w, qr, orderDate);
    GenerateInserts(w, qr, orderDate);
    var g := Generate(w, qr, orderDate).world;
    PollSuccess(g, queryRef, status);
  }

  // ---------------------------------------------------------------------------------------
  // The finalize step as written
  // ---------------------------------------------------------------------------------------

  /** As written, no poll writes an order item, touches stock or changes an order. */
  lemma AsWrittenNeverFulfils(w: World, queryRef: Option<string>, resp: StatusResponse)
    ensures var p := PollAsWritten(w, queryRef, resp);
      p.world.items == w.items && p.world.products == w.products && p.world.orders == w.orders
  {
  }

  /** As written, a session whose order is not finalized stays so, so every later poll retries. */
  lemma AsWrittenNeverFinalizes(w: World, queryRef: Option<string>, resp: StatusResponse)
    requires !w.session.netsOrderFinalized
    ensures !PollAsWritten(w, queryRef, resp).world.session.netsOrderFinalized
    ensures PollAsWritten(w, queryRef, resp).world.session.pendingNetsOrderId == w.session.pendingNetsOrderId
  {
  }

  /**
   * A concrete paid poll: the intended finalize step marks order 1 PAID and returns its id; as
   * written the order stays PENDING, stock is untouched and no id is returned.
   */
  lemma AsWrittenCounterexample()
    ensures
      var products := map[7 := Product(7, "Rice", 300, 5, None, true)];
      var cart := [Line(7, "Rice", 300, 2, None)];
      var order := Order.OrderRow(1, 3, 1142.0, Some("nets"), "PENDING", 0);
      var session := SessionState(Some(cart), Some(User(3, None, "user")), Some(1), false, None);
      var w := World(session, products, [order], 2, [], 1, []);
      var fields := StatusFields(Str("00"), Missing, Num(1), Missing, Missing, None, None, None);
      var resp := StatusAnswer(Some(StatusPayload(Some(ResultNode(Some(fields), NoFields)), NoFields)));
      var intended := Poll(w, Some("ref"), resp);
      var written := PollAsWritten(w, Some("ref"), resp);
      && intended.reply == JsonOk(true, Some(1))
      && intended.world.orders[0].status == "PAID"
      && intended.world.products[7].quantity == 3
      && written.reply == JsonOk(true, None)
      && written.world.orders[0].status == "PENDING"
      && written.world.products[7].quantity == 5
  {
    var products := map[7 := Product(7, "Rice", 300, 5, None, true)];
    var cart := [Line(7, "Rice", 300, 2, None)];
    assert FirstShortage(products, cart).None?;
    assert QtyInCart(cart, 7) == 2;
  }
}
