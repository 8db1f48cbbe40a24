/**
 * The NETS QR checkout (services/nets.js): `generateQrCode` opens a local PENDING order and a
 * CREATED payment for the cart; `checkQrStatus` is polled by the browser and, once the provider
 * reports the payment as paid, finalizes the order exactly once: it checks the stock of every
 * line, writes the order items, decrements stock, marks the order PAID and the payment
 * COMPLETED, and clears the cart. The provider's HTTP answers are inputs.
 *
 * Each handler is specified by a function on a `World` (the session and the four stores) and
 * implemented by a method over the store objects that is proved to follow that function.
 */
module Nets {
  import opened Wrappers
  import opened JsValues
  import opened Catalog
  import opened CartItem
  import opened Sessions
  import opened Pricing
  import Order
  import Payment
  import OrderItem

  // ---------------------------------------------------------------------------------------
  // State
  // ---------------------------------------------------------------------------------------

  /** Everything the two handlers read or write. */
  datatype World = World(
    session: SessionState,
    products: map<int, Product>,
    orders: seq<Order.OrderRow>, nextOrderId: int,
    payments: seq<Payment.PaymentRow>, nextPaymentId: int,
    items: seq<OrderItem.OrderItemRow>)

  predicate WorldValid(w: World) {
    && CartValid(w.session.cart)
    && Order.TableValid(w.orders, w.nextOrderId)
    && Payment.TableValid(w.payments, w.nextPaymentId)
  }

  function Snapshot(
    s: Session, store: ProductStore, orders: Order.OrderTable, payments: Payment.PaymentTable,
    items: OrderItem.OrderItemTable)
    : World
    reads s, store, orders, payments, items
  {
    World(s.State(), store.products, orders.rows, orders.nextId, payments.rows, payments.nextId, items.rows)
  }

  // ---------------------------------------------------------------------------------------
  // generateQrCode
  // ---------------------------------------------------------------------------------------

  /** `response.data.result.data` of the QR request. */
  datatype QrData = QrData(
    response_code: Field, txn_status: Field, qr_code: Option<string>, txn_retrieval_ref: Option<string>,
    network_status: Field, error_message: Option<string>, instruction: Option<string>)

  /** The QR request either throws (network failure, bad body) or answers. */
  datatype QrResponse = QrRequestFailed | QrAnswer(data: QrData)

  /** A QR code is issued only for response code "00", numeric status 1 and a non-empty code. */
  predicate QrAccepted(d: QrData) {
    d.response_code == Str("00") && d.txn_status == Num(1) && Present(d.qr_code)
  }

  datatype GenerateReply =
    | FailRedirect                                   // redirect to /nets-qr/fail
    | LoginRedirect                                  // redirect to /login
    | QrPage(total: real, txnRetrievalRef: Option<string>)
    | QrFailPage(responseCode: Field, instructions: string, errorMsg: string)

  datatype Generated = Generated(world: World, reply: GenerateReply)

  const NetworkFailMessage: string := "Transaction failed. Please try again."
  const QrErrorMessage: string := "An error occurred while generating the QR code."

  /** The failure page for a rejected QR request. */
  function QrFail(d: QrData): GenerateReply {
    QrFailPage(
      Or(d.response_code, Str("N.A.")),
      d.instruction.GetOr(""),
      if d.network_status != Num(0) then OrElse(d.error_message, Some(NetworkFailMessage)).value
      else QrErrorMessage)
  }

  /** Specification of `generateQrCode`; `orderDate` is the database clock at the insert. */
  function Generate(w: World, resp: QrResponse, orderDate: int): Generated {
    var cart := w.session.cart.GetOr([]);
    if |cart| == 0 || resp.QrRequestFailed? then Generated(w, FailRedirect)
    else if !QrAccepted(resp.data) then Generated(w, QrFail(resp.data))
    else if w.session.user.None? then Generated(w, LoginRedirect)
    else
      var user := w.session.user.value;
      var total := Total(cart);
      var orderId := w.nextOrderId;
      var ref := resp.data.txn_retrieval_ref;
      var order := Order.NewOrder(orderId, user.id, total, Some("nets"), Some("PENDING"), orderDate);
      var payment := Payment.NewPayment(
        w.nextPaymentId, orderId, user.id, "nets", total, "SGD", "CREATED", user.email, ref);
      Generated(
        w.(orders := w.orders + [order], nextOrderId := orderId + 1,
           payments := w.payments + [payment], nextPaymentId := w.nextPaymentId + 1,
           session := w.session.(pendingNetsOrderId := Some(orderId), netsOrderFinalized := false,
                                 lastNetsOrderId := None)),
        QrPage(total, ref))
  }

  // ---------------------------------------------------------------------------------------
  // checkQrStatus
  // ---------------------------------------------------------------------------------------

  /** The fields of the status answer that the handler reads. */
  datatype StatusFields = StatusFields(
    response_code: Field, responseCode: Field, txn_status: Field, txnStatus: Field, status: Field,
    rrn: Option<string>, acq_txn_ref: Option<string>, txn_retrieval_ref: Option<string>)

  datatype ResultNode = ResultNode(data: Option<StatusFields>, fields: StatusFields)
  datatype StatusPayload = StatusPayload(result: Option<ResultNode>, fields: StatusFields)

  /** The status request either throws or answers with a body (`response.data`, possibly null). */
  datatype StatusResponse = StatusRequestFailed | StatusAnswer(data: Option<StatusPayload>)

  const NoFields := StatusFields(Missing, Missing, Missing, Missing, Missing, None, None, None)

  /** `result.data` when present, else `result`, else the payload itself (`{}` for a null body). */
  function ResultOf(data: Option<StatusPayload>): StatusFields {
    var payload := data.GetOr(StatusPayload(None, NoFields));
    match payload.result
    case Some(node) => if node.data.Some? then node.data.value else node.fields
    case None => payload.fields
  }

  function ResponseCode(f: StatusFields): Field {
    Or(f.response_code, f.responseCode)
  }

  function TxnStatus(f: StatusFields): Field {
    Or(Or(f.txn_status, f.txnStatus), f.status)
  }

  /** The provider's success criterion: code "00" and status 1, "1" or "SUCCESS". */
  predicate IsPaid(f: StatusFields) {
    ResponseCode(f) == Str("00") && TxnStatus(f) in {Num(1), Str("1"), Str("SUCCESS")}
  }

  /** The reference stored on completion: rrn, else acq_txn_ref, else txn_retrieval_ref, else the query's. */
  function ProviderRef(f: StatusFields, queryRef: string): string {
    if Present(f.rrn) then f.rrn.value
    else if Present(f.acq_txn_ref) then f.acq_txn_ref.value
    else if Present(f.txn_retrieval_ref) then f.txn_retrieval_ref.value
    else queryRef
  }

  datatype PollReply = JsonError(code: int, error: string) | JsonOk(paid: bool, orderId: Option<int>)

  datatype Polled = Polled(world: World, reply: PollReply)

  const MissingRefMessage: string := "Missing txnRetrievalRef"
  const StatusFailedMessage: string := "Status check failed"

  /** The error for a line whose product is missing or short of stock. */
  function ShortageMessage(productName: string): string {
    "Insufficient stock for " + productName + "."
  }

  /** The stock check of one line: the product exists and holds at least the line's quantity. */
  predicate InStock(products: map<int, Product>, l: Line) {
    l.productId in products && products[l.productId].quantity >= l.quantity
  }

  /** The first line that fails the stock check, if any. */
  function FirstShortage(products: map<int, Product>, cart: seq<Line>): (r: Option<nat>)
    ensures r.Some? ==> r.value < |cart| && !InStock(products, cart[r.value])
    ensures r.Some? ==> forall k | 0 <= k < r.value :: InStock(products, cart[k])
    ensures r.None? <==> forall k | 0 <= k < |cart| :: InStock(products, cart[k])
  {
    if cart == [] then None
    else if !InStock(products, cart[0]) then Some(0)
    else
      match FirstShortage(products, cart[1..])
      case Some(k) => Some(k + 1)
      case None =>
        assert forall k | 1 <= k < |cart| :: cart[k] == cart[1..][k - 1];
        None
  }

  function ItemOf(orderId: int, l: Line): OrderItem.OrderItemRow {
    OrderItem.OrderItemRow(orderId, l.productId, l.quantity, l.price)
  }

  /** The order items written for a cart: one per line, in cart order, with its quantity and price. */
  function ItemsFor(orderId: int, cart: seq<Line>): (r: seq<OrderItem.OrderItemRow>)
    ensures |r| == |cart|
    ensures forall k | 0 <= k < |cart| ::
      r[k] == OrderItem.OrderItemRow(orderId, cart[k].productId, cart[k].quantity, cart[k].price)
  {
    if cart == [] then [] else ItemsFor(orderId, cart[..|cart| - 1]) + [ItemOf(orderId, cart[|cart| - 1])]
  }

  /** The products after one decrement per line: each product's stock drops by its lines' total quantity. */
  function Decremented(products: map<int, Product>, cart: seq<Line>): (r: map<int, Product>)
    ensures r.Keys == products.Keys
    ensures forall pid | pid in products ::
      r[pid] == products[pid].(quantity := products[pid].quantity - QtyInCart(cart, pid))
  {
    if cart == [] then products
    else
      var last := cart[|cart| - 1];
      Decrement(Decremented(products, cart[..|cart| - 1]), last.productId, last.quantity)
  }

  const Failed := Payment.PaymentFields(Some("FAILED"), None, None)

  function Completed(f: StatusFields, queryRef: string): Payment.PaymentFields {
    Payment.PaymentFields(Some("COMPLETED"), Some(ProviderRef(f, queryRef)), None)
  }

  /** The session once an order is finalized: empty cart, no pending order, the finalized flag set. */
  function FinalizedSession(s: SessionState, orderId: int): SessionState {
    s.(cart := Some([]), pendingNetsOrderId := None, netsOrderFinalized := true, lastNetsOrderId := Some(orderId))
  }

  /** The finalize branch for pending order `orderId`, taken when the poll is paid and not yet finalized. */
  function Finalize(w: World, orderId: int, queryRef: string, f: StatusFields): Polled
  {
    var cart := w.session.cart.GetOr([]);
    if |cart| == 0 || w.session.user.None? then Polled(w, JsonOk(true, None))
    else
      match FirstShortage(w.products, cart)
      case Some(k) =>
        Polled(w.(payments := Payment.UpdatedByOrder(w.payments, orderId, Failed)),
               JsonError(400, ShortageMessage(cart[k].productName)))
      case None =>
        Polled(
          w.(items := w.items + ItemsFor(orderId, cart),
             products := Decremented(w.products, cart),
             orders := Order.WithStatus(w.orders, orderId, "PAID"),
             payments := Payment.UpdatedByOrder(w.payments, orderId, Completed(f, queryRef)),
             session := FinalizedSession(w.session, orderId)),
          JsonOk(true, Some(orderId)))
  }

  /** Specification of `checkQrStatus` for query parameter `queryRef` and the provider's answer `resp`. */
  function Poll(w: World, queryRef: Option<string>, resp: StatusResponse): Polled {
    if !Present(queryRef) then Polled(w, JsonError(400, MissingRefMessage))
    else if resp.StatusRequestFailed? then Polled(w, JsonError(500, StatusFailedMessage))
    else
      var f := ResultOf(resp.data);
      var local := w.session.pendingNetsOrderId;
      if !IsPaid(f) then Polled(w, JsonOk(false, None))
      else if IdPresent(local) && !w.session.netsOrderFinalized then Finalize(w, local.value, queryRef.value, f)
      else if w.session.netsOrderFinalized then
        Polled(w, JsonOk(true, if IdPresent(w.session.lastNetsOrderId) then w.session.lastNetsOrderId else None))
      else Polled(w, JsonOk(true, None))
  }

  /**
   * `checkQrStatus` as the repository has it. The finalize block promisifies
   * `ProductModel.decrementQuantity`, which models/Product.js does not define, so for a non-empty
   * cart and a logged-in user `util.promisify` throws a TypeError before the first write; the
   * inner catch swallows it and the poll answers paid with no order id, changing nothing.
   */
  function PollAsWritten(w: World, queryRef: Option<string>, resp: StatusResponse): Polled {
    if Present(queryRef) && resp.StatusAnswer? && IsPaid(ResultOf(resp.data))
       && IdPresent(w.session.pendingNetsOrderId) && !w.session.netsOrderFinalized
       && |w.session.cart.GetOr([])| > 0 && w.session.user.Some?
    then Polled(w, JsonOk(true, None))
    else Poll(w, queryRef, resp)
  }

  // ---------------------------------------------------------------------------------------
  // The handlers over the stores
  // ---------------------------------------------------------------------------------------

  /** `generateQrCode`, proved to follow `Generate`. */
  method GenerateQrCode(
    s: Session, store: ProductStore, orders: Order.OrderTable, payments: Payment.PaymentTable,
    items: OrderItem.OrderItemTable, resp: QrResponse, orderDate: int)
    returns (reply: GenerateReply)
    requires orders.Valid() && payments.Valid()
    modifies s, orders, payments
    ensures orders.Valid() && payments.Valid()
    ensures var g := Generate(old(Snapshot(s, store, orders, payments, items)), resp, orderDate);
      Snapshot(s, store, orders, payments, items) == g.world && reply == g.reply
  {
    ghost var w := Snapshot(s, store, orders, payments, items);
    var cart := s.cart.GetOr([]);
    if |cart| == 0 {
      return FailRedirect;
    }
    var total := Total(cart);
    if resp.QrRequestFailed? {
      return FailRedirect;
    }
    var qrData := resp.data;
    if QrAccepted(qrData) {
      var txnRetrievalRef := qrData.txn_retrieval_ref;
      if s.user.None? {
        return LoginRedirect;
      }
      var user := s.user.value;
      var localOrderId := orders.Create(user.id, total, Some("nets"), Some("PENDING"), orderDate);
      var _ := payments.Create(localOrderId, user.id, "nets", total, "SGD", "CREATED", user.email, txnRetrievalRef);
      s.pendingNetsOrderId := Some(localOrderId);
      s.netsOrderFinalized := false;
      s.lastNetsOrderId := None;
      reply := QrPage(total, txnRetrievalRef);
      assert Snapshot(s, store, orders, payments, items) == Generate(w, resp, orderDate).world;
    } else {
      reply := QrFail(qrData);
    }
  }

  /** The stock check loop of the finalize step: it stops at the first line that is short. */
  method CheckStock(store: ProductStore, cart: seq<Line>) returns (shortage: Option<nat>)
    ensures shortage == FirstShortage(store.products, cart)
  {
    var i := 0;
    while i < |cart|
      invariant 0 <= i <= |cart|
      invariant forall k | 0 <= k < i :: InStock(store.products, cart[k])
    {
      var prod := store.GetById(cart[i].productId);
      if prod.None? || prod.value.quantity < cart[i].quantity {
        return Some(i);
      }
      i := i + 1;
    }
    return None;
  }

  /** The write loop of the finalize step: one order item and one stock decrement per line. */
  method WriteItems(store: ProductStore, items: OrderItem.OrderItemTable, orderId: int, cart: seq<Line>)
    modifies store, items
    ensures items.rows == old(items.rows) + ItemsFor(orderId, cart)
    ensures store.products == Decremented(old(store.products), cart)
  {
    var i := 0;
    while i < |cart|
      invariant 0 <= i <= |cart|
      invariant items.rows == old(items.rows) + ItemsFor(orderId, cart[..i])
      invariant store.products == Decremented(old(store.products), cart[..i])
    {
      assert cart[..i + 1][..i] == cart[..i];
      items.Create(orderId, cart[i].productId, cart[i].quantity, cart[i].price);
      store.DecrementQuantity(cart[i].productId, cart[i].quantity);
      i := i + 1;
    }
    assert cart[..i] == cart;
  }

  /** The finalize step of `checkQrStatus` for the pending order `orderId`, proved to follow `Finalize`. */
  method FinalizeOrder(
    s: Session, store: ProductStore, orders: Order.OrderTable, payments: Payment.PaymentTable,
    items: OrderItem.OrderItemTable, orderId: int, queryRef: string, result: StatusFields)
    returns (reply: PollReply)
    requires orders.Valid() && payments.Valid()
    modifies s, store, orders, payments, items
    ensures orders.Valid() && payments.Valid()
    ensures var p := Finalize(old(Snapshot(s, store, orders, payments, items)), orderId, queryRef, result);
      Snapshot(s, store, orders, payments, items) == p.world && reply == p.reply
  {
    ghost var w := Snapshot(s, store, orders, payments, items);
    var cart := s.cart.GetOr([]);
    var user := s.user;
    if |cart| == 0 || user.None? {
      return JsonOk(true, None);
    }
    // Every line is checked before anything is written.
    var shortage := CheckStock(store, cart);
    if shortage.Some? {
      payments.UpdateByOrder(orderId, Failed);
      assert Snapshot(s, store, orders, payments, items) == w.(payments := payments.rows);
      return JsonError(400, ShortageMessage(cart[shortage.value].productName));
    }
    var providerRef := ProviderRef(result, queryRef);
    CompleteOrder(s, store, orders, payments, items, orderId, cart, providerRef);
    reply := JsonOk(true, Some(orderId));
    assert Snapshot(s, store, orders, payments, items) ==
      w.(items := items.rows, products := store.products, orders := orders.rows, payments := payments.rows,
         session := s.State());
  }

  /** The writes of a finalize step whose stock check passed, in the order the handler makes them. */
  method CompleteOrder(
    s: Session, store: ProductStore, orders: Order.OrderTable, payments: Payment.PaymentTable,
    items: OrderItem.OrderItemTable, orderId: int, cart: seq<Line>, providerRef: string)
    requires orders.Valid() && payments.Valid()
    modifies s, store, orders, payments, items
    ensures orders.Valid() && payments.Valid()
    ensures items.rows == old(items.rows) + ItemsFor(orderId, cart)
    ensures store.products == Decremented(old(store.products), cart)
    ensures orders.rows == Order.WithStatus(old(orders.rows), orderId, "PAID") && orders.nextId == old(orders.nextId)
    ensures payments.rows == Payment.UpdatedByOrder(
      old(payments.rows), orderId, Payment.PaymentFields(Some("COMPLETED"), Some(providerRef), None))
    ensures payments.nextId == old(payments.nextId)
    ensures s.State() == FinalizedSession(old(s.State()), orderId)
  {
    WriteItems(store, items, orderId, cart);
    orders.UpdateStatus(orderId, "PAID");
    payments.UpdateByOrder(orderId, Payment.PaymentFields(Some("COMPLETED"), Some(providerRef), None));
    s.cart := Some([]);
    s.pendingNetsOrderId := None;
    s.netsOrderFinalized := true;
    s.lastNetsOrderId := Some(orderId);
  }

  /** `checkQrStatus`, proved to follow `Poll`. */
  method CheckQrStatus(
    s: Session, store: ProductStore, orders: Order.OrderTable, payments: Payment.PaymentTable,
    items: OrderItem.OrderItemTable, queryRef: Option<string>, resp: StatusResponse)
    returns (reply: PollReply)
    requires orders.Valid() && payments.Valid()
    modifies s, store, orders, payments, items
    ensures orders.Valid() && payments.Valid()
    ensures var p := Poll(old(Snapshot(s, store, orders, payments, items)), queryRef, resp);
      Snapshot(s, store, orders, payments, items) == p.world && reply == p.reply
  {
    if !Present(queryRef) {
      return JsonError(400, MissingRefMessage);
    }
    if resp.StatusRequestFailed? {
      return JsonError(500, StatusFailedMessage);
    }
    var result := ResultOf(resp.data);
    var isPaid := IsPaid(result);
    var localOrderId := s.pendingNetsOrderId;
    if isPaid && IdPresent(localOrderId) && !s.netsOrderFinalized {
      reply := FinalizeOrder(s, store, orders, payments, items, localOrderId.value, queryRef.value, result);
      return;
    }
    var finalizedOrderId: Option<int> := None;
    if isPaid && s.netsOrderFinalized {
      finalizedOrderId := if IdPresent(s.lastNetsOrderId) then s.lastNetsOrderId else None;
    }
    if IdPresent(finalizedOrderId) {
      s.lastNetsOrderId := finalizedOrderId;
    }
    reply := JsonOk(isPaid, finalizedOrderId);
  }
}
