# SupermarketAppMVC checkout core in Dafny

This project models the shopping cart and checkout of SupermarketAppMVC, an Express/MySQL
supermarket shop, and proves properties of that model.

- **Session cart.** A shopper's cart lives in their session. It is an ordered list of lines
  `{productId, productName, price, quantity, image}`. `addItem` merges a product into its
  existing line or appends a new line. The cart routes update a line's quantity, remove a
  product's lines, clear the cart, and total the cart.
- **NETS QR checkout.**
  - `generateQrCode` prices the cart (subtotal, 7% tax, 5.00 flat shipping for a non-empty
    cart). It asks NETS for a QR code. On success it opens a PENDING order and a CREATED
    payment, and remembers the order in the session.
  - `checkQrStatus` is polled by the browser. It asks NETS whether the QR payment went
    through. As intended, the first paid poll finalizes the order, in the order below. As
    written it never does: the stock step calls a function the product model lacks, so the
    poll fails before any write (see "## Findings"). `Nets.Poll` models the intended step and
    `Nets.PollAsWritten` the written one.
    1. check the stock of every line;
    2. write the order items and decrement stock;
    3. mark the order PAID and the payment COMPLETED;
    4. empty the cart and set the session's finalized flag.
- **Orders and payments.** Both tables are kept in memory. Order creation fills in defaults.
  A payment update keeps each field unless a new value is given (SQL `COALESCE`).
- **Stripe.** The Stripe Checkout request is built from the cart: one line per cart line,
  then shipping and tax lines, all in whole cents.
- **Shopping page.** Each listed product shows how much the shopper can still add, given what
  is already in their cart. A search takes precedence over a category, and a category over the
  full listing. As written, only the full listing renders: the search and category queries call
  functions the product model lacks, so both throw (see "## Findings").
- **Guards.** The login and admin middleware, registration validation, and the login redirect
  by role.

Money is in integer cents. The total with 7% tax is an exact rational (`real`) in cents.

## How the model is structured

- **One module per source file.**
  - `CartItem`: models/CartItem.js.
  - `CartController`: controllers/CartController.js.
  - `Nets` and `NetsProperties`: services/nets.js.
  - `Order`, `Payment` and `OrderItem`: the three model files.
  - `Stripe`: services/stripe.js.
  - `ProductController`: controllers/ProductController.js.
  - `App`: app.js.
  - Shared modules: `Pricing` (the total both payment services compute), `Catalog` (the
    products table as a store), `Sessions` (the session object), `JsValues` (JavaScript
    truthiness and `||` on optional fields) and `Http` (response tags).
- **Classes for state the source changes in place.**
  - The session is a `Session` object.
  - The tables are `OrderTable`, `PaymentTable`, `OrderItemTable` and `ProductStore`.
  - The route handlers are methods with `modifies` clauses. Each `ensures` states the whole new
    state.
- **The two NETS handlers.** Each is first a function on a `World` value: the session plus the
  four tables. These are `Nets.Generate` and `Nets.Poll`, and the lemmas are proved about them.
  Then each is a method over the store objects: `Nets.GenerateQrCode` and `Nets.CheckQrStatus`.
  The method's `ensures` says it leaves the stores exactly as the function says. The two
  `for…of` loops of the finalize step are the loops of `Nets.CheckStock` and `Nets.WriteItems`.
- **Outside calls become inputs.**
  - The NETS HTTP answers are `QrResponse` and `StatusResponse`; a request that throws is its
    own case.
  - A database query is its answer. For the shopping page that is `ProductController.QueryResult`.
  - The database clock is a parameter: `orderDate`.
  - Express responses are outcome tags: `Http.Response`, `Nets.GenerateReply`, `Nets.PollReply`
    and `ProductController.ShopPage`.

## Model

| member | source | states |
|---|---|---|
| CartItem.Find | models/CartItem.js:9 | `cart.find` on product id: the index of the first line of that product; none exactly when no line has it |
| CartItem.Subtotal | models/CartItem.js:30-32 | Σ price × quantity, accumulated from the left as `reduce` does; `SubtotalConcat` and `SubtotalUpdate` state how it splits |
| CartItem.FindFrom | models/CartItem.js:9 | the scan from a position on: the first matching index at or after it, or none exactly when no line from there on matches |
| CartItem.Merged | models/CartItem.js:9-21 | an existing line of the product gains exactly `quantity` and keeps its name, price and image; otherwise exactly one line, copied from the product, is appended; no other line changes or moves |
| CartItem.AddItem | models/CartItem.js:4-24 | a cart that is not an array starts empty; the result is the merge-or-append of `Merged` |
| CartItem.MergedKeepsUniqueIds | models/CartItem.js:9-21 | with at most one line per product before, there is at most one after |
| CartItem.MergedTwice | models/CartItem.js:11-12 | adding `a` then `b` of a product is adding `a + b` |
| CartItem.MergedIgnoresStock | models/CartItem.js:4-24 | the product's stock plays no part: there is no cap at the stock |
| CartItem.MergedSubtotal | models/CartItem.js:9-21 | adding `q` raises the cart value by `q` × the line's kept price (or the product's price for a new line) |
| CartItem.GrandTotal | models/CartItem.js:27-33 | 0 for a missing or empty cart, otherwise the sum of price × quantity |
| CartItem.SubtotalConcat | models/CartItem.js:30-32 | the sum over two concatenated carts is the sum of their sums |
| CartItem.SubtotalUpdate | models/CartItem.js:30-32 | replacing one line changes the sum by exactly that line's difference |
| CartItem.QtyInCartUnique | controllers/ProductController.js:39-45 | with unique ids, a product's total quantity in the cart is its one line's quantity, or 0 |
| CartItem.WithQuantity | controllers/CartController.js:55-59 | the first line of the product gets exactly the new quantity, with no clamping; no other line changes; no matching line means no change |
| CartItem.WithQuantityKeepsUniqueIds | controllers/CartController.js:55-59 | a quantity update keeps at most one line per product |
| CartItem.WithQuantityIdempotent | controllers/CartController.js:55-59 | setting the same quantity twice equals setting it once |
| CartItem.WithQuantityThenFind | controllers/CartController.js:55-59 | afterwards the product's line reads the quantity that was set |
| CartItem.Removed | controllers/CartController.js:70 | the result holds exactly the lines of other products |
| CartItem.RemovedConcat | controllers/CartController.js:70 | the filter works line by line, so the kept lines stay in their order |
| CartItem.RemovedIdempotent | controllers/CartController.js:70 | removing twice equals removing once |
| CartItem.RemovedAbsent | controllers/CartController.js:70 | removing a product that is not in the cart changes nothing |
| CartItem.RemovedKeepsUniqueIds | controllers/CartController.js:70 | removal keeps at most one line per product |
| CartController.DefaultQuantity | controllers/CartController.js:10 | `parseInt(quantity) \|\| 1`: never 0; a non-zero number is kept; NaN or 0 becomes 1 (also app.js:176) |
| CartController.AddToCart | controllers/CartController.js:8-30 | an unknown product answers 404 and leaves the session unchanged; otherwise it redirects to /cart and the cart becomes `addItem` of the cart (empty if unset); the cart invariant is kept |
| CartController.ViewCart | controllers/CartController.js:35-44 | shows the cart (empty when unset) and its grand total |
| CartController.UpdateQuantity | controllers/CartController.js:49-62 | an unset cart becomes empty, then the first matching line gets `newQty`; nothing else in the session changes |
| CartController.RemoveItem | controllers/CartController.js:67-73 | with no cart, `filter` throws and nothing changes; otherwise the cart loses exactly that product's lines |
| CartController.ClearCart | controllers/CartController.js:78-81 | the cart is empty afterwards; nothing else changes |
| CartController.CheckoutPage | controllers/CartController.js:86-99 | the `forEach` accumulation equals `calculateGrandTotal` of the session cart |
| Catalog.Decrement | services/nets.js:195 | a product's stock drops by the amount, without clamping at zero; other products and an unknown id are unchanged |
| Catalog.ProductStore.GetById | services/nets.js:183-184 | `rows && rows[0]`: the product with that id, or none exactly when there is none |
| Catalog.ProductStore.DecrementQuantity | services/nets.js:178 | the decrement the finalize step calls, on the products store |
| ProductController.PageFor | controllers/ProductController.js:64-106 | a query error and only a query error redirects (to / for the full listing, else /shopping); rows are shown enriched against the cart, the query echoed only for a search |
| ProductController.PageAsWritten | controllers/ProductController.js:64-106 | as written: a search or a category throws; only the full listing reaches `PageFor` |
| ProductController.AsWrittenOnlyFullListing | controllers/ProductController.js:64-106 | as written the page throws exactly when the trimmed query or the trimmed category is non-blank; the full listing is as intended |
| ProductController.SearchAsWrittenThrows | controllers/ProductController.js:65 | `?q=rice` throws as written, where the intended handler shows an empty page echoing 'rice' |
| Pricing.Total | services/nets.js:25-33 | subtotal × 1.07, plus 500 cents of shipping exactly when the cart is non-empty |
| Pricing.TotalOfEmptyCart | services/nets.js:32 | an empty cart costs nothing and pays no shipping |
| Pricing.TotalExample | services/nets.js:25-33 | 2 × 10.00 + 1 × 5.00 gives a subtotal of 25.00, tax 1.75, shipping 5.00 and a total of 31.75 |
| Pricing.TotalCoversShipping | services/nets.js:25-33 | with no negative price or quantity, the total is at least the shipping |
| Pricing.RoundedTaxCents | services/stripe.js:48 | `Math.round` of the tax in cents: within half a cent of the exact tax |
| Order.NewOrder | models/Order.js:10 | a falsy status is stored as 'PENDING' and a falsy payment method as null; the other fields are as given |
| Order.Lookup | models/Order.js:13-21 | `getById`: a row with that id, or none exactly when no row has it |
| Order.LookupUnique | models/Order.js:13-21 | with distinct ids, `getById` returns the one row with that id |
| Order.WithStatus | models/Order.js:23-30 | only the status of rows with that id changes; other rows and fields are unchanged |
| Order.WithStatusUnknownId | models/Order.js:27-29 | updating an id no row has changes nothing |
| Order.LookupAfterWithStatus | models/Order.js:23-30 | after the update `getById(id)` reads the new status, and every other id reads as before |
| Order.InsertByDate | models/Order.js:59 | inserting into a newest-first list keeps it newest first and adds exactly that row |
| Order.SortByDateDesc | models/Order.js:59 | `ORDER BY orderDate DESC`: newest first, and a permutation of the rows |
| Order.OfUser | models/Order.js:42 | `WHERE userId = ?`: exactly the user's rows, each as often as in the table |
| Order.OrderTable.Create | models/Order.js:4-11 | inserts one row with a fresh id and the defaulted fields; the table keeps distinct ids |
| Order.AppendKeepsTableValid | models/Order.js:4-11 | inserting a row with the next id keeps the ids in range and distinct |
| Order.WithStatusKeepsTableValid | models/Order.js:23-30 | `updateStatus` changes no id, so the ids stay in range and distinct |
| Order.OrderTable.GetById | models/Order.js:13-21 | a row of the table with that id, or none exactly when there is none |
| Order.OrderTable.UpdateStatus | models/Order.js:23-30 | the table becomes `WithStatus` of the old table; ids are unchanged |
| Order.OrderTable.GetAllByUser | models/Order.js:32-46 | only that user's orders, all of them, newest first |
| Order.OrderTable.GetAll | models/Order.js:48-62 | every order, newest first |
| Payment.NewPayment | models/Payment.js:5-15 | an absent or empty provider reference or payer e-mail is stored as null; the other columns are as given |
| Payment.Coalesced | models/Payment.js:17-29 | status, provider_ref and payer_email each take the new value when it is truthy and keep the old one otherwise; no other column changes |
| Payment.UpdatedByOrder | models/Payment.js:17-29 | the coalescing update applies to exactly the rows of that order |
| Payment.UpdateIdempotent | models/Payment.js:20-28 | applying the same update twice equals applying it once |
| Payment.EmptyUpdateNoOp | models/Payment.js:22-28 | an update with every field absent or empty changes nothing |
| Payment.UpdateKeepsAccounting | models/Payment.js:21-24 | amount, currency, provider, order and user never change |
| Payment.UpdatesCompose | models/Payment.js:17-29 | two updates in a row equal one update in which the later given fields win |
| Payment.ByProviderRef | models/Payment.js:31-39 | a row with that provider reference, or none exactly when none has it; a null reference matches nothing |
| Payment.PaymentTable.Create | models/Payment.js:5-15 | inserts one row with a fresh id |
| Payment.AppendKeepsTableValid | models/Payment.js:5-15 | inserting a row with the next id keeps the ids in range and distinct |
| Payment.UpdatedByOrderKeepsTableValid | models/Payment.js:17-29 | `updateByOrder` changes no id, so the ids stay in range and distinct |
| Payment.PaymentTable.UpdateByOrder | models/Payment.js:17-29 | the table becomes `UpdatedByOrder` of the old table |
| Payment.PaymentTable.GetByProviderRef | models/Payment.js:31-39 | at most one row, and it carries the given reference |
| OrderItem.OrderItemTable.Create | models/OrderItem.js:4-10 | appends exactly one item row with the given order, product, quantity and price |
| Nets.FirstShortage | services/nets.js:182-191 | the first line whose product is missing or has less stock than the line's quantity; none exactly when every line is covered |
| Nets.QrAccepted | services/nets.js:58-62 | the QR code is shown only for response code "00", numeric status 1 (strict `===`) and a truthy code |
| Nets.QrFail | services/nets.js:116-128 | the failure page: the response code or 'N.A.', the instruction or '', and the provider's message (or a default) only when the network status is not 0 |
| Nets.Generate | services/nets.js:19-134 | `generateQrCode` on the world: redirects for an empty cart or a failed request, the failure page for a rejected QR, /login without a user, otherwise one order and one payment; `GenerateOutcome` and `GenerateInserts` state what it promises |
| Nets.ResultOf | services/nets.js:153-156 | the status node: `result.data`, else `result`, else the body (see `ResultOfFallbacks`) |
| Nets.ResponseCode | services/nets.js:158 | `response_code \|\| responseCode` |
| Nets.TxnStatus | services/nets.js:159 | `txn_status \|\| txnStatus \|\| status` |
| Nets.IsPaid | services/nets.js:161-163 | paid exactly for code "00" and status 1, "1" or "SUCCESS" |
| Nets.ProviderRef | services/nets.js:200-201 | the first present of rrn, acq_txn_ref, txn_retrieval_ref and the query reference |
| Nets.Finalize | services/nets.js:170-215 | the intended finalize step: a short line fails the order's payments and answers 400; otherwise items, stock, order, payments and session as `PollSuccess` states |
| Nets.Poll | services/nets.js:136-235 | the intended `checkQrStatus` on the world: 400 without a reference, 500 for a failed request, `Finalize` once for a paid pending order, paid false otherwise; see `PollIdempotent`, `FinalizedIsFinal`, `PollNotPaid` |
| Nets.PollAsWritten | services/nets.js:136-235 | `checkQrStatus` as written: the finalize attempt throws at line 178 and only answers paid with no order id; see `AsWrittenNeverFulfils` |
| Nets.ItemsFor | services/nets.js:193-194 | one order item per cart line, in cart order, with the line's product, quantity and price |
| Nets.Decremented | services/nets.js:193-196 | after one decrement per line, each product's stock is its old stock minus its lines' total quantity |
| Nets.GenerateQrCode | services/nets.js:19-134 | leaves the session and tables exactly as `Generate` says and returns its page; the table invariants are kept |
| Nets.CheckStock | services/nets.js:182-191 | the stock loop stops at the first short line, and reads only |
| Nets.WriteItems | services/nets.js:193-196 | the write loop appends `ItemsFor` the cart and leaves the stock `Decremented` by it |
| Nets.FinalizeOrder | services/nets.js:170-215 | leaves the session and tables exactly as `Finalize` says and returns its reply |
| Nets.CompleteOrder | services/nets.js:193-211 | writes `ItemsFor` the cart, leaves the stock `Decremented`, marks the order PAID, completes its payments with the provider reference and finalizes the session |
| Nets.CheckQrStatus | services/nets.js:136-235 | leaves the session and tables exactly as `Poll` says and returns its reply; the table invariants are kept |
| NetsProperties.GenerateOutcome | services/nets.js:19-93 | `generateQrCode` changes something exactly when the cart is non-empty, the QR is accepted (code "00", status 1, a non-empty code) and a user is logged in, and that is exactly when it shows the QR page; the cart invariant and the tables' distinct ids are kept |
| NetsProperties.GenerateInserts | services/nets.js:69-93 | an issued QR code adds exactly one order (PENDING, payment method 'nets', the user, the cart's total, the date) and one payment for it (the next id, the user, provider 'nets', the total, 'SGD', CREATED, the retrieval reference or null, the user's e-mail or null), shows the total with the retrieval reference, and marks that order pending in the session |
| NetsProperties.PollNotPaid | services/nets.js:159-166 | an answer that is not paid changes nothing and returns paid false with no order id |
| NetsProperties.ResultOfFallbacks | services/nets.js:153-157 | the status is read from `result.data`, else `result`, else the body; a null body is never paid |
| NetsProperties.PollShortage | services/nets.js:182-190 | a short line makes the order's payments FAILED and answers 400 naming that line; items, stock, orders and the session are unchanged |
| NetsProperties.PollSuccess | services/nets.js:193-211 | one item per line; each product's stock falls by its line's quantity; the order becomes PAID; its payments become COMPLETED with the first present of rrn, acq_txn_ref, txn_retrieval_ref and the query reference; the cart is emptied, the flag set and the order id returned |
| NetsProperties.PollIdempotent | services/nets.js:169-223 | polling again with the same answer changes nothing more and gives the same reply |
| NetsProperties.FinalizedIsFinal | services/nets.js:216-223 | once finalized, no poll changes anything, and a paid poll returns the last order id |
| NetsProperties.ItemsWrittenOnce | services/nets.js:170 | over two polls, the order items are written at most once |
| NetsProperties.PollKeepsStockNonNegative | services/nets.js:182-196 | with one line per product, no poll takes stock below zero |
| NetsProperties.DuplicateLinesOversell | services/nets.js:182-196 | the per-line check alone lets two lines of one product take stock to -1, so the cart invariant is needed |
| NetsProperties.PollKeepsWorldValid | services/nets.js:169-223 | a poll keeps the cart invariant and the tables' distinct ids |
| NetsProperties.GenerateThenPaidPoll | services/nets.js:77-211 | after a QR code is issued for a cart in stock, the first paid poll turns the new order PAID, writes the cart as its items, empties the cart and returns the order id |
| NetsProperties.AsWrittenNeverFulfils | services/nets.js:178 | as written, no poll writes an item, touches stock or changes an order |
| NetsProperties.AsWrittenNeverFinalizes | services/nets.js:178 | as written, the flag is never set and the pending order stays pending |
| NetsProperties.AsWrittenCounterexample | services/nets.js:178 | a concrete paid poll that the intended code finalizes (order PAID, stock 5 → 3) and the written code does not |
| Stripe.NatToString | services/stripe.js:58 | `String(n)`: decimal digits with no leading zero |
| Stripe.IntToStringRoundTrip | services/stripe.js:58-59 | the stringified ids read back as the same numbers |
| Stripe.IntToStringInjective | services/stripe.js:58-59 | distinct ids give distinct metadata strings |
| Stripe.IntToString | services/stripe.js:58-59 | `String(n)` of the metadata ids: a minus sign for negatives, then digits, that read back as `n` |
| Stripe.ItemLines | services/stripe.js:18-30 | one line per cart line, in order, with its price in cents and its quantity; a nameless line is 'Item' |
| Stripe.RequestLines | services/stripe.js:11-52 | the lines are in this order: cart lines; a 500-cent Shipping line (quantity 1) exactly when the cart is non-empty; a Tax line of the rounded tax (quantity 1) exactly when the tax is positive. Nothing for an empty cart. Always 'sgd' |
| Stripe.CheckoutRequest | services/stripe.js:54-63 | the lines are `RequestLines` of the cart (empty when null). `localOrderId` is the stringified id; `userId` is '' exactly when there is no user or no id, and otherwise the stringified user id |
| Stripe.BuildLines | services/stripe.js:18-52 | the map-then-push construction produces exactly `RequestLines` |
| Stripe.CreateCheckoutSession | services/stripe.js:7-63 | the request built is exactly `CheckoutRequest` |
| Stripe.ChargedRequestLines | services/stripe.js:11-52 | the lines charge subtotal + shipping + the rounded tax when the subtotal is positive |
| Stripe.ChargedItemLines | services/stripe.js:11-30 | the cart lines charge exactly the subtotal |
| Stripe.ChargeMatchesTotal | services/stripe.js:11-52 | with a non-negative subtotal, Stripe charges subtotal + shipping + rounded tax, within half a cent of the NETS total |
| ProductController.TrimStartSpec | controllers/ProductController.js:35-36 | `TrimStart` drops exactly the leading whitespace: the rest is a suffix that does not start with whitespace |
| ProductController.TrimEndSpec | controllers/ProductController.js:35-36 | `TrimEnd` drops exactly the trailing whitespace: the rest is a prefix that does not end with whitespace |
| ProductController.TrimEmpty | controllers/ProductController.js:35-36 | a parameter trims to '' exactly when it is absent or all whitespace |
| ProductController.Trim | controllers/ProductController.js:35-36 | `(x \|\| '').trim()`: a missing parameter is '', then leading and trailing whitespace go (see `TrimStartSpec`, `TrimEndSpec`, `TrimEmpty`) |
| ProductController.SelectListing | controllers/ProductController.js:64-106 | a non-blank query means a search for the trimmed query; otherwise a non-blank category means that category; otherwise everything |
| ProductController.CartQuantities | controllers/ProductController.js:39-45 | the `cartQty` loop: each product maps to the total quantity of its lines, and only products in the cart have an entry |
| ProductController.EnrichItem | controllers/ProductController.js:50-58 | `availableQty` is max(stock − used, 0): never negative. `isAvailable` holds exactly when the product is active and `availableQty` > 0. The product's own fields are kept |
| ProductController.Enriched | controllers/ProductController.js:48-61 | one enriched item per listed product, in order; a null list gives none |
| ProductController.EnrichProducts | controllers/ProductController.js:48-61 | the `enrichProducts` closure over the `cartQty` map: one item per listed product; `EnrichProductsAgrees` proves it equal to `Enriched` |
| ProductController.EnrichProductsAgrees | controllers/ProductController.js:39-61 | enriching through the `cartQty` map that the loop built gives `Enriched` against the cart |
| ProductController.AvailableWithinStock | controllers/ProductController.js:53 | with non-negative stock and cart quantities, `availableQty` never exceeds the stock |
| ProductController.OfferedMeansInStock | controllers/ProductController.js:53-58 | a product shown as available is active and has stock for the cart's units plus one |
| ProductController.Shopping | controllers/ProductController.js:34-107 | the handler with the search and category queries supplied: follows `SelectListing`, then shows `PageFor` the chosen query's answer. A query error redirects to / for the full listing and to /shopping otherwise. Rows are shown enriched against the cart (through the `cartQty` loop), with the query echoed only for a search |
| ProductController.AddProductData | controllers/ProductController.js:133-139 | missing quantity and price become 0, no upload means no image, an empty category becomes null |
| ProductController.UpdateProductData | controllers/ProductController.js:170-176 | as for adding, except that without an upload the existing image is kept |
| ProductController.UploadedFormsAgree | controllers/ProductController.js:133-176 | with an upload, adding and updating write the same row |
| App.CheckAuthenticated | app.js:46-50 | passes exactly when a user is logged in, else redirects to /login |
| App.CheckAdmin | app.js:52-56 | passes exactly for role 'admin' (case-sensitive); redirects to /shopping otherwise; throws without a user |
| App.AdminRouteGuard | app.js:90 | behind `checkAuthenticated`, `checkAdmin` never throws: visitors go to /login, non-admins to /shopping, admins pass |
| App.ValidateRegistration | app.js:61-74 | 400 exactly when a field is missing. Otherwise it redirects to /register exactly when the password is shorter than 6, and passes on exactly when both checks pass |
| App.PasswordLengthBoundary | app.js:68 | six characters pass, five do not |
| App.Login | app.js:145-169 | missing fields or no match go back to /login and leave the session as it was; a match logs in and goes to /shopping for role 'user' and to /inventory otherwise |
| App.LoginThenGuards | app.js:158-163 | a user who just logged in passes `checkAuthenticated`, and passes `checkAdmin` exactly when an admin |

## Left out

- The HTTP calls to NETS (services/nets.js:44-53, 146-151) are not modelled. Their answers are
  inputs, and a call that throws is the `QrRequestFailed` / `StatusRequestFailed` case.
  services/paypal.js is not part of this model.
- The Stripe SDK call and webhook verification (services/stripe.js:3-5, 54-72) are not
  modelled. The model stops at the request object.
- Rendering, flash messages, `console` logging, and the view-only fields (`courseInitId`,
  `webhookUrl`, the API keys) are not modelled.
- Database errors are not modelled: the `err` branches that answer 500 or redirect in
  `addToCart`, `addProduct` and `updateProduct`, and the callbacks that throw in app.js. The
  exception is `shopping`, whose query error is `QueryError`.
- models/Product.js, models/User.js and models/RefundRequest.js are not part of this model.
  Products are only the `ProductStore` map. Their absence from models/Product.js is what the
  findings rest on: it defines no `decrementQuantity`, `search` or `getByCategory`. Users are only the login's `found` argument.
- Routes whose handler does not exist are not modelled: `ProductController.getProductForCart`
  (app.js:178), `ProductController.deleteProduct` (app.js:111) and `CartController.placeOrder`.
  The add-to-cart quantity default of app.js:176 is the same expression as
  controllers/CartController.js:10, modelled once as `CartController.DefaultQuantity`.
- The SQL JOIN columns in `getAll` and `getAllByUser` are not modelled. Row order among equal
  `orderDate` values is not fixed either: `SortByDateDesc` is one valid order.
- Order.OrderTable.GetAll: returns each order once. The `LEFT JOIN payments` of
  models/Order.js:58 returns an order once per payment row of that order (and once when it has
  none), so an order with two payments comes back twice. The payments table is not an input of
  the order queries. The modelled flows create exactly one payment per order
  (`NetsProperties.GenerateInserts`), and for such a table the two agree.
- Order.OrderTable.GetAllByUser: returns each of the user's orders once. The `LEFT JOIN payments`
  of models/Order.js:41 repeats an order once per payment row, as for `GetAll`.
- Concurrency is not modelled: no racing polls, no webhooks, no transactions.
- An exception in the middle of finalizing (services/nets.js:213-215) is not modelled beyond
  the one in the findings. The model promises no rollback.
- Floating point is not modelled. Totals are exact rationals in cents, so `toFixed(2)`
  (services/nets.js:35) is not modelled. The model does not claim that a JavaScript
  double-precision computation equals the exact amount.
- CartItem.Removed: its `ensures` states membership only. The kept order is stated by
  `RemovedConcat`.
- Nets.FirstShortage: JavaScript compares `Number(prod.quantity)` with `Number(it.quantity)`.
  The model compares integers, so a non-numeric quantity (NaN) is not modelled.
- CartController.UpdateQuantity: `parseInt` of a non-numeric quantity is NaN, which the source
  stores in the line. The model takes an integer.
- ProductController.Shopping: the corrected handler. It takes the rows of the search and
  category queries as inputs, although the product model defines neither query; as written
  those branches throw, which `PageAsWritten` models.
- ProductController.TrimStart: only ASCII whitespace is trimmed. `String.prototype.trim` also
  removes Unicode space separators.
- App.ValidateRegistration: the length is counted in Unicode code points. JavaScript counts
  UTF-16 code units, so the two differ above U+FFFF.
- The model follows the code here:
  - `updateQuantity` stores `newQty` as given, with no clamp at 1 or at the stock;
  - after a stock shortage only the payment is set FAILED and the order stays PENDING.
- Each line's image and name are kept as snapshots, per line. JavaScript object aliasing
  between the cart and the request body is not modelled.

## Findings

| source | as written | input that shows it | evidently intended | confidence | as-written member | corrected member |
|---|---|---|---|---|---|---|
| services/nets.js:178 | The finalize step runs `util.promisify(ProductModel.decrementQuantity)`, but models/Product.js defines no `decrementQuantity`. `promisify(undefined)` throws a TypeError before the first write. The catch at lines 213-215 only logs it, so the poll answers `{paid: true, orderId: null}` and writes nothing. Every later poll repeats this, so a paid NETS order never becomes PAID, no items are written and stock never moves | a paid status answer for a session with a pending order, a non-empty cart and a logged-in user (see `AsWrittenCounterexample`: order 1, 2 × product 7 with stock 5) | decrement each product's stock by its line's quantity, then mark the order PAID and the payment COMPLETED, and clear the cart | high (a missing function is plain in the source), not executed | NetsProperties.AsWrittenCounterexample | NetsProperties.PollSuccess |
| controllers/ProductController.js:65 | The search branch calls `Product.search` (line 65) and the category branch `Product.getByCategory` (line 81), but models/Product.js defines neither. Calling `undefined` throws a TypeError before any query runs and before any page is rendered, so every non-blank `q` or `category` fails | `?q=rice` (see `SearchAsWrittenThrows`); any non-blank category likewise | query the products by name or by category and render them enriched, with the query echoed for a search | high (the missing functions are plain in the source), not executed | ProductController.SearchAsWrittenThrows | ProductController.Shopping |
