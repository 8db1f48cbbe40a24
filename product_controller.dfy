/**
 * The shopping page and the product forms (controllers/ProductController.js): how much of each
 * product the shopper can still add given what is already in their cart, which listing a request
 * asks for, and the rows the add and update forms write.
 */
module ProductController {
  import opened Wrappers
  import opened JsValues
  import opened Catalog
  import opened CartItem

  // ---------------------------------------------------------------------------------------
  // Query parameters
  // ---------------------------------------------------------------------------------------

  /** The ASCII whitespace that `String.prototype.trim` removes. */
  predicate IsSpace(c: char) {
    c == ' ' || c == '\t' || c == '\n' || c == '\r' || c == '\U{000B}' || c == '\U{000C}'
  }

  function TrimStart(s: string): string {
    if s != [] && IsSpace(s[0]) then TrimStart(s[1..]) else s
  }

  function TrimEnd(s: string): string {
    if s != [] && IsSpace(s[|s| - 1]) then TrimEnd(s[..|s| - 1]) else s
  }

  /** `TrimStart` drops exactly the leading whitespace: what is left is a suffix that starts with none. */
  lemma {:induction false} TrimStartSpec(s: string)
    ensures var r := TrimStart(s);
      && |r| <= |s| && r == s[|s| - |r|..]
      && (r == [] || !IsSpace(r[0]))
      && (forall k | 0 <= k < |s| - |r| :: IsSpace(s[k]))
  {
    if s != [] && IsSpace(s[0]) {
      TrimStartSpec(s[1..]);
      var r := TrimStart(s);
      assert s[1..][|s| - 1 - |r|..] == s[|s| - |r|..];
      forall k | 0 <= k < |s| - |r| ensures IsSpace(s[k]) {
        if k > 0 { assert s[k] == s[1..][k - 1]; }
      }
    }
  }

  /** `TrimEnd` drops exactly the trailing whitespace: what is left is a prefix that ends with none. */
  lemma {:induction false} TrimEndSpec(s: string)
    ensures var r := TrimEnd(s);
      && |r| <= |s| && r == s[..|r|]
      && (r == [] || !IsSpace(r[|r| - 1]))
      && (forall k | |r| <= k < |s| :: IsSpace(s[k]))
  {
    if s != [] && IsSpace(s[|s| - 1]) {
      TrimEndSpec(s[..|s| - 1]);
      var r := TrimEnd(s);
      assert s[..|s| - 1][..|r|] == s[..|r|];
      forall k | |r| <= k < |s| ensures IsSpace(s[k]) {
        if k < |s| - 1 { assert s[k] == s[..|s| - 1][k]; }
      }
    }
  }

  /** `(x || '').trim()`. */
  function Trim(s: Option<string>): string {
    TrimEnd(TrimStart(s.GetOr("")))
  }

  /** A parameter trims to nothing exactly when it is absent or all whitespace. */
  lemma TrimEmpty(s: Option<string>)
    ensures Trim(s) == "" <==> forall k | 0 <= k < |s.GetOr("")| :: IsSpace(s.GetOr("")[k])
  {
    var x := s.GetOr("");
    TrimStartSpec(x);
    TrimEndSpec(TrimStart(x));
  }

  /** The listing a request asks for. */
  datatype Listing = Search(q: string) | InCategory(category: string) | AllProducts

  /** A search beats a category filter, which beats the full listing. */
  function SelectListing(q: Option<string>, category: Option<string>): (r: Listing)
    ensures r.Search? <==> Trim(q) != ""
    ensures r.Search? ==> r.q == Trim(q)
    ensures r.InCategory? <==> Trim(q) == "" && Trim(category) != ""
    ensures r.InCategory? ==> r.category == Trim(category)
  {
    var q := Trim(q);
    var category := Trim(category);
    if |q| > 0 then Search(q) else if |category| > 0 then InCategory(category) else AllProducts
  }

  // ---------------------------------------------------------------------------------------
  // Availability
  // ---------------------------------------------------------------------------------------

  /** `cartQty[pid] || 0`. */
  function Used(cartQty: map<int, int>, pid: int): int {
    if pid in cartQty then cartQty[pid] else 0
  }

  /** The `cartQty` loop: for each product, the total quantity of its lines in the cart. */
  method CartQuantities(cart: seq<Line>) returns (cartQty: map<int, int>)
    ensures forall pid :: Used(cartQty, pid) == QtyInCart(cart, pid)
    ensures forall pid :: pid in cartQty <==> InCart(cart, pid)
  {
    cartQty := map[];
    var i := 0;
    while i < |cart|
      invariant 0 <= i <= |cart|
      invariant forall pid :: Used(cartQty, pid) == QtyInCart(cart[..i], pid)
      invariant forall pid :: pid in cartQty <==> InCart(cart[..i], pid)
    {
      assert cart[..i + 1][..i] == cart[..i];
      var pid := cart[i].productId;
      cartQty := cartQty[pid := Used(cartQty, pid) + cart[i].quantity];
      i := i + 1;
      assert forall p :: InCart(cart[..i], p) <==> InCart(cart[..i - 1], p) || p == pid by {
        forall p ensures InCart(cart[..i], p) <==> InCart(cart[..i - 1], p) || p == pid {
          if InCart(cart[..i], p) {
            var j :| 0 <= j < i && cart[..i][j].productId == p;
            if j < i - 1 { assert cart[..i - 1][j].productId == p; }
          }
          if p == pid { assert cart[..i][i - 1].productId == p; }
          if InCart(cart[..i - 1], p) {
            var j :| 0 <= j < i - 1 && cart[..i - 1][j].productId == p;
            assert cart[..i][j].productId == p;
          }
        }
      }
    }
    assert cart[..i] == cart;
  }

  /** A product as the shopping page shows it. */
  datatype ShopItem = ShopItem(product: Product, availableQty: int, isAvailable: bool)

  function Max(a: int, b: int): int {
    if a >= b then a else b
  }

  /** One product given `used` units of it already in the cart. */
  function EnrichItem(p: Product, used: int): (r: ShopItem)
    ensures r.product == p
    ensures r.availableQty >= 0
    ensures r.availableQty == 0 || r.availableQty == p.quantity - used
    ensures r.availableQty >= p.quantity - used
    ensures r.isAvailable <==> p.isActive && r.availableQty > 0
  {
    var remaining := Max(p.quantity - used, 0);
    ShopItem(p, remaining, p.isActive && remaining > 0)
  }

  /** `enrichProducts`: every listed product, in order, with what is left of it after the cart. */
  function Enriched(products: Option<seq<Product>>, cart: seq<Line>): (r: seq<ShopItem>)
    ensures |r| == |products.GetOr([])|
    ensures forall k | 0 <= k < |r| ::
      r[k] == EnrichItem(products.value[k], QtyInCart(cart, products.value[k].id))
  {
    var ps := products.GetOr([]);
    seq(|ps|, k requires 0 <= k < |ps| => EnrichItem(ps[k], QtyInCart(cart, ps[k].id)))
  }

  /** The `enrichProducts` closure over the `cartQty` map that the shopping handler builds. */
  function EnrichProducts(products: Option<seq<Product>>, cartQty: map<int, int>): (r: seq<ShopItem>)
    ensures |r| == |products.GetOr([])|
  {
    var ps := products.GetOr([]);
    seq(|ps|, k requires 0 <= k < |ps| => EnrichItem(ps[k], Used(cartQty, ps[k].id)))
  }

  /** Enriching through the `cartQty` map is enriching by the cart's quantities. */
  lemma EnrichProductsAgrees(products: Option<seq<Product>>, cartQty: map<int, int>, cart: seq<Line>)
    requires forall pid :: Used(cartQty, pid) == QtyInCart(cart, pid)
    ensures EnrichProducts(products, cartQty) == Enriched(products, cart)
  {
    var ps := products.GetOr([]);
    var a := EnrichProducts(products, cartQty);
    var e := Enriched(products, cart);
    forall k | 0 <= k < |ps| ensures a[k] == e[k] {
      assert Used(cartQty, ps[k].id) == QtyInCart(cart, ps[k].id);
    }
  }

  /** With no negative quantity in the cart, the shopper is never offered more than the stock. */
  lemma AvailableWithinStock(p: Product, used: int)
    requires p.quantity >= 0 && used >= 0
    ensures 0 <= EnrichItem(p, used).availableQty <= p.quantity
  {
  }

  /**
   * A product that is offered can be added once more and still pass the checkout's stock check:
   * `availableQty > 0` means the stock covers the cart's units plus one.
   */
  lemma OfferedMeansInStock(p: Product, cart: seq<Line>)
    requires EnrichItem(p, QtyInCart(cart, p.id)).isAvailable
    ensures p.isActive && QtyInCart(cart, p.id) + 1 <= p.quantity
  {
  }

  // ---------------------------------------------------------------------------------------
  // The page
  // ---------------------------------------------------------------------------------------

  /** What the chosen query returned: a database error, or rows (possibly null). */
  datatype QueryResult = QueryError | Rows(products: Option<seq<Product>>)

  datatype ShopPage =
    | Page(items: seq<ShopItem>, query: string)
    | ShopRedirect(path: string)
    | ShopThrows                                     // a TypeError escapes the handler

  /**
   * The page once the chosen query has answered: a query error redirects to / for the full
   * listing and to /shopping otherwise; rows are shown enriched against the cart, with the
   * query echoed only for a search.
   */
  function PageFor(listing: Listing, cart: seq<Line>, rows: QueryResult): (r: ShopPage)
    ensures r.ShopRedirect? <==> rows.QueryError?
    ensures r.ShopRedirect? ==> r.path == if listing.AllProducts? then "/" else "/shopping"
    ensures r.Page? ==> r.items == Enriched(rows.products, cart)
    ensures r.Page? ==> r.query == if listing.Search? then listing.q else ""
  {
    if rows.QueryError? then ShopRedirect(if listing.AllProducts? then "/" else "/shopping")
    else Page(Enriched(rows.products, cart), if listing.Search? then listing.q else "")
  }

  /**
   * `shopping` with the search and category queries supplied: `rows` is the answer of the
   * query that `SelectListing` chose.
   */
  method Shopping(cart: Option<seq<Line>>, q: Option<string>, category: Option<string>, rows: QueryResult)
    returns (listing: Listing, page: ShopPage)
    ensures listing == SelectListing(q, category)
    ensures page == PageFor(listing, cart.GetOr([]), rows)
    ensures rows.QueryError? ==> page == ShopRedirect(if listing.AllProducts? then "/" else "/shopping")
    ensures rows.Rows? ==>
      page == Page(Enriched(rows.products, cart.GetOr([])), if listing.Search? then listing.q else "")
  {
    listing := SelectListing(q, category);
    if rows.QueryError? {
      page := ShopRedirect(if listing.AllProducts? then "/" else "/shopping");
      return;
    }
    var c := cart.GetOr([]);
    var cartQty := CartQuantities(c);
    var items := EnrichProducts(rows.products, cartQty);
    EnrichProductsAgrees(rows.products, cartQty, c);
    page := Page(items, if listing.Search? then listing.q else "");
  }

  /**
   * `shopping` as written: the search branch calls `Product.search` and the category branch
   * `Product.getByCategory`, and the product model defines neither, so both throw before any
   * query runs. Only the full listing reaches a query.
   */
  function PageAsWritten(listing: Listing, cart: seq<Line>, rows: QueryResult): ShopPage {
    if listing.AllProducts? then PageFor(listing, cart, rows) else ShopThrows
  }

  /** As written, every search and every category filter throws; the full listing is as intended. */
  lemma AsWrittenOnlyFullListing(q: Option<string>, category: Option<string>, cart: seq<Line>, rows: QueryResult)
    ensures var listing := SelectListing(q, category);
      && (PageAsWritten(listing, cart, rows) == ShopThrows <==> Trim(q) != "" || Trim(category) != "")
      && (listing.AllProducts? ==> PageAsWritten(listing, cart, rows) == PageFor(listing, cart, rows))
  {
  }

  /** A concrete search: `?q=rice` with an empty cart and an empty answer throws as written. */
  lemma SearchAsWrittenThrows()
    ensures var listing := SelectListing(Some("rice"), None);
      && PageAsWritten(listing, [], Rows(Some([]))) == ShopThrows
      && PageFor(listing, [], Rows(Some([]))) == Page([], "rice")
  {
    assert !IsSpace('r') && !IsSpace('e');
    assert TrimStart("rice") == "rice";
    assert TrimEnd("rice") == "rice";
  }

  // ---------------------------------------------------------------------------------------
  // The product forms
  // ---------------------------------------------------------------------------------------

  /** The submitted form: `body.name`, `body.quantity`, `body.price`, the upload, `body.category`, `body.existingImage`. */
  datatype ProductForm = ProductForm(
    name: Option<string>, quantity: Option<int>, price: Option<int>, file: Option<string>,
    category: Option<string>, existingImage: Option<string>)

  /** The row passed to `Product.add` / `Product.update`. */
  datatype ProductData = ProductData(
    productName: Option<string>, quantity: int, price: int, image: Option<string>, category: Option<string>)

  /** `addProduct`: a missing quantity or price is 0, no upload means no image, an empty category is null. */
  function AddProductData(f: ProductForm): (r: ProductData)
    ensures r.quantity == f.quantity.GetOr(0) && r.price == f.price.GetOr(0)
    ensures r.image == f.file
    ensures r.category == (if Present(f.category) then f.category else None)
    ensures r.productName == f.name
  {
    ProductData(f.name, f.quantity.GetOr(0), f.price.GetOr(0), f.file, OrNull(f.category))
  }

  /** `updateProduct`: as `addProduct`, except that without an upload the existing image is kept. */
  function UpdateProductData(f: ProductForm): (r: ProductData)
    ensures r.image == if f.file.Some? then f.file else f.existingImage
    ensures r.(image := None) == AddProductData(f).(image := None)
  {
    ProductData(f.name, f.quantity.GetOr(0), f.price.GetOr(0),
                if f.file.Some? then f.file else f.existingImage, OrNull(f.category))
  }

  /** With an upload, adding and updating write the same row. */
  lemma UploadedFormsAgree(f: ProductForm)
    requires f.file.Some?
    ensures UpdateProductData(f) == AddProductData(f)
  {
  }
}
