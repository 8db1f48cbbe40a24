/**
 * The session cart (models/CartItem.js): an ordered sequence of lines, each a snapshot of
 * a product taken when it was first added. Prices are integer cents.
 */
module CartItem {
  import opened Wrappers
  import opened Catalog

  datatype Line = Line(productId: int, productName: string, price: int, quantity: int, image: Option<string>)

  /** price × quantity of one line. */
  function Amount(l: Line): int {
    l.price * l.quantity
  }

  /** The cart invariant: at most one line per product. */
  predicate UniqueIds(cart: seq<Line>) {
    forall i, j | 0 <= i < j < |cart| :: cart[i].productId != cart[j].productId
  }

  predicate InCart(cart: seq<Line>, pid: int) {
    exists i | 0 <= i < |cart| :: cart[i].productId == pid
  }

  /** Two carts with the same products in the same positions. */
  predicate SameIds(a: seq<Line>, b: seq<Line>) {
    |a| == |b| && forall k | 0 <= k < |a| :: a[k].productId == b[k].productId
  }

  /** Σ price × quantity, accumulated from the left as `reduce` does. */
  function Subtotal(cart: seq<Line>): int {
    if cart == [] then 0 else Subtotal(cart[..|cart| - 1]) + Amount(cart[|cart| - 1])
  }

  /** Σ quantity over the lines of product `pid`, accumulated from the left. */
  function QtyInCart(cart: seq<Line>, pid: int): int {
    if cart == [] then 0
    else
      var last := cart[|cart| - 1];
      QtyInCart(cart[..|cart| - 1], pid) + (if last.productId == pid then last.quantity else 0)
  }

  /** `cart.find(item => item.productId === pid)`, as the index of the first matching line. */
  function Find(cart: seq<Line>, pid: int): (r: Option<nat>)
    ensures r.Some? ==> r.value < |cart| && cart[r.value].productId == pid
    ensures r.Some? ==> forall k | 0 <= k < r.value :: cart[k].productId != pid
    ensures r.None? <==> !InCart(cart, pid)
  {
    FindFrom(cart, pid, 0)
  }

  /** The scan behind `find`, from position `j` on. */
  function FindFrom(cart: seq<Line>, pid: int, j: nat): (r: Option<nat>)
    requires j <= |cart|
    ensures r.Some? ==> j <= r.value < |cart| && cart[r.value].productId == pid
    ensures r.Some? ==> forall k | j <= k < r.value :: cart[k].productId != pid
    ensures r.None? ==> forall k | j <= k < |cart| :: cart[k].productId != pid
    decreases |cart| - j
  {
    if j == |cart| then None
    else if cart[j].productId == pid then Some(j)
    else FindFrom(cart, pid, j + 1)
  }

  function NewLine(product: Product, quantity: int): Line {
    Line(product.id, product.productName, product.price, quantity, product.image)
  }

  /**
   * The cart after `addItem(cart, product, quantity)`: the first line of that product gains
   * exactly `quantity` and keeps its name, price and image snapshot; with no such line,
   * one new line is appended at the end. Nothing caps the quantity at the stock.
   */
  function Merged(cart: seq<Line>, product: Product, quantity: int): (r: seq<Line>)
    ensures |cart| <= |r| && SameIds(cart, r[..|cart|])
    ensures match Find(cart, product.id)
      case Some(i) =>
        && |r| == |cart|
        && r[i] == cart[i].(quantity := cart[i].quantity + quantity)
        && forall k | 0 <= k < |cart| && k != i :: r[k] == cart[k]
      case None =>
        && |r| == |cart| + 1
        && r[..|cart|] == cart
        && r[|cart|] == Line(product.id, product.productName, product.price, quantity, product.image)
  {
    match Find(cart, product.id)
    case Some(i) => cart[i := cart[i].(quantity := cart[i].quantity + quantity)]
    case None => cart + [NewLine(product, quantity)]
  }

  /**
   * `addItem`: a cart that is not an array is replaced by an empty one; then the existing
   * line is updated in place or a new line is pushed, and the cart is returned.
   */
  method AddItem(cart: Option<seq<Line>>, product: Product, quantity: int) returns (r: seq<Line>)
    ensures r == Merged(cart.GetOr([]), product, quantity)
  {
    r := if cart.Some? then cart.value else [];
    var existing := Find(r, product.id);
    if existing.Some? {
      var i := existing.value;
      r := r[i := r[i].(quantity := r[i].quantity + quantity)];
    } else {
      r := r + [NewLine(product, quantity)];
    }
  }

  /** `calculateGrandTotal`: 0 for a cart that is not an array, otherwise Σ price × quantity. */
  function GrandTotal(cart: Option<seq<Line>>): (r: int)
    ensures cart.None? || cart == Some([]) ==> r == 0
    ensures cart.Some? ==> r == Subtotal(cart.value)
  {
    if cart.Some? then Subtotal(cart.value) else 0
  }

  /**
   * The cart after `updateQuantity`: the first line of product `pid` gets quantity exactly
   * `quantity` (no clamping); every other line, and a cart without such a line, is unchanged.
   */
  function WithQuantity(cart: seq<Line>, pid: int, quantity: int): (r: seq<Line>)
    ensures SameIds(cart, r)
    ensures match Find(cart, pid)
      case Some(i) =>
        && r[i] == cart[i].(quantity := quantity)
        && forall k | 0 <= k < |cart| && k != i :: r[k] == cart[k]
      case None => r == cart
  {
    match Find(cart, pid)
    case Some(i) => cart[i := cart[i].(quantity := quantity)]
    case None => cart
  }

  /** The cart after `removeItem`: `cart.filter(i => i.productId !== pid)`. */
  function Removed(cart: seq<Line>, pid: int): (r: seq<Line>)
    ensures |r| <= |cart|
    ensures forall l :: l in r <==> l in cart && l.productId != pid
  {
    if cart == [] then []
    else (if cart[0].productId == pid then [] else [cart[0]]) + Removed(cart[1..], pid)
  }

  // ---------------------------------------------------------------------------------------
  // Properties of the cart operations
  // ---------------------------------------------------------------------------------------

  /** `find` looks only at product ids. */
  lemma FindSameIds(a: seq<Line>, b: seq<Line>, pid: int)
    requires SameIds(a, b)
    ensures Find(a, pid) == Find(b, pid)
  {
    if InCart(a, pid) {
      var i :| 0 <= i < |a| && a[i].productId == pid;
      assert b[i].productId == pid;
    }
    if InCart(b, pid) {
      var i :| 0 <= i < |b| && b[i].productId == pid;
      assert a[i].productId == pid;
    }
  }

  lemma UniqueIdsOfSameIds(a: seq<Line>, b: seq<Line>)
    requires SameIds(a, b) && UniqueIds(a)
    ensures UniqueIds(b)
  {
    forall i, j | 0 <= i < j < |b| ensures b[i].productId != b[j].productId {
      assert a[i].productId != a[j].productId;
    }
  }

  /** Merging or appending keeps at most one line per product. */
  lemma MergedKeepsUniqueIds(cart: seq<Line>, product: Product, quantity: int)
    requires UniqueIds(cart)
    ensures UniqueIds(Merged(cart, product, quantity))
  {
    var r := Merged(cart, product, quantity);
    match Find(cart, product.id)
    case Some(i) =>
      UniqueIdsOfSameIds(cart, r);
    case None =>
      forall i, j | 0 <= i < j < |r| ensures r[i].productId != r[j].productId {
        if j < |cart| {
          assert r[i] == cart[i] && r[j] == cart[j];
        } else {
          assert r[i] == cart[i];
        }
      }
  }

  /** Adding a product twice gives one line holding both quantities, as adding the sum once does. */
  lemma MergedTwice(cart: seq<Line>, product: Product, a: int, b: int)
    ensures Merged(Merged(cart, product, a), product, b) == Merged(cart, product, a + b)
  {
    match Find(cart, product.id)
    case Some(_) => MergedTwiceFound(cart, product, a, b);
    case None => MergedTwiceNew(cart, product, a, b);
  }

  lemma MergedTwiceFound(cart: seq<Line>, product: Product, a: int, b: int)
    requires Find(cart, product.id).Some?
    ensures Merged(Merged(cart, product, a), product, b) == Merged(cart, product, a + b)
  {
    var once := Merged(cart, product, a);
    assert once[..|cart|] == once;
    FindSameIds(cart, once, product.id);
  }

  lemma MergedTwiceNew(cart: seq<Line>, product: Product, a: int, b: int)
    requires Find(cart, product.id).None?
    ensures Merged(Merged(cart, product, a), product, b) == Merged(cart, product, a + b)
  {
    var n := |cart|;
    var once := cart + [NewLine(product, a)];
    assert Merged(cart, product, a) == once;
    forall k | 0 <= k < n ensures once[k].productId != product.id {
      assert once[k] == cart[k];
    }
    FindFirst(once, product.id, n);
    assert once[n := once[n].(quantity := once[n].quantity + b)] == cart + [NewLine(product, a + b)];
  }

  /** `Find` is the first index holding the product. */
  lemma FindFirst(cart: seq<Line>, pid: int, i: nat)
    requires i < |cart| && cart[i].productId == pid
    requires forall k | 0 <= k < i :: cart[k].productId != pid
    ensures Find(cart, pid).Some? && Find(cart, pid).value == i
  {
    assert InCart(cart, pid);
  }

  /** The stock of the product plays no part in `addItem`: there is no stock cap. */
  lemma MergedIgnoresStock(cart: seq<Line>, product: Product, quantity: int, stock: int)
    ensures Merged(cart, product.(quantity := stock), quantity) == Merged(cart, product, quantity)
  {
  }

  /** Σ over a concatenation is the sum of the Σ's. */
  lemma {:induction false} SubtotalConcat(a: seq<Line>, b: seq<Line>)
    ensures Subtotal(a + b) == Subtotal(a) + Subtotal(b)
    decreases |b|
  {
    if b == [] {
      assert a + b == a;
    } else {
      var b' := b[..|b| - 1];
      assert (a + b)[..|a + b| - 1] == a + b';
      SubtotalConcat(a, b');
    }
  }

  /** Replacing one line changes Σ by the difference of the two lines' amounts. */
  lemma SubtotalUpdate(cart: seq<Line>, i: nat, x: Line)
    requires i < |cart|
    ensures Subtotal(cart[i := x]) == Subtotal(cart) - Amount(cart[i]) + Amount(x)
  {
    var pre, post := cart[..i], cart[i + 1..];
    assert cart == pre + [cart[i]] + post;
    assert cart[i := x] == pre + [x] + post;
    SubtotalConcat(pre + [cart[i]], post);
    SubtotalConcat(pre + [x], post);
    SubtotalConcat(pre, [cart[i]]);
    SubtotalConcat(pre, [x]);
    assert Subtotal([x]) == Amount(x) by { assert [x][..0] == []; }
    assert Subtotal([cart[i]]) == Amount(cart[i]) by { assert [cart[i]][..0] == []; }
  }

  /**
   * `addItem` raises the grand total by `quantity` times the unit price of the line that
   * received it: the snapshot price of the merged line, or the product's price for a new line.
   */
  lemma MergedSubtotal(cart: seq<Line>, product: Product, quantity: int)
    ensures Subtotal(Merged(cart, product, quantity)) == Subtotal(cart) + quantity *
      (match Find(cart, product.id) case Some(i) => cart[i].price case None => product.price)
  {
    var r := Merged(cart, product, quantity);
    match Find(cart, product.id)
    case Some(i) =>
      var x := cart[i];
      var y := x.(quantity := x.quantity + quantity);
      SubtotalUpdate(cart, i, y);
      assert r == cart[i := y];
      AmountOfMoreUnits(x, quantity);
    case None =>
      assert r[..|r| - 1] == cart;
      assert r[|r| - 1] == NewLine(product, quantity);
      assert Amount(NewLine(product, quantity)) == quantity * product.price;
  }

  lemma AmountOfMoreUnits(x: Line, q: int)
    ensures Amount(x.(quantity := x.quantity + q)) == Amount(x) + q * x.price
  {
    assert x.price * (x.quantity + q) == x.price * x.quantity + x.price * q;
  }

  /** With at most one line per product, Σ quantity for a product is that line's quantity. */
  lemma {:induction false} QtyInCartUnique(cart: seq<Line>, pid: int)
    requires UniqueIds(cart)
    ensures QtyInCart(cart, pid) == match Find(cart, pid) case Some(i) => cart[i].quantity case None => 0
  {
    if cart != [] {
      var init := cart[..|cart| - 1];
      assert UniqueIds(init);
      QtyInCartUnique(init, pid);
      FindPrefix(cart, pid);
    }
  }

  /** How `find` on a cart relates to `find` on the cart without its last line. */
  lemma FindPrefix(cart: seq<Line>, pid: int)
    requires cart != [] && UniqueIds(cart)
    ensures var init := cart[..|cart| - 1];
      Find(cart, pid) == if cart[|cart| - 1].productId == pid then Some(|cart| - 1) else Find(init, pid)
  {
    var init := cart[..|cart| - 1];
    if cart[|cart| - 1].productId == pid {
      assert !InCart(init, pid) by {
        forall i | 0 <= i < |init| ensures init[i].productId != pid {
          assert init[i] == cart[i];
        }
      }
    } else {
      if InCart(cart, pid) {
        var i :| 0 <= i < |cart| && cart[i].productId == pid;
        assert init[i].productId == pid;
      }
      if InCart(init, pid) {
        var i :| 0 <= i < |init| && init[i].productId == pid;
        assert cart[i].productId == pid;
      }
      match Find(cart, pid)
      case None =>
      case Some(k) =>
        assert init[k] == cart[k];
    }
  }

  /** `updateQuantity` keeps every product id in place, so it keeps the cart invariant. */
  lemma WithQuantityKeepsUniqueIds(cart: seq<Line>, pid: int, quantity: int)
    requires UniqueIds(cart)
    ensures UniqueIds(WithQuantity(cart, pid, quantity))
  {
    UniqueIdsOfSameIds(cart, WithQuantity(cart, pid, quantity));
  }

  /** Setting the same quantity twice is setting it once. */
  lemma WithQuantityIdempotent(cart: seq<Line>, pid: int, quantity: int)
    ensures WithQuantity(WithQuantity(cart, pid, quantity), pid, quantity) == WithQuantity(cart, pid, quantity)
  {
    FindSameIds(cart, WithQuantity(cart, pid, quantity), pid);
  }

  /** The first line of the product reads back the quantity that was set. */
  lemma WithQuantityThenFind(cart: seq<Line>, pid: int, quantity: int)
    requires InCart(cart, pid)
    ensures var r := WithQuantity(cart, pid, quantity);
      Find(r, pid).Some? && r[Find(r, pid).value].quantity == quantity
  {
    FindSameIds(cart, WithQuantity(cart, pid, quantity), pid);
  }

  lemma UniqueIdsCons(x: Line, s: seq<Line>)
    ensures UniqueIds([x] + s) <==> UniqueIds(s) && forall l | l in s :: l.productId != x.productId
  {
    var c := [x] + s;
    if UniqueIds(c) {
      forall i, j | 0 <= i < j < |s| ensures s[i].productId != s[j].productId {
        assert c[i + 1] == s[i] && c[j + 1] == s[j];
      }
      forall l | l in s ensures l.productId != x.productId {
        var j :| 0 <= j < |s| && s[j] == l;
        assert c[0] == x && c[j + 1] == l;
      }
    }
    if UniqueIds(s) && forall l | l in s :: l.productId != x.productId {
      forall i, j | 0 <= i < j < |c| ensures c[i].productId != c[j].productId {
        assert c[j] == s[j - 1];
        if i > 0 {
          assert c[i] == s[i - 1];
        }
      }
    }
  }

  /** `removeItem` keeps the cart invariant. */
  lemma {:induction false} RemovedKeepsUniqueIds(cart: seq<Line>, pid: int)
    requires UniqueIds(cart)
    ensures UniqueIds(Removed(cart, pid))
  {
    if cart != [] {
      var x, rest := cart[0], cart[1..];
      assert cart == [x] + rest;
      UniqueIdsCons(x, rest);
      RemovedKeepsUniqueIds(rest, pid);
      if x.productId != pid {
        UniqueIdsCons(x, Removed(rest, pid));
      }
    }
  }

  /** `removeItem` keeps the remaining lines in their original order: filter distributes over `+`. */
  lemma {:induction false} RemovedConcat(a: seq<Line>, b: seq<Line>, pid: int)
    ensures Removed(a + b, pid) == Removed(a, pid) + Removed(b, pid)
  {
    if a == [] {
      assert a + b == b;
    } else {
      assert (a + b)[0] == a[0];
      assert (a + b)[1..] == a[1..] + b;
      RemovedConcat(a[1..], b, pid);
    }
  }

  /** Removing a product twice is removing it once. */
  lemma {:induction false} RemovedIdempotent(cart: seq<Line>, pid: int)
    ensures Removed(Removed(cart, pid), pid) == Removed(cart, pid)
  {
    if cart != [] {
      var head := if cart[0].productId == pid then [] else [cart[0]];
      RemovedConcat(head, Removed(cart[1..], pid), pid);
      RemovedIdempotent(cart[1..], pid);
      if head != [] {
        assert Removed(head, pid) == head by {
          assert head[1..] == [];
        }
      }
    }
  }

  /** Removing a product the cart does not hold changes nothing. */
  lemma {:induction false} RemovedAbsent(cart: seq<Line>, pid: int)
    requires !InCart(cart, pid)
    ensures Removed(cart, pid) == cart
  {
    if cart != [] {
      assert cart[0].productId != pid;
      assert !InCart(cart[1..], pid) by {
        forall i | 0 <= i < |cart[1..]| ensures cart[1..][i].productId != pid {
          assert cart[1..][i] == cart[i + 1];
        }
      }
      RemovedAbsent(cart[1..], pid);
      assert cart == [cart[0]] + cart[1..];
    }
  }
}
