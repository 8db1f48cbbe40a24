/**
 * The products table (models/Product.js) as an abstract store: a map from product id to row.
 * Only the two operations the checkout uses are modelled: lookup by id and stock decrement.
 */
module Catalog {
  import opened Wrappers

  /** A product row. `price` is in cents; `quantity` is the stock on hand. */
  datatype Product = Product(
    id: int, productName: string, price: int, quantity: int, image: Option<string>, isActive: bool)

  /**
   * The products after `decrementQuantity(id, amount)`: the row's stock drops by `amount`, without
   * clamping at zero; an unknown id changes nothing.
   */
  function Decrement(products: map<int, Product>, id: int, amount: int): (r: map<int, Product>)
    ensures r.Keys == products.Keys
    ensures id in products ==> r[id] == products[id].(quantity := products[id].quantity - amount)
    ensures forall k :: k in products && k != id ==> r[k] == products[k]
  {
    if id in products then products[id := products[id].(quantity := products[id].quantity - amount)]
    else products
  }

  class ProductStore {
    var products: map<int, Product>

    constructor (initial: map<int, Product>)
      ensures products == initial
    {
      products := initial;
    }

    /** `getById(id)` followed by `rows[0]`: the row with that id, if there is one. */
    method GetById(id: int) returns (r: Option<Product>)
      ensures r.Some? <==> id in products
      ensures r.Some? ==> r.value == products[id]
    {
      r := if id in products then Some(products[id]) else None;
    }

    method DecrementQuantity(id: int, amount: int)
      modifies this
      ensures products == Decrement(old(products), id, amount)
    {
      products := Decrement(products, id, amount);
    }
  }
}
