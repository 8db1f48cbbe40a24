/** The order_items table (models/OrderItem.js) as an abstract store: rows are only ever appended. */
module OrderItem {

  /** One purchased line; `price` is the cart's unit price snapshot in cents. */
  datatype OrderItemRow = OrderItemRow(orderId: int, productId: int, quantity: int, price: int)

  class OrderItemTable {
    var rows: seq<OrderItemRow>

    constructor ()
      ensures rows == []
    {
      rows := [];
    }

    /** `create`: inserts one row. */
    method Create(orderId: int, productId: int, quantity: int, price: int)
      modifies this
      ensures rows == old(rows) + [OrderItemRow(orderId, productId, quantity, price)]
    {
      rows := rows + [OrderItemRow(orderId, productId, quantity, price)];
    }
  }
}
