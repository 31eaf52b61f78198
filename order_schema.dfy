// The Order model and its ordered-item line (orderSchema.js).
module OrderSchema {
  import opened Common

  datatype Status = Pending | Accepted | Delivered

  /** One purchased line, with the unit price captured when the order was placed. */
  datatype OrderLine = OrderLine(productId: ObjectId, quantity: int, priceAtPurchase: int)

  /** An order. `user` is the owner's email, which identifies the user as
      well as its ObjectId does (emails are unique and never change). */
  datatype Order = Order(
    user: string,
    lines: seq<OrderLine>,
    totalAmount: int,
    status: Status,
    deliveryLocation: Option<string>)

  /** A new order: the owner, lines and total come from the request;
      `status` defaults to Pending and `deliveryLocation` to null. */
  function NewOrder(user: string, lines: seq<OrderLine>, totalAmount: int): (o: Order)
    ensures o.user == user && o.lines == lines && o.totalAmount == totalAmount
    ensures o.status == Pending && o.deliveryLocation == None
  {
    Order(user, lines, totalAmount, Pending, None)
  }
}
