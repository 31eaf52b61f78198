// The pricing pass of /placeorder (index.js:218-227): every cart line is
// populated with its item, copied into an order line at the item's current
// price, and `totalAmount` accumulates price × quantity along the way.
module Checkout {
  import opened Common
  import opened UserSchema
  import opened ItemSchema
  import opened OrderSchema

  /** Every cart line refers to an item that exists, so populating it yields a
      price; otherwise `cartItem.productId` is null and reading its price throws. */
  predicate Resolvable(cart: seq<CartLine>, items: map<ObjectId, Item>) {
    forall i :: 0 <= i < |cart| ==> cart[i].productId in items
  }

  /** The order lines `user.cart.map(...)` builds, defined line by line from the back. */
  function Snapshot(cart: seq<CartLine>, items: map<ObjectId, Item>): (lines: seq<OrderLine>)
    requires Resolvable(cart, items)
    ensures |lines| == |cart|
  {
    if cart == [] then []
    else
      var n := |cart| - 1;
      Snapshot(cart[..n], items) + [OrderLine(cart[n].productId, cart[n].quantity, items[cart[n].productId].price)]
  }

  /** Σ priceAtPurchase × quantity over the lines, summed front to back.
      Lines with non-negative prices and quantities give a non-negative total. */
  function Total(lines: seq<OrderLine>): (t: int)
    ensures (forall i :: 0 <= i < |lines| ==> lines[i].priceAtPurchase >= 0 && lines[i].quantity >= 0) ==> t >= 0
  {
    if lines == [] then 0
    else
      var n := |lines| - 1;
      Total(lines[..n]) + lines[n].priceAtPurchase * lines[n].quantity
  }

  /** Line k of the order mirrors line k of the cart, priced as the item is now. */
  lemma {:induction false} SnapshotAt(cart: seq<CartLine>, items: map<ObjectId, Item>, k: nat)
    requires Resolvable(cart, items) && k < |cart|
    ensures Snapshot(cart, items)[k] == OrderLine(cart[k].productId, cart[k].quantity, items[cart[k].productId].price)
  {
    var n := |cart| - 1;
    if k < n {
      assert cart[..n][k] == cart[k];
      SnapshotAt(cart[..n], items, k);
    }
  }

  /** The map over the cart with its running total. `ok` is false exactly when
      some line's item is missing, the case in which the source throws. */
  method SnapshotCart(cart: seq<CartLine>, items: map<ObjectId, Item>) returns (ok: bool, lines: seq<OrderLine>, total: int)
    ensures ok <==> Resolvable(cart, items)
    ensures ok ==> lines == Snapshot(cart, items) && total == Total(lines)
  {
    lines, total := [], 0;
    var i := 0;
    while i < |cart|
      invariant 0 <= i <= |cart|
      invariant Resolvable(cart[..i], items)
      invariant lines == Snapshot(cart[..i], items)
      invariant total == Total(lines)
    {
      var line := cart[i];
      if line.productId !in items {
        return false, [], 0;
      }
      var price := items[line.productId].price;
      total := total + price * line.quantity;
      var ordered := OrderLine(line.productId, line.quantity, price);
      assert cart[..i + 1][..i] == cart[..i];
      assert (lines + [ordered])[..i] == lines;
      lines := lines + [ordered];
      i := i + 1;
    }
    assert cart[..i] == cart;
    ok := true;
  }
}
