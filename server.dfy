// The writing routes of index.js as methods of one in-memory store holding
// the three collections. Each method performs the handler's database calls in
// the handler's order (findOne, updateOne with $inc/$push/$pull/$set,
// findOneAndUpdate, save) and is proved to leave the store and answer exactly
// as the corresponding function of module Shop says. The read-only routes
// change nothing and are the query functions of module Shop.
module Server {
  import opened Common
  import opened UserSchema
  import opened ItemSchema
  import opened OrderSchema
  import opened CartUpdates
  import opened Checkout
  import opened Shop
  import ShopProperties

  class Store {
    var users: map<string, User>
    var items: map<ObjectId, Item>
    var orders: map<ObjectId, Order>
    var nextId: nat

    /** The collections as a value. */
    function AsDb(): Db
      reads this
    {
      Db(users, items, orders, nextId)
    }

    /** The object invariant: the collections are consistent. */
    ghost predicate Valid()
      reads this
    {
      Consistent(AsDb())
    }

    constructor ()
      ensures AsDb() == Empty && Valid()
    {
      users, items, orders, nextId := map[], map[], map[], 0;
    }

    method Register(username: string, email: string, password: string, location: string) returns (r: Response<()>)
      modifies this
      ensures Outcome(AsDb(), r) == Shop.Register(old(AsDb()), username, email, password, location)
      ensures old(Valid()) ==> Valid()
    {
      if Valid() {
        ShopProperties.RegisterKeepsConsistent(AsDb(), username, email, password, location);
      }
      if !Given(username) || !Given(email) || !Given(password) || !Given(location) {
        return BadRequest("All fields are required");
      }
      if email in users {
        return Conflict("Email already exists");
      }
      var user := NewUser(username, password, location);
      if !ValidUser(user) {
        // save() rejects the document; the handler's catch answers 500
        return ServerError("Error registering user");
      }
      users := users[email := user];
      return Ok(());
    }

    method AddItem(itemname: string, price: Option<int>, protein: string, seller: Option<string>, location: string)
      returns (r: Response<(ObjectId, Item)>)
      modifies this
      ensures Outcome(AsDb(), r) == Shop.AddItem(old(AsDb()), itemname, price, protein, seller, location)
      ensures old(Valid()) ==> Valid()
    {
      if Valid() {
        ShopProperties.AddItemKeepsConsistent(AsDb(), itemname, price, protein, seller, location);
      }
      if !Given(itemname) || price.None? || !Given(protein) || !Given(location) {
        return BadRequest("Required fields are missing");
      }
      var item := NewItem(itemname, price.value, protein, seller, location);
      var id := nextId;
      items := items[id := item];
      nextId := nextId + 1;
      return Ok((id, item));
    }

    method AddToCart(email: string, itemId: Option<ObjectId>) returns (r: Response<Cart>)
      modifies this
      ensures Outcome(AsDb(), r) == Shop.AddToCart(old(AsDb()), email, itemId)
      ensures old(Valid()) ==> Valid()
    {
      if Valid() {
        ShopProperties.AddToCartKeepsConsistent(AsDb(), email, itemId);
      }
      if !Given(email) || itemId.None? {
        return BadRequest("Email and Item ID are required");
      }
      var id := itemId.value;
      if id !in items {
        return NotFound("Item not found");
      }
      // updateOne({email, "cart.productId": id}, {$inc: {"cart.$.quantity": 1}})
      var modified := false;
      if email in users && HasLine(users[email].cart, id) {
        users := users[email := users[email].(cart := IncFirst(users[email].cart, id))];
        modified := true;
      }
      // when nothing was modified: updateOne({email}, {$push: {cart: {productId: id, quantity: 1}}})
      if !modified && email in users {
        users := users[email := users[email].(cart := users[email].cart + [CartLine(id, 1)])];
      }
      var data := GetPopulatedCart(AsDb(), email);
      if data.None? {
        return NotFound("User not found");
      }
      return Ok(data.value);
    }

    method RemoveFromCart(email: string, itemId: Option<ObjectId>) returns (r: Response<Cart>)
      modifies this
      ensures Outcome(AsDb(), r) == Shop.RemoveFromCart(old(AsDb()), email, itemId)
      ensures old(Valid()) ==> Valid()
    {
      if Valid() {
        ShopProperties.RemoveFromCartKeepsConsistent(AsDb(), email, itemId);
      }
      if !Given(email) || itemId.None? {
        return BadRequest("Email and Item ID are required");
      }
      // findOneAndUpdate({email}, {$pull: {cart: {productId: id}}}, {new: true})
      if email !in users {
        return NotFound("User not found");
      }
      users := users[email := users[email].(cart := Pull(users[email].cart, itemId.value))];
      return Ok(users[email].cart);
    }

    method UpdateCartQuantity(email: string, itemId: Option<ObjectId>, newQuantity: Option<int>) returns (r: Response<Cart>)
      modifies this
      ensures Outcome(AsDb(), r) == Shop.SetCartQuantity(old(AsDb()), email, itemId, newQuantity)
      ensures old(Valid()) ==> Valid()
    {
      if Valid() {
        ShopProperties.SetCartQuantityKeepsConsistent(AsDb(), email, itemId, newQuantity);
      }
      if !Given(email) || itemId.None? || newQuantity.None? {
        return BadRequest("Email, Item ID and newQuantity are required");
      }
      var id, q := itemId.value, newQuantity.value;
      if q <= 0 {
        // findOneAndUpdate({email}, {$pull: ...}, {new: true})
        if email !in users {
          return NotFound("User not found");
        }
        users := users[email := users[email].(cart := Pull(users[email].cart, id))];
        return Ok(users[email].cart);
      }
      // findOneAndUpdate({email, "cart.productId": id}, {$set: {"cart.$.quantity": q}}, {new: true})
      if email !in users || !HasLine(users[email].cart, id) {
        return NotFound("User not found");
      }
      users := users[email := users[email].(cart := SetFirst(users[email].cart, id, q))];
      // the line is looked up among the populated ones
      var populated := id in items;
      if !populated {
        // findOneAndUpdate({email}, {$push: {cart: {productId: id, quantity: q}}}, {new: true})
        users := users[email := users[email].(cart := users[email].cart + [CartLine(id, q)])];
      }
      return Ok(users[email].cart);
    }

    method PlaceOrder(email: string) returns (r: Response<ObjectId>)
      modifies this
      ensures Outcome(AsDb(), r) == Shop.PlaceOrder(old(AsDb()), email)
      ensures old(Valid()) ==> Valid()
    {
      ghost var db := AsDb();
      if !Given(email) {
        return BadRequest("Email is required");
      }
      if email !in users {
        return NotFound("User not found");
      }
      var cart := users[email].cart;
      if |cart| == 0 {
        return BadRequest("Cart is empty");
      }
      var ok, lines, total := SnapshotCart(cart, items);
      if !ok {
        // a line whose item does not populate: reading its price throws
        return ServerError("Server error placing order");
      }
      var id := nextId;
      orders := orders[id := NewOrder(email, lines, total)];
      nextId := nextId + 1;
      // updateOne({email}, {$set: {cart: []}})
      users := users[email := users[email].(cart := [])];
      r := Ok(id);
      assert Outcome(AsDb(), r) == Shop.PlaceOrder(db, email);
      if Consistent(db) {
        ShopProperties.PlaceOrderKeepsConsistent(db, email);
      }
    }

    method AcceptOrder(orderId: Option<ObjectId>) returns (r: Response<Order>)
      modifies this
      ensures Outcome(AsDb(), r) == Shop.AcceptOrder(old(AsDb()), orderId)
      ensures old(Valid()) ==> Valid()
    {
      if Valid() {
        ShopProperties.AcceptOrderKeepsConsistent(AsDb(), orderId);
      }
      if orderId.None? {
        return BadRequest("Order ID is required");
      }
      // findByIdAndUpdate(orderId, {$set: {status: "Accepted"}}, {new: true})
      var id := orderId.value;
      if id !in orders {
        return NotFound("Order not found");
      }
      orders := orders[id := orders[id].(status := Accepted)];
      return Ok(orders[id]);
    }

    method SendLocation(orderId: Option<ObjectId>, location: string) returns (r: Response<Order>)
      modifies this
      ensures Outcome(AsDb(), r) == Shop.SendLocation(old(AsDb()), orderId, location)
      ensures old(Valid()) ==> Valid()
    {
      if Valid() {
        ShopProperties.SendLocationKeepsConsistent(AsDb(), orderId, location);
      }
      if orderId.None? || !Given(location) {
        return BadRequest("Order ID and location are required");
      }
      // findByIdAndUpdate(orderId, {$set: {deliveryLocation: location}}, {new: true})
      var id := orderId.value;
      if id !in orders {
        return NotFound("Order not found");
      }
      orders := orders[id := orders[id].(deliveryLocation := Some(location))];
      return Ok(orders[id]);
    }
  }
}
