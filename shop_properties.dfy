// Properties of the route handlers: every writing route keeps the database
// consistent and never undoes what Evolves protects, hence so does any
// sequence of requests from the empty database; and the per-route
// promises of the cart, checkout and order-lifecycle handlers.
module ShopProperties {
  import opened Common
  import opened UserSchema
  import opened ItemSchema
  import opened OrderSchema
  import opened CartUpdates
  import opened Checkout
  import opened Shop

  // ---------------------------------------------------------------- building blocks

  /** Giving one user a well-formed cart keeps the database consistent. */
  lemma WithCartKeepsConsistent(db: Db, email: string, cart: Cart)
    requires Consistent(db) && email in db.users && CartOk(cart, db.items)
    ensures Consistent(WithCart(db, email, cart)) && Evolves(db, WithCart(db, email, cart))
  {
    var db' := WithCart(db, email, cart);
    assert db'.users.Keys == db.users.Keys;
    assert db'.items == db.items && db'.orders == db.orders && db'.nextId == db.nextId;
    forall e | e in db'.users ensures UserOk(e, db'.users[e], db'.items) {
      if e != email {
        assert db'.users[e] == db.users[e];
      } else {
        assert UserOk(e, db.users[e], db.items);
      }
    }
  }

  /** Storing a well-formed order under the next id keeps the database consistent. */
  lemma InsertOrderKeepsConsistent(db: Db, order: Order)
    requires Consistent(db) && OrderOk(order, db.users.Keys, db.items)
    ensures var db' := db.(orders := db.orders[db.nextId := order], nextId := db.nextId + 1);
      Consistent(db') && Evolves(db, db')
  {
    var db' := db.(orders := db.orders[db.nextId := order], nextId := db.nextId + 1);
    assert db.nextId !in db.items;
    forall id | id in db'.orders
      ensures id < db'.nextId && id !in db'.items && OrderOk(db'.orders[id], db'.users.Keys, db'.items)
    {
      if id != db.nextId {
        assert db'.orders[id] == db.orders[id];
      }
    }
    assert ItemsOk(db'.items, db'.nextId);
  }

  // ---------------------------------------------------------------- one route at a time

  lemma RegisterKeepsConsistent(db: Db, username: string, email: string, password: string, location: string)
    requires Consistent(db)
    ensures Consistent(Register(db, username, email, password, location).state)
    ensures Evolves(db, Register(db, username, email, password, location).state)
  {
    var o := Register(db, username, email, password, location);
    if o.response.Ok? {
      var db' := o.state;
      assert db'.items == db.items && db'.orders == db.orders && db'.nextId == db.nextId;
      forall e | e in db'.users ensures UserOk(e, db'.users[e], db'.items) {
        if e != email {
          assert db'.users[e] == db.users[e];
        }
      }
      forall id | id in db'.orders
        ensures id < db'.nextId && id !in db'.items && OrderOk(db'.orders[id], db'.users.Keys, db'.items)
      {
        assert OrderOk(db.orders[id], db.users.Keys, db.items);
      }
    }
  }

  lemma AddItemKeepsConsistent(db: Db, itemname: string, price: Option<int>, protein: string, seller: Option<string>, location: string)
    requires Consistent(db)
    ensures Consistent(AddItem(db, itemname, price, protein, seller, location).state)
    ensures Evolves(db, AddItem(db, itemname, price, protein, seller, location).state)
  {
    var o := AddItem(db, itemname, price, protein, seller, location);
    if o.response.Ok? {
      var db' := o.state;
      assert db'.users == db.users && db'.orders == db.orders;
      forall e | e in db'.users ensures UserOk(e, db'.users[e], db'.items) {
        assert UserOk(e, db.users[e], db.items);
      }
      forall id | id in db'.orders
        ensures id < db'.nextId && id !in db'.items && OrderOk(db'.orders[id], db'.users.Keys, db'.items)
      {
        assert OrderOk(db.orders[id], db.users.Keys, db.items);
      }
      assert ItemsOk(db'.items, db'.nextId);
    }
  }

  lemma AddToCartKeepsConsistent(db: Db, email: string, itemId: Option<ObjectId>)
    requires Consistent(db)
    ensures Consistent(AddToCart(db, email, itemId).state)
    ensures Evolves(db, AddToCart(db, email, itemId).state)
  {
    var o := AddToCart(db, email, itemId);
    if o.response.Ok? {
      var cart := db.users[email].cart;
      assert CartOk(cart, db.items);
      AddOneKeepsWellFormed(cart, itemId.value);
      WithCartKeepsConsistent(db, email, o.response.value);
    }
  }

  lemma RemoveFromCartKeepsConsistent(db: Db, email: string, itemId: Option<ObjectId>)
    requires Consistent(db)
    ensures Consistent(RemoveFromCart(db, email, itemId).state)
    ensures Evolves(db, RemoveFromCart(db, email, itemId).state)
  {
    var o := RemoveFromCart(db, email, itemId);
    if o.response.Ok? {
      var cart := db.users[email].cart;
      assert CartOk(cart, db.items);
      PullKeepsWellFormed(cart, itemId.value);
      WithCartKeepsConsistent(db, email, o.response.value);
    }
  }

  /** With a consistent database, a positive /updatecartquantity that succeeds
      is exactly the `$set`: the line it updates always populates, so the
      second `$push` of the handler never runs. */
  lemma SetQuantityNeverPushes(db: Db, email: string, id: ObjectId, q: int)
    requires Consistent(db) && q > 0
    requires SetCartQuantity(db, email, Some(id), Some(q)).response.Ok?
    ensures email in db.users && HasLine(db.users[email].cart, id)
    ensures SetCartQuantity(db, email, Some(id), Some(q)).response.value == SetFirst(db.users[email].cart, id, q)
  {
    assert CartOk(db.users[email].cart, db.items);
  }

  lemma SetCartQuantityKeepsConsistent(db: Db, email: string, itemId: Option<ObjectId>, newQuantity: Option<int>)
    requires Consistent(db)
    ensures Consistent(SetCartQuantity(db, email, itemId, newQuantity).state)
    ensures Evolves(db, SetCartQuantity(db, email, itemId, newQuantity).state)
  {
    var o := SetCartQuantity(db, email, itemId, newQuantity);
    if o.response.Ok? {
      var cart := db.users[email].cart;
      assert CartOk(cart, db.items);
      if newQuantity.value <= 0 {
        PullKeepsWellFormed(cart, itemId.value);
      } else {
        SetQuantityNeverPushes(db, email, itemId.value, newQuantity.value);
        SetFirstKeepsWellFormed(cart, itemId.value, newQuantity.value);
      }
      WithCartKeepsConsistent(db, email, o.response.value);
    }
  }

  /** With a consistent database, checkout never meets a cart line whose item
      is missing: the 500 of the pricing pass cannot happen. */
  lemma PlaceOrderResolves(db: Db, email: string)
    requires Consistent(db) && Given(email) && email in db.users && db.users[email].cart != []
    ensures PlaceOrder(db, email).response == Ok(db.nextId)
  {
    var cart := db.users[email].cart;
    assert CartOk(cart, db.items);
    forall i | 0 <= i < |cart| ensures cart[i].productId in db.items {
      assert cart[i].productId in Products(cart);
    }
  }

  /** A successful checkout creates exactly one order, under the next id: it
      belongs to the buyer, is Pending with no delivery location, its lines
      mirror the cart line by line at the items' current prices, and its total
      is the sum of price × quantity. The cart is emptied, the items (and so
      their stock) are untouched and no other order changes. */
  lemma PlaceOrderEffect(db: Db, email: string)
    requires Consistent(db)
    requires PlaceOrder(db, email).response.Ok?
    ensures var o := PlaceOrder(db, email);
      var id := db.nextId;
      var cart := db.users[email].cart;
      && id !in db.orders
      && o.state.orders.Keys == db.orders.Keys + {id}
      && (forall other :: other in db.orders ==> o.state.orders[other] == db.orders[other])
      && o.state.orders[id].user == email
      && o.state.orders[id].status == Pending
      && o.state.orders[id].deliveryLocation == None
      && |o.state.orders[id].lines| == |cart|
      && (forall k :: 0 <= k < |cart| ==>
            o.state.orders[id].lines[k] == OrderLine(cart[k].productId, cart[k].quantity, db.items[cart[k].productId].price))
      && o.state.orders[id].totalAmount == Total(o.state.orders[id].lines)
      && o.state.users[email].cart == []
      && o.state.items == db.items
  {
    var cart := db.users[email].cart;
    forall k | 0 <= k < |cart|
      ensures Snapshot(cart, db.items)[k] == OrderLine(cart[k].productId, cart[k].quantity, db.items[cart[k].productId].price)
    {
      SnapshotAt(cart, db.items, k);
    }
  }

  /** The order a checkout builds from a well-formed cart is well formed. */
  lemma PlacedOrderOk(db: Db, email: string)
    requires Consistent(db) && email in db.users
    requires db.users[email].cart != [] && Resolvable(db.users[email].cart, db.items)
    ensures var lines := Snapshot(db.users[email].cart, db.items);
      OrderOk(NewOrder(email, lines, Total(lines)), db.users.Keys, db.items)
  {
    var cart := db.users[email].cart;
    var lines := Snapshot(cart, db.items);
    assert UserOk(email, db.users[email], db.items);
    forall k | 0 <= k < |lines|
      ensures lines[k].productId in db.items && lines[k].quantity >= MinLineQuantity
      ensures lines[k].priceAtPurchase == db.items[lines[k].productId].price
    {
      SnapshotAt(cart, db.items, k);
    }
  }

  /** A successful checkout is the cart cleared, then the new order stored
      under the next id. */
  lemma PlaceOrderSteps(db: Db, email: string)
    requires PlaceOrder(db, email).response.Ok?
    ensures var lines := Snapshot(db.users[email].cart, db.items);
      var cleared := WithCart(db, email, []);
      PlaceOrder(db, email).state
        == cleared.(orders := cleared.orders[cleared.nextId := NewOrder(email, lines, Total(lines))], nextId := cleared.nextId + 1)
  {
  }

  lemma PlaceOrderKeepsConsistent(db: Db, email: string)
    requires Consistent(db)
    ensures Consistent(PlaceOrder(db, email).state)
    ensures Evolves(db, PlaceOrder(db, email).state)
  {
    if PlaceOrder(db, email).response.Ok? {
      var lines := Snapshot(db.users[email].cart, db.items);
      var order := NewOrder(email, lines, Total(lines));
      PlacedOrderOk(db, email);
      var cleared := WithCart(db, email, []);
      WithCartKeepsConsistent(db, email, []);
      assert cleared.users.Keys == db.users.Keys && cleared.items == db.items;
      InsertOrderKeepsConsistent(cleared, order);
      PlaceOrderSteps(db, email);
      EvolvesTransitive(db, cleared, PlaceOrder(db, email).state);
    }
  }

  lemma AcceptOrderKeepsConsistent(db: Db, orderId: Option<ObjectId>)
    requires Consistent(db)
    ensures Consistent(AcceptOrder(db, orderId).state)
    ensures Evolves(db, AcceptOrder(db, orderId).state)
  {
    var o := AcceptOrder(db, orderId);
    if o.response.Ok? {
      var db' := o.state;
      assert OrderOk(db.orders[orderId.value], db.users.Keys, db.items);
      assert db'.users == db.users && db'.items == db.items && db'.nextId == db.nextId;
      forall id | id in db'.orders
        ensures id < db'.nextId && id !in db'.items && OrderOk(db'.orders[id], db'.users.Keys, db'.items)
      {
        if id != orderId.value {
          assert db'.orders[id] == db.orders[id];
        }
      }
    }
  }

  lemma SendLocationKeepsConsistent(db: Db, orderId: Option<ObjectId>, location: string)
    requires Consistent(db)
    ensures Consistent(SendLocation(db, orderId, location).state)
    ensures Evolves(db, SendLocation(db, orderId, location).state)
  {
    var o := SendLocation(db, orderId, location);
    if o.response.Ok? {
      var db' := o.state;
      assert OrderOk(db.orders[orderId.value], db.users.Keys, db.items);
      assert db'.users == db.users && db'.items == db.items && db'.nextId == db.nextId;
      forall id | id in db'.orders
        ensures id < db'.nextId && id !in db'.items && OrderOk(db'.orders[id], db'.users.Keys, db'.items)
      {
        if id != orderId.value {
          assert db'.orders[id] == db.orders[id];
        }
      }
    }
  }

  // ---------------------------------------------------------------- any sequence of requests

  /** Every writing route keeps the database consistent and evolving. */
  lemma StepKeepsConsistent(db: Db, req: Request)
    requires Consistent(db)
    ensures Consistent(Step(db, req)) && Evolves(db, Step(db, req))
  {
    match req
    case PostRegister(username, email, password, location) =>
      RegisterKeepsConsistent(db, username, email, password, location);
    case PostAddItem(itemname, price, protein, seller, location) =>
      AddItemKeepsConsistent(db, itemname, price, protein, seller, location);
    case PostAddToCart(email, itemId) =>
      AddToCartKeepsConsistent(db, email, itemId);
    case PostRemoveFromCart(email, itemId) =>
      RemoveFromCartKeepsConsistent(db, email, itemId);
    case PostUpdateCartQuantity(email, itemId, q) =>
      SetCartQuantityKeepsConsistent(db, email, itemId, q);
    case PostPlaceOrder(email) =>
      PlaceOrderKeepsConsistent(db, email);
    case PostAcceptOrder(orderId) =>
      AcceptOrderKeepsConsistent(db, orderId);
    case PostSendLocation(orderId, location) =>
      SendLocationKeepsConsistent(db, orderId, location);
  }

  /** Only /acceptorder writes an order's status and only /sendlocation its
      delivery location; every other request leaves both as they were, and no
      request deletes an order. It suffices that the next id is fresh. */
  lemma StepKeepsOrderFields(db: Db, req: Request)
    requires db.nextId !in db.orders
    ensures forall id :: id in db.orders ==> id in Step(db, req).orders
    ensures !req.PostAcceptOrder? ==>
      forall id :: id in db.orders ==> Step(db, req).orders[id].status == db.orders[id].status
    ensures !req.PostSendLocation? ==>
      forall id :: id in db.orders ==> Step(db, req).orders[id].deliveryLocation == db.orders[id].deliveryLocation
  {
    match req
    case PostPlaceOrder(email) =>
      var o := PlaceOrder(db, email);
      if o.response.Ok? {
        forall id | id in db.orders ensures id in o.state.orders && o.state.orders[id] == db.orders[id] {
          assert id != db.nextId;
        }
      }
    case PostAcceptOrder(orderId) =>
    case PostSendLocation(orderId, location) =>
    case _ =>
      assert Step(db, req).orders == db.orders;
  }

  lemma EvolvesTransitive(a: Db, b: Db, c: Db)
    requires Evolves(a, b) && Evolves(b, c)
    ensures Evolves(a, c)
  {
  }

  /** Serving requests one at a time keeps the database consistent, and what
      Evolves protects survives any number of requests. */
  lemma {:induction false} RunKeepsConsistent(db: Db, reqs: seq<Request>)
    requires Consistent(db)
    ensures Consistent(Run(db, reqs)) && Evolves(db, Run(db, reqs))
    decreases |reqs|
  {
    if reqs != [] {
      var next := Step(db, reqs[0]);
      StepKeepsConsistent(db, reqs[0]);
      RunKeepsConsistent(next, reqs[1..]);
      EvolvesTransitive(db, next, Run(next, reqs[1..]));
    }
  }

  /** In every database the routes can produce: no order is Delivered, every
      item still has the default quantity 0, and every cart has one line per
      item, quantities of at least 1 and only existing items. */
  lemma ReachableInvariants(reqs: seq<Request>)
    ensures var db := Run(Empty, reqs);
      && (forall id :: id in db.orders ==> db.orders[id].status == Pending || db.orders[id].status == Accepted)
      && (forall id :: id in db.items ==> db.items[id].quantity == DefaultQuantity)
      && (forall e :: e in db.users ==>
            var cart := db.users[e].cart;
            NoDup(cart) && Positive(cart) && Products(cart) <= db.items.Keys)
  {
    RunKeepsConsistent(Empty, reqs);
    var db := Run(Empty, reqs);
    forall id | id in db.orders
      ensures db.orders[id].status == Pending || db.orders[id].status == Accepted
    {
      assert OrderOk(db.orders[id], db.users.Keys, db.items);
    }
    forall e | e in db.users
      ensures NoDup(db.users[e].cart) && Positive(db.users[e].cart) && Products(db.users[e].cart) <= db.items.Keys
    {
      assert CartOk(db.users[e].cart, db.items);
    }
  }

  // ---------------------------------------------------------------- per-route promises

  /** /addtocart on a consistent database: an existing line for the item gains
      exactly one and keeps its place, otherwise (item, 1) is appended; the
      cart keeps one line per item. */
  lemma AddToCartUpserts(db: Db, email: string, id: ObjectId)
    requires Consistent(db)
    requires AddToCart(db, email, Some(id)).response.Ok?
    ensures var cart := db.users[email].cart;
      var r := AddToCart(db, email, Some(id)).response.value;
      && (HasLine(cart, id) ==>
            && |r| == |cart|
            && r[FirstIndex(cart, id)].quantity == cart[FirstIndex(cart, id)].quantity + 1
            && forall j :: 0 <= j < |r| && j != FirstIndex(cart, id) ==> r[j] == cart[j])
      && (!HasLine(cart, id) ==> r == cart + [CartLine(id, 1)])
      && NoDup(r)
      && Positive(r)
  {
    var cart := db.users[email].cart;
    assert CartOk(cart, db.items);
    AddOneKeepsWellFormed(cart, id);
  }

  /** /addtocart twice for an item not in the cart leaves one line of quantity 2. */
  lemma AddToCartTwice(db: Db, email: string, id: ObjectId)
    requires AddToCart(db, email, Some(id)).response.Ok?
    requires !HasLine(db.users[email].cart, id)
    ensures var once := AddToCart(db, email, Some(id));
      var twice := AddToCart(once.state, email, Some(id));
      twice.response == Ok(db.users[email].cart + [CartLine(id, 2)])
  {
    AddTwice(db.users[email].cart, id);
  }

  /** /removefromcart on a consistent database: no line for the item remains,
      every other item keeps its quantity, and a cart without the item is
      answered 200 unchanged. */
  lemma RemoveFromCartDrops(db: Db, email: string, id: ObjectId)
    requires Consistent(db)
    requires Given(email) && email in db.users
    ensures RemoveFromCart(db, email, Some(id)).response.Ok?
    ensures var cart := db.users[email].cart;
      var r := RemoveFromCart(db, email, Some(id)).response.value;
      && !HasLine(r, id)
      && (forall x :: x != id ==> Quantity(r, x) == Quantity(cart, x))
      && (!HasLine(cart, id) ==> r == cart)
      && NoDup(r) && Positive(r)
  {
    assert CartOk(db.users[email].cart, db.items);
    PullKeepsWellFormed(db.users[email].cart, id);
  }

  /** /updatecartquantity with a quantity of 0 or less does what
      /removefromcart does: same new database, same status, same cart. */
  lemma SetQuantityNonPositiveIsRemove(db: Db, email: string, itemId: Option<ObjectId>, q: int)
    requires q <= 0
    ensures var set_ := SetCartQuantity(db, email, itemId, Some(q));
      var remove := RemoveFromCart(db, email, itemId);
      && set_.state == remove.state
      && StatusCode(set_.response) == StatusCode(remove.response)
      && (set_.response.Ok? ==> set_.response.value == remove.response.value)
  {
  }

  /** /updatecartquantity with a positive quantity on a consistent database:
      the item's line now holds exactly that quantity, every other item keeps
      its quantity, and the cart stays well formed. */
  lemma SetQuantityPositive(db: Db, email: string, id: ObjectId, q: int)
    requires Consistent(db) && q > 0
    requires SetCartQuantity(db, email, Some(id), Some(q)).response.Ok?
    ensures var cart := db.users[email].cart;
      var r := SetCartQuantity(db, email, Some(id), Some(q)).response.value;
      && |r| == |cart|
      && Quantity(r, id) == q
      && (forall x :: x != id ==> Quantity(r, x) == Quantity(cart, x))
      && NoDup(r) && Positive(r)
  {
    SetQuantityNeverPushes(db, email, id, q);
    SetFirstKeepsWellFormed(db.users[email].cart, id, q);
  }

  /** /acceptorder is idempotent: accepting twice is accepting once. */
  lemma AcceptOrderIdempotent(db: Db, orderId: Option<ObjectId>)
    ensures var once := AcceptOrder(db, orderId);
      AcceptOrder(once.state, orderId) == once
  {
    var once := AcceptOrder(db, orderId);
    if once.response.Ok? {
      var id := orderId.value;
      assert once.state.orders[id := once.state.orders[id].(status := Accepted)] == once.state.orders;
    }
  }

  /** A user who has just registered can log in with that password, and with
      no other. */
  lemma RegisterThenLogin(db: Db, username: string, email: string, password: string, location: string, attempt: string)
    requires Register(db, username, email, password, location).response.Ok?
    ensures var db' := Register(db, username, email, password, location).state;
      Login(db', email, attempt).Ok? <==> attempt == password
  {
  }

  /** `minLength` counts UTF-16 code units: a username of one letter and one
      emoji (3 code units, 2 characters) is long enough to register. */
  lemma RegisterCountsCodeUnits(db: Db, email: string, location: string)
    requires Given(email) && email !in db.users && Given(location)
    ensures Register(db, "a\U{1F600}", email, "secret", location).response == Ok(())
  {
    var name := "a\U{1F600}";
    assert name[..1][..0] == [];
    assert Utf16Length(name[..1]) == 1;
    Utf16LengthBounds("secret");
  }

  /** Emails stay unique: registering an email a second time is refused with
      409 and adds nothing. */
  lemma RegisterTwiceConflicts(db: Db, username: string, email: string, password: string, location: string,
                               username2: string, password2: string, location2: string)
    requires Register(db, username, email, password, location).response.Ok?
    requires Given(username2) && Given(password2) && Given(location2)
    ensures var db' := Register(db, username, email, password, location).state;
      Register(db', username2, email, password2, location2) == Outcome(db', Conflict("Email already exists"))
  {
  }

  /** The order a checkout creates is listed among the buyer's orders. */
  lemma PlaceOrderThenUserOrders(db: Db, email: string)
    requires Consistent(db)
    requires PlaceOrder(db, email).response.Ok?
    ensures var o := PlaceOrder(db, email);
      var listed := UserOrders(o.state, email);
      listed.Ok? && o.response.value in listed.value
  {
    PlaceOrderEffect(db, email);
  }
}
