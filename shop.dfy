// The route handlers of index.js over the three collections, as functions
// from the database before a request to the database after it and the
// response. Each handler is one atomic step; the imperative rendering,
// statement by statement, is the Store class in server.dfy, which is proved
// to compute exactly these functions.
module Shop {
  import opened Common
  import opened UserSchema
  import opened ItemSchema
  import opened OrderSchema
  import opened CartUpdates
  import opened Checkout

  /** The users collection keyed by email, the items and orders collections
      keyed by ObjectId, and the next fresh ObjectId. */
  datatype Db = Db(
    users: map<string, User>,
    items: map<ObjectId, Item>,
    orders: map<ObjectId, Order>,
    nextId: nat)

  const Empty: Db := Db(map[], map[], map[], 0)

  /** The database after a request, and the response. */
  datatype Outcome<+T> = Outcome(state: Db, response: Response<T>)

  /** JavaScript truthiness of a string request field: absent and "" are falsy. */
  predicate Given(s: string) {
    |s| > 0
  }

  // ---------------------------------------------------------------- state invariant

  /** A stored cart: one line per item, each of quantity at least 1, each for an existing item. */
  ghost predicate CartOk(cart: Cart, items: map<ObjectId, Item>) {
    NoDup(cart) && Positive(cart) && Products(cart) <= items.Keys
  }

  /** A stored user: a non-empty email, the save-time validators, a location,
      and a well-formed cart. */
  ghost predicate UserOk(email: string, u: User, items: map<ObjectId, Item>) {
    Given(email) && ValidUser(u) && Given(u.location) && CartOk(u.cart, items)
  }

  ghost predicate UsersOk(users: map<string, User>, items: map<ObjectId, Item>) {
    forall e :: e in users ==> UserOk(e, users[e], items)
  }

  /** Stored items: ids already drawn from the counter, the save-time
      validators, and the default quantity, which no route changes. */
  ghost predicate ItemsOk(items: map<ObjectId, Item>, nextId: nat) {
    forall id :: id in items ==>
      && id < nextId
      && ValidItem(items[id])
      && items[id].quantity == DefaultQuantity
  }

  /** A stored order: owned by a registered user, never Delivered, its lines
      priced as their items are and its total the sum of its lines. */
  ghost predicate OrderOk(o: Order, users: set<string>, items: map<ObjectId, Item>) {
    && o.user in users
    && o.status != Delivered
    && |o.lines| > 0
    && (forall i :: 0 <= i < |o.lines| ==>
          && o.lines[i].productId in items
          && o.lines[i].quantity >= MinLineQuantity
          && o.lines[i].priceAtPurchase == items[o.lines[i].productId].price)
    && o.totalAmount == Total(o.lines)
    && (o.deliveryLocation.Some? ==> Given(o.deliveryLocation.value))
  }

  /** Stored orders: ids drawn from the counter and never an item's, each order well formed. */
  ghost predicate OrdersOk(orders: map<ObjectId, Order>, users: set<string>, items: map<ObjectId, Item>, nextId: nat) {
    forall id :: id in orders ==>
      && id < nextId
      && id !in items
      && OrderOk(orders[id], users, items)
  }

  /** What every database reachable from Empty satisfies. */
  ghost predicate Consistent(db: Db) {
    && UsersOk(db.users, db.items)
    && ItemsOk(db.items, db.nextId)
    && OrdersOk(db.orders, db.users.Keys, db.items, db.nextId)
  }

  /** What no request ever undoes: users keep their credentials and location,
      items never change, orders keep their owner, lines and total. */
  ghost predicate Evolves(db: Db, db': Db) {
    && db.nextId <= db'.nextId
    && (forall e :: e in db.users ==>
          && e in db'.users
          && db'.users[e].username == db.users[e].username
          && db'.users[e].password == db.users[e].password
          && db'.users[e].location == db.users[e].location)
    && (forall id :: id in db.items ==> id in db'.items && db'.items[id] == db.items[id])
    && (forall id :: id in db.orders ==>
          && id in db'.orders
          && db'.orders[id].user == db.orders[id].user
          && db'.orders[id].lines == db.orders[id].lines
          && db'.orders[id].totalAmount == db.orders[id].totalAmount)
  }

  // ---------------------------------------------------------------- auth

  /** POST /register. */
  function Register(db: Db, username: string, email: string, password: string, location: string): (o: Outcome<()>)
    ensures o.response == BadRequest("All fields are required") <==>
      !Given(username) || !Given(email) || !Given(password) || !Given(location)
    ensures o.response == Conflict("Email already exists") <==>
      Given(username) && Given(email) && Given(password) && Given(location) && email in db.users
    ensures o.response == ServerError("Error registering user") <==>
      && Given(username) && Given(email) && Given(password) && Given(location) && email !in db.users
      && (Utf16Length(username) < UsernameMinLength || Utf16Length(password) < PasswordMinLength)
    ensures o.response.Ok? <==>
      && Given(username) && Given(email) && Given(password) && Given(location) && email !in db.users
      && Utf16Length(username) >= UsernameMinLength && Utf16Length(password) >= PasswordMinLength
    ensures !o.response.Ok? ==> o.state == db
    ensures o.response.Ok? ==>
      && email !in db.users
      && o.state == db.(users := db.users[email := NewUser(username, password, location)])
  {
    if !Given(username) || !Given(email) || !Given(password) || !Given(location) then
      Outcome(db, BadRequest("All fields are required"))
    else if email in db.users then
      Outcome(db, Conflict("Email already exists"))
    else
      var user := NewUser(username, password, location);
      if !ValidUser(user) then Outcome(db, ServerError("Error registering user"))
      else Outcome(db.(users := db.users[email := user]), Ok(()))
  }

  /** The fields /login answers with. */
  datatype Session = Session(username: string, email: string, location: string)

  /** POST /login: a read-only lookup and a plain password comparison. */
  function Login(db: Db, email: string, password: string): (r: Response<Session>)
    ensures r.Ok? <==> email in db.users && db.users[email].password == password
    ensures !r.Ok? ==> r.Unauthorized?
    ensures r.Ok? ==> r.value == Session(db.users[email].username, email, db.users[email].location)
  {
    if email !in db.users then Unauthorized("User not found")
    else if db.users[email].password != password then Unauthorized("Incorrect password")
    else
      var user := db.users[email];
      Ok(Session(user.username, email, user.location))
  }

  // ---------------------------------------------------------------- items

  /** POST /additem: the new item gets the next ObjectId and the default quantity. */
  function AddItem(db: Db, itemname: string, price: Option<int>, protein: string, seller: Option<string>, location: string)
    : (o: Outcome<(ObjectId, Item)>)
    ensures o.response.BadRequest? <==> !Given(itemname) || price.None? || !Given(protein) || !Given(location)
    ensures o.response.Ok? || o.response.BadRequest?
    ensures !o.response.Ok? ==> o.state == db
    ensures o.response.Ok? ==>
      && o.response.value.0 == db.nextId
      && o.response.value.1 == Item(itemname, price.value, protein, seller, location, DefaultQuantity)
      && o.state == db.(items := db.items[db.nextId := o.response.value.1], nextId := db.nextId + 1)
  {
    if !Given(itemname) || price.None? || !Given(protein) || !Given(location) then
      Outcome(db, BadRequest("Required fields are missing"))
    else
      var item := NewItem(itemname, price.value, protein, seller, location);
      Outcome(db.(items := db.items[db.nextId := item], nextId := db.nextId + 1), Ok((db.nextId, item)))
  }

  // ---------------------------------------------------------------- cart

  /** getPopulatedCartByEmail: the user's cart, or null for an unknown email.
      Populating the references reads the items and changes nothing. */
  function GetPopulatedCart(db: Db, email: string): (r: Option<Cart>)
    ensures r.Some? <==> email in db.users
    ensures r.Some? ==> r.value == db.users[email].cart
  {
    if email in db.users then Some(db.users[email].cart) else None
  }

  /** The database with one user's cart replaced. */
  function WithCart(db: Db, email: string, cart: Cart): Db
    requires email in db.users
  {
    db.(users := db.users[email := db.users[email].(cart := cart)])
  }

  /** POST /addtocart: 400, then 404 for the item before any user lookup,
      then the `$inc`-or-`$push` upsert, then 404 for an unknown user. */
  function AddToCart(db: Db, email: string, itemId: Option<ObjectId>): (o: Outcome<Cart>)
    ensures o.response == BadRequest("Email and Item ID are required") <==> !Given(email) || itemId.None?
    ensures o.response == NotFound("Item not found") <==>
      Given(email) && itemId.Some? && itemId.value !in db.items
    ensures o.response == NotFound("User not found") <==>
      Given(email) && itemId.Some? && itemId.value in db.items && email !in db.users
    ensures o.response.Ok? <==> Given(email) && itemId.Some? && itemId.value in db.items && email in db.users
    ensures !o.response.Ok? ==> o.state == db
    ensures o.response.Ok? ==>
      && email in db.users
      && o.response.value == AddOne(db.users[email].cart, itemId.value)
      && o.state == WithCart(db, email, o.response.value)
  {
    if !Given(email) || itemId.None? then
      Outcome(db, BadRequest("Email and Item ID are required"))
    else if itemId.value !in db.items then
      Outcome(db, NotFound("Item not found"))
    else if email !in db.users then
      Outcome(db, NotFound("User not found"))
    else
      var cart := AddOne(db.users[email].cart, itemId.value);
      Outcome(WithCart(db, email, cart), Ok(cart))
  }

  /** POST /removefromcart: `$pull` of every line for the item; 404 only for an unknown user. */
  function RemoveFromCart(db: Db, email: string, itemId: Option<ObjectId>): (o: Outcome<Cart>)
    ensures o.response == BadRequest("Email and Item ID are required") <==> !Given(email) || itemId.None?
    ensures o.response == NotFound("User not found") <==> Given(email) && itemId.Some? && email !in db.users
    ensures o.response.Ok? <==> Given(email) && itemId.Some? && email in db.users
    ensures !o.response.Ok? ==> o.state == db
    ensures o.response.Ok? ==>
      && email in db.users
      && o.response.value == Pull(db.users[email].cart, itemId.value)
      && o.state == WithCart(db, email, o.response.value)
  {
    if !Given(email) || itemId.None? then
      Outcome(db, BadRequest("Email and Item ID are required"))
    else if email !in db.users then
      Outcome(db, NotFound("User not found"))
    else
      var cart := Pull(db.users[email].cart, itemId.value);
      Outcome(WithCart(db, email, cart), Ok(cart))
  }

  /** POST /updatecartquantity. A quantity of 0 or less pulls the line. A
      positive one is `$set` on the first line for the item, and when there is
      no such line the filter matches no user and the answer is 404 "User not
      found". After the `$set` the handler looks for the line among the
      populated ones; a line whose item is gone does not populate, and then
      the handler pushes a second line for the item. */
  function SetCartQuantity(db: Db, email: string, itemId: Option<ObjectId>, newQuantity: Option<int>): (o: Outcome<Cart>)
    ensures o.response == BadRequest("Email, Item ID and newQuantity are required") <==>
      !Given(email) || itemId.None? || newQuantity.None?
    ensures o.response == NotFound("User not found") <==>
      && Given(email) && itemId.Some? && newQuantity.Some?
      && (email !in db.users || (newQuantity.value > 0 && !HasLine(db.users[email].cart, itemId.value)))
    ensures o.response.Ok? <==>
      && Given(email) && itemId.Some? && newQuantity.Some? && email in db.users
      && (newQuantity.value <= 0 || HasLine(db.users[email].cart, itemId.value))
    ensures !o.response.Ok? ==> o.state == db
    ensures o.response.Ok? ==> email in db.users && o.state == WithCart(db, email, o.response.value)
    ensures o.response.Ok? && newQuantity.value <= 0 ==>
      o.response.value == Pull(db.users[email].cart, itemId.value)
    ensures o.response.Ok? && newQuantity.value > 0 ==>
      && HasLine(db.users[email].cart, itemId.value)
      && o.response.value == SetFirst(db.users[email].cart, itemId.value, newQuantity.value)
           + (if itemId.value in db.items then [] else [CartLine(itemId.value, newQuantity.value)])
  {
    if !Given(email) || itemId.None? || newQuantity.None? then
      Outcome(db, BadRequest("Email, Item ID and newQuantity are required"))
    else
      var id, q := itemId.value, newQuantity.value;
      if q <= 0 then
        if email !in db.users then Outcome(db, NotFound("User not found"))
        else
          var cart := Pull(db.users[email].cart, id);
          Outcome(WithCart(db, email, cart), Ok(cart))
      else if email !in db.users || !HasLine(db.users[email].cart, id) then
        Outcome(db, NotFound("User not found"))
      else
        var updated := SetFirst(db.users[email].cart, id, q);
        var populated := id in db.items;
        var cart := if populated then updated else updated + [CartLine(id, q)];
        Outcome(WithCart(db, email, cart), Ok(cart))
  }

  // ---------------------------------------------------------------- checkout

  /** POST /placeorder: 400 without an email, 404 for an unknown user, 400 for
      an empty cart, 500 when a cart line's item cannot be populated; otherwise
      a new Pending order priced from the items, and an emptied cart. */
  function PlaceOrder(db: Db, email: string): (o: Outcome<ObjectId>)
    ensures o.response == BadRequest("Email is required") <==> !Given(email)
    ensures o.response == NotFound("User not found") <==> Given(email) && email !in db.users
    ensures o.response == BadRequest("Cart is empty") <==>
      Given(email) && email in db.users && db.users[email].cart == []
    ensures o.response == ServerError("Server error placing order") <==>
      Given(email) && email in db.users && db.users[email].cart != [] && !Resolvable(db.users[email].cart, db.items)
    ensures o.response.Ok? <==>
      Given(email) && email in db.users && db.users[email].cart != [] && Resolvable(db.users[email].cart, db.items)
    ensures !o.response.Ok? ==> o.state == db
    ensures o.response.Ok? ==>
      && email in db.users
      && Resolvable(db.users[email].cart, db.items)
      && o.response.value == db.nextId
      && o.state.nextId == db.nextId + 1
      && o.state.items == db.items
      && o.state.users == db.users[email := db.users[email].(cart := [])]
      && db.nextId in o.state.orders
      && o.state.orders == db.orders[db.nextId := o.state.orders[db.nextId]]
  {
    if !Given(email) then
      Outcome(db, BadRequest("Email is required"))
    else if email !in db.users then
      Outcome(db, NotFound("User not found"))
    else
      var cart := db.users[email].cart;
      if |cart| == 0 then
        Outcome(db, BadRequest("Cart is empty"))
      else if !Resolvable(cart, db.items) then
        Outcome(db, ServerError("Server error placing order"))
      else
        var lines := Snapshot(cart, db.items);
        var order := NewOrder(email, lines, Total(lines));
        var db' := db.(
          orders := db.orders[db.nextId := order],
          users := db.users[email := db.users[email].(cart := [])],
          nextId := db.nextId + 1);
        Outcome(db', Ok(db.nextId))
  }

  // ---------------------------------------------------------------- order lifecycle

  /** POST /acceptorder: overwrites the status, whatever it was. */
  function AcceptOrder(db: Db, orderId: Option<ObjectId>): (o: Outcome<Order>)
    ensures o.response == BadRequest("Order ID is required") <==> orderId.None?
    ensures o.response == NotFound("Order not found") <==> orderId.Some? && orderId.value !in db.orders
    ensures o.response.Ok? <==> orderId.Some? && orderId.value in db.orders
    ensures !o.response.Ok? ==> o.state == db
    ensures o.response.Ok? ==>
      && orderId.value in db.orders
      && o.state == db.(orders := db.orders[orderId.value := o.response.value])
      && o.response.value == db.orders[orderId.value].(status := Accepted)
  {
    if orderId.None? then
      Outcome(db, BadRequest("Order ID is required"))
    else if orderId.value !in db.orders then
      Outcome(db, NotFound("Order not found"))
    else
      var updated := db.orders[orderId.value].(status := Accepted);
      Outcome(db.(orders := db.orders[orderId.value := updated]), Ok(updated))
  }

  /** POST /sendlocation: sets only the delivery location. */
  function SendLocation(db: Db, orderId: Option<ObjectId>, location: string): (o: Outcome<Order>)
    ensures o.response == BadRequest("Order ID and location are required") <==> orderId.None? || !Given(location)
    ensures o.response == NotFound("Order not found") <==>
      orderId.Some? && Given(location) && orderId.value !in db.orders
    ensures o.response.Ok? <==> orderId.Some? && Given(location) && orderId.value in db.orders
    ensures !o.response.Ok? ==> o.state == db
    ensures o.response.Ok? ==>
      && orderId.value in db.orders
      && o.state == db.(orders := db.orders[orderId.value := o.response.value])
      && o.response.value == db.orders[orderId.value].(deliveryLocation := Some(location))
  {
    if orderId.None? || !Given(location) then
      Outcome(db, BadRequest("Order ID and location are required"))
    else if orderId.value !in db.orders then
      Outcome(db, NotFound("Order not found"))
    else
      var updated := db.orders[orderId.value].(deliveryLocation := Some(location));
      Outcome(db.(orders := db.orders[orderId.value := updated]), Ok(updated))
  }

  // ---------------------------------------------------------------- read-only queries

  /** `Item.find({seller: sellerEmail})`: the ids of the items listed by that email. */
  function SellerItemIds(db: Db, sellerEmail: string): set<ObjectId> {
    set id | id in db.items && db.items[id].seller == Some(sellerEmail)
  }

  /** `"items.productId": {$in: ids}`: some line of the order is for one of the ids. */
  predicate Touches(o: Order, ids: set<ObjectId>) {
    exists i :: 0 <= i < |o.lines| && o.lines[i].productId in ids
  }

  /** The pending orders a seller has received, by the definition the count uses. */
  function PendingOrdersFor(db: Db, sellerEmail: string): set<ObjectId> {
    set id | id in db.orders && db.orders[id].status == Pending && Touches(db.orders[id], SellerItemIds(db, sellerEmail))
  }

  /** GET /receivedorders/pending-count/:sellerEmail. The early answer 0 for a
      seller without items agrees with the general count. */
  function PendingCount(db: Db, sellerEmail: string): (r: Response<nat>)
    ensures r.BadRequest? <==> !Given(sellerEmail)
    ensures r.Ok? <==> Given(sellerEmail)
    ensures r.Ok? ==> r.value == |PendingOrdersFor(db, sellerEmail)|
    ensures r.Ok? && SellerItemIds(db, sellerEmail) == {} ==> r.value == 0
  {
    if !Given(sellerEmail) then BadRequest("Seller email is required")
    else
      var ids := SellerItemIds(db, sellerEmail);
      if |ids| == 0 then
        assert PendingOrdersFor(db, sellerEmail) == {};
        Ok(0)
      else
        var pending := set id | id in db.orders && db.orders[id].status == Pending && Touches(db.orders[id], ids);
        assert pending == PendingOrdersFor(db, sellerEmail);
        Ok(|pending|)
  }

  /** GET /receivedorders/:sellerEmail: every order with a line for one of the
      seller's items, whatever its status; 404 when the seller is not a user. */
  function ReceivedOrders(db: Db, sellerEmail: string): (r: Response<map<ObjectId, Order>>)
    ensures r.BadRequest? <==> !Given(sellerEmail)
    ensures r.NotFound? <==> Given(sellerEmail) && sellerEmail !in db.users
    ensures r.Ok? <==> Given(sellerEmail) && sellerEmail in db.users
    ensures r.Ok? ==> forall id :: id in r.value <==>
      id in db.orders && Touches(db.orders[id], SellerItemIds(db, sellerEmail))
    ensures r.Ok? ==> forall id :: id in r.value ==> r.value[id] == db.orders[id]
  {
    if !Given(sellerEmail) then BadRequest("Seller email is required")
    else if sellerEmail !in db.users then NotFound("Seller not found")
    else
      var ids := SellerItemIds(db, sellerEmail);
      if |ids| == 0 then Ok(map[])
      else Ok(map id | id in db.orders && Touches(db.orders[id], ids) :: db.orders[id])
  }

  /** GET /userorders/:userEmail: the orders whose owner is that user. */
  function UserOrders(db: Db, userEmail: string): (r: Response<map<ObjectId, Order>>)
    ensures r.BadRequest? <==> !Given(userEmail)
    ensures r.NotFound? <==> Given(userEmail) && userEmail !in db.users
    ensures r.Ok? <==> Given(userEmail) && userEmail in db.users
    ensures r.Ok? ==> forall id :: id in r.value <==> id in db.orders && db.orders[id].user == userEmail
    ensures r.Ok? ==> forall id :: id in r.value ==> r.value[id] == db.orders[id]
  {
    if !Given(userEmail) then BadRequest("User email is required")
    else if userEmail !in db.users then NotFound("User not found")
    else Ok(map id | id in db.orders && db.orders[id].user == userEmail :: db.orders[id])
  }

  /** The fields GET /profile/:email answers with. */
  datatype ProfileView = ProfileView(
    username: string,
    email: string,
    location: string,
    cart: Cart,
    nearbyItems: map<ObjectId, Item>)

  /** GET /profile/:email: the user's data and the items listed at the user's
      location by anyone else (items without a seller included). */
  function Profile(db: Db, email: string): (r: Response<ProfileView>)
    ensures r.Ok? <==> email in db.users
    ensures !r.Ok? ==> r == NotFound("User not found")
    ensures r.Ok? ==> r.value.username == db.users[email].username && r.value.email == email
    ensures r.Ok? ==> r.value.cart == db.users[email].cart && r.value.location == db.users[email].location
    ensures r.Ok? ==> forall id :: id in r.value.nearbyItems <==>
      && id in db.items
      && db.items[id].location == db.users[email].location
      && db.items[id].seller != Some(email)
    ensures r.Ok? ==> forall id :: id in r.value.nearbyItems ==> r.value.nearbyItems[id] == db.items[id]
  {
    if email !in db.users then NotFound("User not found")
    else
      var user := db.users[email];
      var nearby := map id | id in db.items && db.items[id].location == user.location && db.items[id].seller != Some(email)
                    :: db.items[id];
      Ok(ProfileView(user.username, email, user.location, user.cart, nearby))
  }

  // ---------------------------------------------------------------- the router

  /** The requests that write to the database. */
  datatype Request =
    | PostRegister(username: string, email: string, password: string, location: string)
    | PostAddItem(itemname: string, price: Option<int>, protein: string, seller: Option<string>, location: string)
    | PostAddToCart(email: string, itemId: Option<ObjectId>)
    | PostRemoveFromCart(email: string, itemId: Option<ObjectId>)
    | PostUpdateCartQuantity(email: string, itemId: Option<ObjectId>, newQuantity: Option<int>)
    | PostPlaceOrder(email: string)
    | PostAcceptOrder(orderId: Option<ObjectId>)
    | PostSendLocation(orderId: Option<ObjectId>, location: string)

  /** The database after one request. */
  function Step(db: Db, req: Request): Db {
    match req
    case PostRegister(username, email, password, location) => Register(db, username, email, password, location).state
    case PostAddItem(itemname, price, protein, seller, location) => AddItem(db, itemname, price, protein, seller, location).state
    case PostAddToCart(email, itemId) => AddToCart(db, email, itemId).state
    case PostRemoveFromCart(email, itemId) => RemoveFromCart(db, email, itemId).state
    case PostUpdateCartQuantity(email, itemId, q) => SetCartQuantity(db, email, itemId, q).state
    case PostPlaceOrder(email) => PlaceOrder(db, email).state
    case PostAcceptOrder(orderId) => AcceptOrder(db, orderId).state
    case PostSendLocation(orderId, location) => SendLocation(db, orderId, location).state
  }

  /** The database after a sequence of requests, served one at a time. */
  function Run(db: Db, reqs: seq<Request>): Db
    decreases |reqs|
  {
    if reqs == [] then db else Run(Step(db, reqs[0]), reqs[1..])
  }
}
