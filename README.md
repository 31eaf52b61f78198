# Order and cart bookkeeping of a food-marketplace backend, in Dafny

This project models the Express/Mongoose backend `index.js` of a peer-to-peer
food marketplace together with the three Mongoose models it loads
(`userSchema.js`, `ItemSchema.js`, `orderSchema.js`). Users register and log
in, list food items, fill a cart, check the cart out into an order, and sellers
accept orders and buyers attach a delivery location. The database is one
in-memory store with three tables:

- users keyed by email, each with a cart that is a sequence of `(productId, quantity)` lines;
- items keyed by ObjectId;
- orders keyed by ObjectId.

ObjectIds come from one counter (`nextId`), shared by items and orders.

Layout, one module per file:

| file | module | models |
|---|---|---|
| `common.dfy` | `Common` | ObjectId, optional fields, the HTTP outcome (200/400/401/404/409/500 with the handler's message) |
| `user_schema.dfy` | `UserSchema` | the user record, its cart line, its save-time validators |
| `item_schema.dfy` | `ItemSchema` | the item record, its default quantity 0, its validators |
| `order_schema.dfy` | `OrderSchema` | the order record, its line record, the status enum and defaults |
| `cart_updates.dfy` | `CartUpdates` | the MongoDB update operators the cart routes use: positional `$inc` and `$set`, `$push`, `$pull` |
| `checkout.dfy` | `Checkout` | the pricing pass of /placeorder: a loop that snapshots the cart into order lines and accumulates the total |
| `shop.dfy` | `Shop` | every route handler as a function from the database to (new database, response); the read-only routes; the invariant `Consistent` |
| `shop_properties.dfy` | `ShopProperties` | the lemmas: each writing route keeps `Consistent`, so does any sequence of requests, and the per-route promises |
| `server.dfy` | `Server` | class `Store`: the writing routes as methods that update the tables step by step, proved equal to the `Shop` functions |

The model follows the code, not a fuller shop:

- checkout neither reads nor changes item stock and adds no delivery charge;
- no route sets the status `Delivered`;
- /acceptorder overwrites the status whatever it was;
- the received-orders query neither filters by status nor sorts;
- /updatecartquantity with a positive quantity for an item that has no line in the cart answers 404 "User not found" and creates nothing.

The second `$push` of /updatecartquantity (index.js:182-193) is modelled as
written. The handler pushes when its lookup (index.js:179-181) finds no
populated line whose id string equals the request's `itemId`. The model
compares ids as ids, so in the model the push runs only when the updated
line's item no longer exists. `ShopProperties.SetQuantityNeverPushes` shows
that this never happens in a consistent database. The source compares strings
instead, so a request that spells an existing id differently also takes the
push (see "## Left out"). In the same way, `Shop.PlaceOrder` answers 500 when a
cart line's item is missing, because reading the price of a null reference
throws. `ShopProperties.PlaceOrderResolves` shows that this path is
unreachable too.

Request fields that the handlers test with `!field` are strings, and `""`
stands for absent. The ids `itemId` and `orderId` are also tested with `!`; they
are `Option`s, and `None` stands for an absent or empty id. `price` and
`newQuantity`, which are compared with null, are `Option`s too.

Username and password lengths are counted as JavaScript counts them, in UTF-16
code units (`UserSchema.Utf16Length`).

## Model

| member | source | states |
|---|---|---|
| `UserSchema.ValidUser` | userSchema.js:10-24 | the save-time validators: `minLength` 3 on username and 6 on password, in UTF-16 code units, and `min: 1` on each cart line; a name of at least 3 characters always passes, one that passes has at least 2 |
| `UserSchema.Utf16LengthBounds` | userSchema.js:22 | a string has between one and two UTF-16 code units per character |
| `UserSchema.NewUser` | userSchema.js:20-27 | a new user takes the request's username, password and location, and starts with an empty cart |
| `ItemSchema.ValidItem` | ItemSchema.js:8-32 | the save-time validators: itemname, protein and location required, quantity at least 0; an item with the default quantity passes exactly when its required strings are non-empty |
| `ItemSchema.NewItem` | ItemSchema.js:27-32 | a new item takes the request's fields and the default quantity 0, and passes validation exactly when its required strings are non-empty |
| `OrderSchema.NewOrder` | orderSchema.js:34-42 | a new order takes its owner, lines and total from the request, with status Pending and a null deliveryLocation by default |
| `CartUpdates.FirstIndex` | index.js:101-102 | the positional `$` designates the first line whose productId matches; no earlier line matches |
| `CartUpdates.SetFirst` | index.js:171-175 | `$set` on `cart.$.quantity`: the first matching line gets the new quantity, length, item order and every other line unchanged; the item's quantity becomes q and every other item's quantity is unchanged |
| `CartUpdates.IncFirst` | index.js:100-103 | `$inc` by 1 on the first matching line: that line gains exactly 1 in place; the length and every other line are unchanged; no other item's quantity changes |
| `CartUpdates.AddOne` | index.js:99-111 | upsert: with a line for the item, its first line gains 1 in place, length unchanged, no other line changes; without one, `(item, 1)` is appended at the end; the item set gains the item; no other item's quantity changes |
| `CartUpdates.Pull` | index.js:134-138 | `$pull` removes every line for the item, keeps only lines of the old cart, and is the identity when no line matches |
| `CartUpdates.PullSingle` | index.js:136 | on a single line, `$pull` drops the line exactly when its productId is the item |
| `CartUpdates.PullAppend` | index.js:134-138 | `$pull` works line by line and keeps the order of the remaining lines: pulling from `a + b` is pulling from `a` followed by pulling from `b` |
| `CartUpdates.AddOneKeepsWellFormed` | index.js:99-111 | adding to a cart keeps one line per item and every quantity at least 1 |
| `CartUpdates.PullKeepsWellFormed` | index.js:134-138 | `$pull` keeps one line per item and quantities at least 1, removes the item entirely and keeps every other item's quantity |
| `CartUpdates.SetFirstKeepsWellFormed` | index.js:171-175 | `$set` with a quantity of at least 1 keeps one line per item and every quantity at least 1 |
| `CartUpdates.AddTwice` | index.js:99-111 | adding an absent item twice gives one new line of quantity 2, not two lines |
| `Checkout.Snapshot` | index.js:219-227 | the order lines built from the cart: one per cart line |
| `Checkout.Total` | index.js:218-221 | Σ price × quantity over the order lines; lines with non-negative prices and quantities give a non-negative total |
| `Checkout.SnapshotAt` | index.js:219-227 | order line k carries cart line k's productId and quantity and the item's current price |
| `Checkout.SnapshotCart` | index.js:218-227 | the loop over the cart succeeds exactly when every line's item exists, and then yields exactly the snapshot lines and the total Σ price × quantity |
| `Shop.Register` | index.js:26-42 | 400 when a field is empty; 409 when the email exists; 500 when the username is shorter than 3 or the password shorter than 6 UTF-16 code units; 200 exactly otherwise, adding the new user with an empty cart; no change on any error |
| `Shop.Login` | index.js:44-60 | 200 exactly when the email is registered and the stored password equals the supplied one, answering the stored username and location; every other answer is 401 |
| `Shop.AddItem` | index.js:63-77 | 400 and no change when itemname, protein or location is empty or price is null; otherwise the item with quantity 0 is stored under the next fresh id |
| `Shop.GetPopulatedCart` | index.js:80-84 | finds a cart exactly when the email is registered, and the cart found is the user's stored cart |
| `Shop.AddToCart` | index.js:87-124 | 400 for missing fields; 404 "Item not found" for a missing item whatever the user; 404 "User not found" only after the item exists; 200 exactly for a complete request naming an existing item and user; no change on any error; on success the user's cart becomes the upsert and is returned |
| `Shop.RemoveFromCart` | index.js:127-150 | 400 for missing fields; 404 only for an unknown user; 200 exactly for a complete request from a registered user, whether or not the line exists; no change on error; on success the cart becomes the `$pull` |
| `Shop.SetCartQuantity` | index.js:153-200 | 400 for missing fields; 404 "User not found" for an unknown user or a positive quantity on an absent line; 200 exactly for a registered user with a quantity of 0 or less or a line for the item; no change on error; a quantity of 0 or less pulls the line; a positive quantity is the `$set` on the first line for the item, followed, when the item does not populate, by the pushed second line `(item, quantity)` |
| `Shop.PlaceOrder` | index.js:203-250 | 400 without email, 404 for an unknown user, 400 for an empty cart, 500 when a line's item is missing, with no change in each case; 200 exactly otherwise, with one order under the next id, items unchanged, the cart emptied |
| `Shop.AcceptOrder` | index.js:253-279 | 400 without id, 404 for an unknown order, no change on error; 200 exactly for an existing order, whatever its status, and then only that order's status changes, to Accepted |
| `Shop.SendLocation` | index.js:282-308 | 400 without id or location, 404 for an unknown order, no change on error; 200 exactly for an existing order and a given location, and then only that order's deliveryLocation changes |
| `Shop.PendingCount` | index.js:314-336 | the count is the number of Pending orders with a line for one of the seller's items; the early 0 for a seller without items agrees with it |
| `Shop.ReceivedOrders` | index.js:339-374 | 404 for a seller who is not a user; otherwise exactly the orders with a line for one of the seller's items, any status |
| `Shop.UserOrders` | index.js:376-397 | 404 for an unknown user; otherwise exactly the orders owned by that user |
| `Shop.Profile` | index.js:401-424 | 404 for an unknown user; otherwise the stored username, the email, the location, the stored cart, and exactly the items at the user's location whose seller is not the user, items without a seller included |
| `ShopProperties.RegisterKeepsConsistent` | userSchema.js:20-29 | registration keeps every stored user valid and every email non-empty and unique |
| `ShopProperties.AddItemKeepsConsistent` | ItemSchema.js:3-33 | a stored item has its required fields, quantity 0 and a fresh id |
| `ShopProperties.AddToCartKeepsConsistent` | index.js:96-111 | adding to a cart keeps every cart well formed and referring to existing items |
| `ShopProperties.RemoveFromCartKeepsConsistent` | index.js:134-138 | removing from a cart keeps every cart well formed |
| `ShopProperties.SetQuantityNeverPushes` | index.js:171-193 | in a consistent database a successful positive update is exactly the `$set`: the second `$push` never runs |
| `ShopProperties.SetCartQuantityKeepsConsistent` | index.js:161-186 | setting a quantity keeps every cart well formed |
| `ShopProperties.PlaceOrderResolves` | index.js:218-227 | in a consistent database a non-empty cart of a registered user always checks out: the 500 path is unreachable |
| `ShopProperties.PlaceOrderEffect` | index.js:218-244 | exactly one new order under a fresh id: buyer's, Pending, null location, lines mirroring the cart in order at the current prices, total Σ price × quantity; cart emptied; items and other orders unchanged |
| `ShopProperties.PlacedOrderOk` | index.js:218-234 | the order a checkout builds from a well-formed cart belongs to a registered user, has lines for existing items with quantities of at least 1 at their current prices, and its total is the lines' sum |
| `ShopProperties.PlaceOrderSteps` | index.js:229-239 | a successful checkout is the cart cleared and the new order stored under the next id |
| `ShopProperties.PlaceOrderKeepsConsistent` | orderSchema.js:19-43 | a stored order has an owner, lines with productId, quantity and price, a total equal to its lines' sum, and status Pending or Accepted |
| `ShopProperties.AcceptOrderKeepsConsistent` | index.js:261-265 | accepting keeps the database consistent and leaves lines and totals alone |
| `ShopProperties.SendLocationKeepsConsistent` | index.js:290-294 | sending a location keeps the database consistent and leaves lines and totals alone |
| `ShopProperties.StepKeepsConsistent` | index.js:26-308 | every writing route keeps the database consistent and never undoes a user's credentials and location, an item, or an order's owner, lines and total |
| `ShopProperties.StepKeepsOrderFields` | orderSchema.js:34-42 | no request deletes an order; only /acceptorder writes a status and only /sendlocation a delivery location |
| `ShopProperties.RunKeepsConsistent` | orderSchema.js:25-29 | any sequence of requests keeps the database consistent; users, items, order lines and totals are never undone |
| `ShopProperties.ReachableInvariants` | orderSchema.js:34-38 | in every reachable database no order is Delivered, every item has quantity 0, and every cart has one line per item, quantities at least 1 and only existing items |
| `ShopProperties.AddToCartUpserts` | index.js:99-111 | the /addtocart upsert on a consistent database, and the cart keeps one line per item |
| `ShopProperties.AddToCartTwice` | index.js:99-111 | two /addtocart calls for an absent item answer a cart with one new line of quantity 2 |
| `ShopProperties.RemoveFromCartDrops` | index.js:129-140 | a registered user's removal answers 200; no line for the item remains, other items keep their quantities, and an absent line leaves the cart unchanged |
| `ShopProperties.SetQuantityNonPositiveIsRemove` | index.js:161-169 | a quantity of 0 or less gives the same database, status and cart as /removefromcart |
| `ShopProperties.SetQuantityPositive` | index.js:171-195 | a positive quantity sets the item's quantity to exactly that value, keeps the length and every other item's quantity |
| `ShopProperties.AcceptOrderIdempotent` | index.js:261-265 | accepting an order twice is accepting it once |
| `ShopProperties.RegisterThenLogin` | index.js:47-49 | right after registering, login succeeds exactly with the registered password |
| `ShopProperties.RegisterCountsCodeUnits` | userSchema.js:22 | a username of one letter and one emoji (3 UTF-16 code units, 2 characters) registers successfully |
| `ShopProperties.RegisterTwiceConflicts` | index.js:33-34 | registering an email a second time is 409 and changes nothing |
| `ShopProperties.PlaceOrderThenUserOrders` | index.js:389 | the order a checkout creates is listed among the buyer's orders |
| `Server.Store.constructor` | index.js:20-23 | the store starts empty and consistent |
| `Server.Store.Register` | index.js:26-42 | the step-by-step handler leaves the store and answers exactly as `Shop.Register`, and keeps the store consistent |
| `Server.Store.AddItem` | index.js:63-77 | the step-by-step handler leaves the store and answers exactly as `Shop.AddItem`, and keeps the store consistent |
| `Server.Store.AddToCart` | index.js:87-124 | `$inc` then, when nothing was modified, `$push`, then the lookup: exactly `Shop.AddToCart`; keeps the store consistent |
| `Server.Store.RemoveFromCart` | index.js:127-150 | exactly `Shop.RemoveFromCart`; keeps the store consistent |
| `Server.Store.UpdateCartQuantity` | index.js:153-200 | `$pull`, or `$set` then the populated lookup and the conditional `$push`: exactly `Shop.SetCartQuantity`; keeps the store consistent |
| `Server.Store.PlaceOrder` | index.js:203-250 | the pricing loop, the save of the order, then `$set cart: []`: exactly `Shop.PlaceOrder`; keeps the store consistent |
| `Server.Store.AcceptOrder` | index.js:253-279 | exactly `Shop.AcceptOrder`; keeps the store consistent |
| `Server.Store.SendLocation` | index.js:282-308 | exactly `Shop.SendLocation`; keeps the store consistent |

## Left out

- Express and CORS setup, `dotenv`, `mongoose.connect`, `app.listen` and console logging: I/O plumbing. The store's constructor stands for the connected, empty database.
- `.populate(...)` and the shaping of JSON responses. A returned cart is the stored cart. An order is returned as stored, without its user or items resolved. Populating never writes.
- `parseFloat` and floating-point sums: prices are integers (fixed-point money, already parsed). A price string that does not parse (NaN), and an empty-string price that passes the null check and then fails `required` at save, are not modelled.
- Concurrency between requests: each handler is one atomic step. This covers the two-step `$inc`-then-`$push` of /addtocart and checkout interleavings.
- Mongoose validators outside `save()`: `updateOne` and `findOneAndUpdate` run none. Quantities are integers, so a fractional `newQuantity`, which would slip past `min: 1`, is not modelled.
- The string comparison of ids at index.js:180 is modelled as equality of ids. The source compares the stored id's lower-case hex string with the raw request string. Mongoose casts an upper-case hex spelling of an existing id to the same ObjectId for the `$set` at index.js:171-175, but that spelling fails the comparison. So the source pushes a second line for an item already in the cart, even in a consistent database. The model, and with it `ShopProperties.SetQuantityNeverPushes` and the one-line-per-item part of `ShopProperties.ReachableInvariants`, holds only for requests that spell ids in canonical lower-case hex.
- Strings containing unpaired UTF-16 surrogates, which JavaScript allows, cannot be represented: Dafny strings are sequences of Unicode scalar values.
- ObjectId generation, casting and `Date.now`: ids come from a counter. A malformed id string (a cast error, answered 500) is not modelled. `orderDate` and the `timestamps` fields are omitted, since no route reads them.
- The order of `find` results, which MongoDB does not guarantee: query results are maps keyed by id.
- Type coercion of request bodies, such as a number sent as a string.
- The generic 500 answers that a failing database call would produce. The only 500s modelled are the save-time validation failure of /register and the null price read of /placeorder.
- /login with an absent email, which Mongoose may turn into an unfiltered query: an absent email is `""`, which matches no registered user.
- `Order.user` stores the owner's email rather than the user's ObjectId. Emails are unique and never change, so both identify the same user.
- The item's `photo` field, which no route reads.
- `UserSchema.js` and `OrderSchema.js` are not part of this model: index.js does not load them. Their extra fields, `workoutSplit` and `deliveryMethod`, are never read or written by a route.
