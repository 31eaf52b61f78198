// The MongoDB update operators that the cart routes of index.js apply to a
// user's cart array, as functions on the sequence of lines:
//   `$inc: {"cart.$.quantity": 1}` and `$set: {"cart.$.quantity": q}` act on
//   the first line whose productId matches the filter (the positional `$`),
//   `$push` appends a line and `$pull` drops every matching line.
module CartUpdates {
  import opened Common
  import opened UserSchema

  type Cart = seq<CartLine>

  /** The ids of the items a cart refers to. */
  function Products(cart: Cart): set<ObjectId> {
    set i | 0 <= i < |cart| :: cart[i].productId
  }

  /** The filter `"cart.productId": id` matches this cart. */
  predicate HasLine(cart: Cart, id: ObjectId) {
    id in Products(cart)
  }

  /** No two lines share a productId. */
  predicate NoDup(cart: Cart) {
    forall i, j :: 0 <= i < j < |cart| ==> cart[i].productId != cart[j].productId
  }

  /** Every line respects the schema's `min: 1`. */
  predicate Positive(cart: Cart) {
    forall i :: 0 <= i < |cart| ==> cart[i].quantity >= MinLineQuantity
  }

  lemma ProductsCons(cart: Cart)
    requires |cart| > 0
    ensures Products(cart) == {cart[0].productId} + Products(cart[1..])
  {
    forall x | x in Products(cart) ensures x in {cart[0].productId} + Products(cart[1..]) {
      var i :| 0 <= i < |cart| && cart[i].productId == x;
      if i > 0 {
        assert cart[1..][i - 1] == cart[i];
      }
    }
    forall x | x in Products(cart[1..]) ensures x in Products(cart) {
      var i :| 0 <= i < |cart| - 1 && cart[1..][i].productId == x;
      assert cart[i + 1] == cart[1..][i];
    }
  }

  lemma ProductsSnoc(cart: Cart, line: CartLine)
    ensures Products(cart + [line]) == Products(cart) + {line.productId}
  {
    var c := cart + [line];
    assert c[|cart|] == line;
    forall x | x in Products(cart) ensures x in Products(c) {
      var i :| 0 <= i < |cart| && cart[i].productId == x;
      assert c[i] == cart[i];
    }
  }

  /** The line the positional operator `$` designates: the first match. */
  function FirstIndex(cart: Cart, id: ObjectId): (k: nat)
    requires HasLine(cart, id)
    ensures k < |cart| && cart[k].productId == id
    ensures forall j :: 0 <= j < k ==> cart[j].productId != id
  {
    ProductsCons(cart);
    if cart[0].productId == id then 0 else FirstIndex(cart[1..], id) + 1
  }

  /** The first match is the only index that is a match with no match before it. */
  lemma FirstIndexUnique(cart: Cart, id: ObjectId, k: nat)
    requires k < |cart| && cart[k].productId == id
    requires forall j :: 0 <= j < k ==> cart[j].productId != id
    ensures HasLine(cart, id) && FirstIndex(cart, id) == k
  {
    assert cart[k].productId in Products(cart);
  }

  /** How many of an item the cart holds, read the way the `$` operator reads
      it: the quantity of the first line for the item, 0 when it has none. */
  function Quantity(cart: Cart, id: ObjectId): int {
    if HasLine(cart, id) then cart[FirstIndex(cart, id)].quantity else 0
  }

  /** Two carts that list the same items in the same positions designate the
      same first line for every item. */
  lemma SameKeysSameFirst(a: Cart, b: Cart, x: ObjectId)
    requires |a| == |b| && forall j :: 0 <= j < |a| ==> a[j].productId == b[j].productId
    ensures HasLine(a, x) <==> HasLine(b, x)
    ensures HasLine(a, x) ==> FirstIndex(a, x) == FirstIndex(b, x)
  {
    if HasLine(a, x) {
      FirstIndexUnique(b, x, FirstIndex(a, x));
    }
    if HasLine(b, x) {
      FirstIndexUnique(a, x, FirstIndex(b, x));
    }
  }

  /** `$set: {"cart.$.quantity": q}` with the filter `"cart.productId": id`:
      the first line for `id` now holds q, and nothing else changes. */
  function SetFirst(cart: Cart, id: ObjectId, q: int): (r: Cart)
    requires HasLine(cart, id)
    ensures |r| == |cart| && forall j :: 0 <= j < |r| ==> r[j].productId == cart[j].productId
    ensures r[FirstIndex(cart, id)].quantity == q
    ensures forall j :: 0 <= j < |r| && j != FirstIndex(cart, id) ==> r[j] == cart[j]
    ensures Products(r) == Products(cart)
    ensures Quantity(r, id) == q
    ensures forall x :: x != id ==> Quantity(r, x) == Quantity(cart, x)
  {
    var k := FirstIndex(cart, id);
    var r := cart[k := CartLine(id, q)];
    assert forall x :: HasLine(cart, x) ==> HasLine(r, x) && FirstIndex(r, x) == FirstIndex(cart, x) by {
      forall x | HasLine(cart, x) ensures HasLine(r, x) && FirstIndex(r, x) == FirstIndex(cart, x) {
        SameKeysSameFirst(cart, r, x);
      }
    }
    assert forall x :: HasLine(r, x) <==> HasLine(cart, x) by {
      forall x ensures HasLine(r, x) <==> HasLine(cart, x) {
        SameKeysSameFirst(cart, r, x);
      }
    }
    r
  }

  /** `$inc: {"cart.$.quantity": 1}` with the filter `"cart.productId": id`:
      the first line for `id` gains one in place, and nothing else changes. */
  function IncFirst(cart: Cart, id: ObjectId): (r: Cart)
    requires HasLine(cart, id)
    ensures |r| == |cart|
    ensures r[FirstIndex(cart, id)] == CartLine(id, cart[FirstIndex(cart, id)].quantity + 1)
    ensures forall j :: 0 <= j < |r| && j != FirstIndex(cart, id) ==> r[j] == cart[j]
    ensures Quantity(r, id) == Quantity(cart, id) + 1
    ensures forall x :: x != id ==> Quantity(r, x) == Quantity(cart, x)
  {
    SetFirst(cart, id, cart[FirstIndex(cart, id)].quantity + 1)
  }

  /** What /addtocart does to a cart: `$inc` on the first line for the item,
      or, when that modified nothing, `$push` of a new line of quantity 1. */
  function AddOne(cart: Cart, id: ObjectId): (r: Cart)
    ensures HasLine(cart, id) ==>
      && |r| == |cart|
      && r[FirstIndex(cart, id)] == CartLine(id, cart[FirstIndex(cart, id)].quantity + 1)
      && forall j :: 0 <= j < |r| && j != FirstIndex(cart, id) ==> r[j] == cart[j]
    ensures !HasLine(cart, id) ==> r == cart + [CartLine(id, 1)]
    ensures Products(r) == Products(cart) + {id}
    ensures Quantity(r, id) == Quantity(cart, id) + 1
    ensures forall x :: x != id ==> Quantity(r, x) == Quantity(cart, x)
  {
    if HasLine(cart, id) then
      IncFirst(cart, id)
    else
      var line := CartLine(id, 1);
      var r := cart + [line];
      ProductsSnoc(cart, line);
      FirstIndexUnique(r, id, |cart|);
      assert forall x :: x != id ==> Quantity(r, x) == Quantity(cart, x) by {
        forall x | x != id ensures Quantity(r, x) == Quantity(cart, x) {
          if HasLine(cart, x) {
            var k := FirstIndex(cart, x);
            assert r[k] == cart[k];
            FirstIndexUnique(r, x, k);
          }
        }
      }
      r
  }

  /** `$pull: {cart: {productId: id}}`: every line for `id` goes, the other
      lines stay in their order with their quantities. */
  function Pull(cart: Cart, id: ObjectId): (r: Cart)
    ensures Products(r) == Products(cart) - {id}
    ensures |r| <= |cart|
    ensures forall i :: 0 <= i < |r| ==> r[i] in cart
    ensures !HasLine(cart, id) ==> r == cart
  {
    if cart == [] then []
    else
      ProductsCons(cart);
      var rest := Pull(cart[1..], id);
      if cart[0].productId == id then rest
      else
        var r := [cart[0]] + rest;
        ProductsCons(r);
        assert r[1..] == rest;
        assert forall i :: 0 <= i < |r| ==> r[i] in cart by {
          forall i | 0 <= i < |r| ensures r[i] in cart {
            if i > 0 {
              assert r[i] == rest[i - 1];
              assert rest[i - 1] in cart[1..];
            }
          }
        }
        assert !HasLine(cart, id) ==> r == cart by {
          if !HasLine(cart, id) {
            assert [cart[0]] + cart[1..] == cart;
          }
        }
        r
  }

  /** `$pull` on a single line: the line goes exactly when it is for `id`. */
  lemma PullSingle(line: CartLine, id: ObjectId)
    ensures Pull([line], id) == if line.productId == id then [] else [line]
  {
    assert [line][1..] == [];
  }

  /** `$pull` works line by line and keeps the order of the lines it keeps:
      pulling from two halves and joining the results is pulling from the whole. */
  lemma {:induction false} PullAppend(a: Cart, b: Cart, id: ObjectId)
    ensures Pull(a + b, id) == Pull(a, id) + Pull(b, id)
  {
    if a == [] {
      assert a + b == b;
    } else {
      assert (a + b)[0] == a[0];
      assert (a + b)[1..] == a[1..] + b;
      PullAppend(a[1..], b, id);
    }
  }

  lemma NoDupCons(cart: Cart)
    requires |cart| > 0
    ensures NoDup(cart) <==> cart[0].productId !in Products(cart[1..]) && NoDup(cart[1..])
  {
    if NoDup(cart) {
      forall x | x in Products(cart[1..]) ensures x != cart[0].productId {
        var i :| 0 <= i < |cart| - 1 && cart[1..][i].productId == x;
        assert cart[i + 1] == cart[1..][i];
      }
      forall i, j | 0 <= i < j < |cart| - 1 ensures cart[1..][i].productId != cart[1..][j].productId {
        assert cart[1..][i] == cart[i + 1] && cart[1..][j] == cart[j + 1];
      }
    }
    if cart[0].productId !in Products(cart[1..]) && NoDup(cart[1..]) {
      forall i, j | 0 <= i < j < |cart| ensures cart[i].productId != cart[j].productId {
        assert cart[j] == cart[1..][j - 1];
        if i > 0 {
          assert cart[i] == cart[1..][i - 1];
        }
      }
    }
  }

  /** Reading a cart line by line: the quantity of an item is that of the head
      line if it is for that item, otherwise what the rest of the cart holds. */
  lemma QuantityCons(cart: Cart, x: ObjectId)
    requires |cart| > 0
    ensures Quantity(cart, x) == if cart[0].productId == x then cart[0].quantity else Quantity(cart[1..], x)
  {
    ProductsCons(cart);
    if cart[0].productId == x {
      FirstIndexUnique(cart, x, 0);
    } else if HasLine(cart, x) {
      var k := FirstIndex(cart[1..], x);
      assert cart[k + 1] == cart[1..][k];
      FirstIndexUnique(cart, x, k + 1);
    }
  }

  /** /addtocart keeps a cart well formed: still one line per item, every
      quantity still at least 1. */
  lemma AddOneKeepsWellFormed(cart: Cart, id: ObjectId)
    requires NoDup(cart) && Positive(cart)
    ensures NoDup(AddOne(cart, id)) && Positive(AddOne(cart, id))
  {
    var r := AddOne(cart, id);
    if HasLine(cart, id) {
      var k := FirstIndex(cart, id);
      assert forall j :: 0 <= j < |r| ==> r[j].productId == cart[j].productId by {
        forall j | 0 <= j < |r| ensures r[j].productId == cart[j].productId {
          if j == k {
            assert r[k].productId == id;
          }
        }
      }
    } else {
      forall i, j | 0 <= i < j < |r| ensures r[i].productId != r[j].productId {
        if j == |cart| {
          assert r[i] == cart[i];
          assert cart[i].productId in Products(cart);
        }
      }
    }
  }

  /** $pull keeps a cart well formed, empties it of `id` and leaves the
      quantity of every other item as it was. */
  lemma {:induction false} PullKeepsWellFormed(cart: Cart, id: ObjectId)
    requires NoDup(cart) && Positive(cart)
    ensures NoDup(Pull(cart, id)) && Positive(Pull(cart, id))
    ensures Quantity(Pull(cart, id), id) == 0
    ensures forall x :: x != id ==> Quantity(Pull(cart, id), x) == Quantity(cart, x)
  {
    var r := Pull(cart, id);
    assert !HasLine(r, id);
    if cart != [] {
      var rest := Pull(cart[1..], id);
      NoDupCons(cart);
      PullKeepsWellFormed(cart[1..], id);
      forall x | x != id ensures Quantity(r, x) == Quantity(cart, x) {
        QuantityCons(cart, x);
        if cart[0].productId != id {
          assert r[1..] == rest;
          QuantityCons(r, x);
        }
      }
      if cart[0].productId != id {
        assert r[1..] == rest;
        NoDupCons(r);
        ProductsCons(cart);
      }
    }
  }

  /** $set with a quantity of at least 1 keeps a cart well formed. */
  lemma SetFirstKeepsWellFormed(cart: Cart, id: ObjectId, q: int)
    requires HasLine(cart, id) && q >= MinLineQuantity
    requires NoDup(cart) && Positive(cart)
    ensures NoDup(SetFirst(cart, id, q)) && Positive(SetFirst(cart, id, q))
  {
  }

  /** Adding the same item twice to a cart that lacks it yields a single new
      line of quantity 2, not two lines. */
  lemma AddTwice(cart: Cart, id: ObjectId)
    requires !HasLine(cart, id)
    ensures AddOne(AddOne(cart, id), id) == cart + [CartLine(id, 2)]
  {
    var once := AddOne(cart, id);
    FirstIndexUnique(once, id, |cart|);
    assert once[|cart| := CartLine(id, 2)] == cart + [CartLine(id, 2)];
  }
}
