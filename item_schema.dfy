// The Item model (ItemSchema.js).
module ItemSchema {
  import opened Common

  /** A listing. The price is kept as already-parsed fixed-point money;
      `seller` is the seller's email, or absent. */
  datatype Item = Item(
    itemname: string,
    price: int,
    protein: string,
    seller: Option<string>,
    location: string,
    quantity: int)

  /** The schema default of `quantity`. */
  const DefaultQuantity: int := 0

  /** The validators Mongoose runs when an item is saved: the required
      strings are non-empty and the quantity respects `min: 0`. The default
      quantity always respects it. */
  function ValidItem(item: Item): (b: bool)
    ensures item.quantity == DefaultQuantity ==>
      (b <==> |item.itemname| > 0 && |item.protein| > 0 && |item.location| > 0)
    ensures b ==> item.quantity >= 0
  {
    |item.itemname| > 0 && |item.protein| > 0 && |item.location| > 0 && item.quantity >= 0
  }

  /** An item built from an /additem request, which never supplies a quantity:
      it takes the default, and it passes the validators exactly when its
      required strings are non-empty. */
  function NewItem(itemname: string, price: int, protein: string, seller: Option<string>, location: string): (r: Item)
    ensures r.quantity == DefaultQuantity
    ensures r.itemname == itemname && r.price == price && r.protein == protein && r.seller == seller && r.location == location
    ensures ValidItem(r) <==> |itemname| > 0 && |protein| > 0 && |location| > 0
  {
    Item(itemname, price, protein, seller, location, DefaultQuantity)
  }
}
