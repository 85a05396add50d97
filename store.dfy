/** The page's module-level cart (`let cart`). The add and quantity handlers
    update it in place; the remove click replaces it with a filtered copy.
    Each method follows its handler's branches and is proved to produce the
    cart value the matching function of `CartModel` describes. */
module Store {
  import opened CartModel
  import opened Totals

  class CartStore {
    var items: Cart

    /** The cart invariant holds of the current content. */
    ghost predicate Valid()
      reads this
    {
      WellFormed(items)
    }

    /** `let cart = loadCart()`: the cart starts as the already decoded saved
        content, the empty sequence when nothing was saved. */
    constructor (saved: Cart)
      ensures items == saved
      ensures saved == [] ==> Valid()
    {
      items := saved;
    }

    /** The "add to cart" click: one more of a product already in the cart
        (`existingItem.quantity += 1`), else a new line pushed at the end. */
    method AddToCart(id: string, name: string, price: int)
      modifies this
      ensures items == AddOrIncrement(old(items), id, name, price, PlaceholderImage)
      ensures ItemCount(items) == ItemCount(old(items)) + 1
      ensures Subtotal(items) == Subtotal(old(items)) + UnitPriceAdded(old(items), id, price)
      ensures old(Valid()) ==> Valid()
    {
      ghost var before := items;
      var existing := Find(items, id);
      if existing.Some? {
        var i := existing.value;
        items := items[i := items[i].(quantity := items[i].quantity + 1)];
      } else {
        items := items + [LineItem(id, name, price, 1, PlaceholderImage)];
      }
      AddItemCount(before, id, name, price, PlaceholderImage);
      AddSubtotal(before, id, name, price, PlaceholderImage);
      if WellFormed(before) {
        AddPreservesWellFormed(before, id, name, price, PlaceholderImage);
      }
    }

    /** The quantity input's change: a quantity of 0 or less is refused and
        the cart is left alone; otherwise the first line with the id gets the
        new quantity, and an unknown id changes nothing. */
    method ChangeQuantity(id: string, quantity: int)
      modifies this
      ensures items == SetQuantity(old(items), id, quantity)
      ensures quantity <= 0 || !HasId(old(items), id) ==> items == old(items)
      ensures old(Valid()) ==> Valid()
    {
      ghost var before := items;
      if quantity <= 0 {
        return;
      }
      var found := Find(items, id);
      if found.Some? {
        var i := found.value;
        items := items[i := items[i].(quantity := quantity)];
      }
      if WellFormed(before) {
        SetQuantityPreservesWellFormed(before, id, quantity);
      }
    }

    /** The remove click: `cart = cart.filter(item => item.id !== id)`. */
    method RemoveItem(id: string)
      modifies this
      ensures items == Remove(old(items), id)
      ensures !HasId(items, id)
      ensures !HasId(old(items), id) ==> items == old(items)
      ensures old(Valid()) ==> Valid()
    {
      ghost var before := items;
      items := Remove(items, id);
      RemoveDropsId(before, id);
      if !HasId(before, id) {
        RemoveAbsent(before, id);
      }
      if WellFormed(before) {
        RemovePreservesWellFormed(before, id);
      }
    }
  }
}
