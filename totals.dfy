/** The figures derived from a cart: the item count shown on the header icon
    and the subtotal, shipping and total of the cart summary. All amounts are
    in hundredths of a dinar. */
module Totals {
  import opened CartModel

  /** Free shipping from 99.00 DT of subtotal upwards. */
  const FreeShippingThreshold: int := 9900
  /** The flat shipping fee below the threshold, 7.00 DT. */
  const FlatShippingFee: int := 700

  datatype CartSummary = CartSummary(itemCount: int, subtotal: int, shipping: int, total: int)

  /** The amount one line contributes: unit price times quantity. */
  function LineTotal(x: LineItem): (t: int)
    ensures x.price >= 0 && x.quantity >= 0 ==> t >= 0
  {
    x.price * x.quantity
  }

  /** The sum of the quantities, folded from the left as `reduce` does.
      With every quantity at least 1 it is at least the number of lines. */
  function ItemCount(c: Cart): (n: int)
    ensures (forall i :: 0 <= i < |c| ==> c[i].quantity >= 1) ==> n >= |c|
  {
    if c == [] then 0 else ItemCount(c[..|c| - 1]) + c[|c| - 1].quantity
  }

  /** The sum of the line totals, folded from the left as `reduce` does.
      It is never negative when no price and no quantity is. */
  function Subtotal(c: Cart): (s: int)
    ensures (forall i :: 0 <= i < |c| ==> c[i].price >= 0 && c[i].quantity >= 0) ==> s >= 0
  {
    if c == [] then 0 else Subtotal(c[..|c| - 1]) + LineTotal(c[|c| - 1])
  }

  /** Free from the threshold on, the flat fee below it. */
  function Shipping(subtotal: int): (fee: int)
    ensures 0 <= fee <= FlatShippingFee
  {
    if subtotal >= FreeShippingThreshold then 0 else FlatShippingFee
  }

  /** The figures `updateSummary` shows. The total never exceeds the subtotal by more than the fee. */
  function Summarize(c: Cart): (s: CartSummary)
    ensures s.subtotal <= s.total <= s.subtotal + FlatShippingFee
  {
    var subtotal := Subtotal(c);
    var shipping := Shipping(subtotal);
    CartSummary(ItemCount(c), subtotal, shipping, subtotal + shipping)
  }

  // ---------------------------------------------------------------------------
  // Sums under a change of one line

  /** Replacing one line changes the item count by the difference of the quantities. */
  lemma {:induction false} ItemCountReplace(c: Cart, i: nat, x: LineItem)
    requires i < |c|
    ensures ItemCount(c[i := x]) == ItemCount(c) - c[i].quantity + x.quantity
  {
    var n := |c|;
    if i == n - 1 {
      assert c[i := x][..n - 1] == c[..n - 1];
    } else {
      assert c[i := x][..n - 1] == c[..n - 1][i := x];
      ItemCountReplace(c[..n - 1], i, x);
    }
  }

  /** Replacing one line changes the subtotal by the difference of the line totals. */
  lemma {:induction false} SubtotalReplace(c: Cart, i: nat, x: LineItem)
    requires i < |c|
    ensures Subtotal(c[i := x]) == Subtotal(c) - LineTotal(c[i]) + LineTotal(x)
  {
    var n := |c|;
    if i == n - 1 {
      assert c[i := x][..n - 1] == c[..n - 1];
    } else {
      assert c[i := x][..n - 1] == c[..n - 1][i := x];
      SubtotalReplace(c[..n - 1], i, x);
    }
  }

  /** Appending one line adds its quantity and its line total. */
  lemma SumsAppend(c: Cart, x: LineItem)
    ensures ItemCount(c + [x]) == ItemCount(c) + x.quantity
    ensures Subtotal(c + [x]) == Subtotal(c) + LineTotal(x)
  {
  }

  // ---------------------------------------------------------------------------
  // The operations and the sums

  /** Every add-or-increment raises the item count by exactly 1. */
  lemma AddItemCount(c: Cart, id: string, name: string, price: int, image: string)
    ensures ItemCount(AddOrIncrement(c, id, name, price, image)) == ItemCount(c) + 1
  {
    match Find(c, id)
    case Some(i) => ItemCountReplace(c, i, c[i].(quantity := c[i].quantity + 1));
    case None => SumsAppend(c, LineItem(id, name, price, 1, image));
  }

  /** Every add-or-increment raises the subtotal by one unit price: that of the
      line already in the cart, or the given one for a new line. */
  lemma AddSubtotal(c: Cart, id: string, name: string, price: int, image: string)
    ensures Subtotal(AddOrIncrement(c, id, name, price, image)) == Subtotal(c) + UnitPriceAdded(c, id, price)
  {
    var r := AddOrIncrement(c, id, name, price, image);
    match Find(c, id)
    case Some(i) =>
      var x := c[i].(quantity := c[i].quantity + 1);
      assert r == c[i := x];
      LineTotalIncrement(c[i]);
      SubtotalReplace(c, i, x);
    case None =>
      var x := LineItem(id, name, price, 1, image);
      assert r == c + [x];
      assert LineTotal(x) == price;
      SumsAppend(c, x);
  }

  /** The unit price an add-or-increment charges: that of the line already in the cart, else the given one. */
  function UnitPriceAdded(c: Cart, id: string, price: int): (p: int)
    ensures !HasId(c, id) ==> p == price
  {
    match Find(c, id)
    case Some(i) => c[i].price
    case None => price
  }

  /** One more of a line adds one unit price to its line total. */
  lemma LineTotalIncrement(x: LineItem)
    ensures LineTotal(x.(quantity := x.quantity + 1)) == LineTotal(x) + x.price
  {
  }

  /** Setting a present product's quantity to q changes the item count by q minus the old quantity. */
  lemma SetQuantityItemCount(c: Cart, id: string, quantity: int, i: nat)
    requires quantity >= 1 && FirstMatch(c, id, i)
    ensures ItemCount(SetQuantity(c, id, quantity)) == ItemCount(c) - c[i].quantity + quantity
  {
    FindReturnsFirstMatch(c, id, i);
    ItemCountReplace(c, i, c[i].(quantity := quantity));
  }

  /** In a cart with unique ids, removing a product takes away exactly its quantity
      from the item count and its line total from the subtotal. */
  lemma {:induction false} RemoveSums(c: Cart, id: string, i: nat)
    requires UniqueIds(c) && i < |c| && c[i].id == id
    ensures ItemCount(Remove(c, id)) == ItemCount(c) - c[i].quantity
    ensures Subtotal(Remove(c, id)) == Subtotal(c) - LineTotal(c[i])
  {
    var n := |c|;
    var p := c[..n - 1];
    if i == n - 1 {
      assert !HasId(p, id);
      RemoveAbsent(p, id);
      assert Remove(c, id) == Remove(p, id) + [];
      assert Remove(p, id) + [] == p;
    } else {
      assert c[n - 1].id != id;
      RemoveSums(p, id, i);
      SumsAppend(Remove(p, id), c[n - 1]);
    }
  }

  // ---------------------------------------------------------------------------
  // The summary

  /** Shipping is free exactly from the threshold on and the flat fee below it;
      the total is the subtotal plus shipping. */
  lemma SummaryRule(c: Cart)
    ensures var s := Summarize(c);
      s.itemCount == ItemCount(c) && s.subtotal == Subtotal(c) &&
      (s.shipping == 0 <==> s.subtotal >= FreeShippingThreshold) &&
      (s.shipping == FlatShippingFee <==> s.subtotal < FreeShippingThreshold) &&
      s.total == s.subtotal + s.shipping
  {
  }

  /** A subtotal of exactly 99.00 ships free; 98.99 pays 7.00. */
  lemma FreeShippingBoundary()
    ensures Shipping(9900) == 0 && Shipping(9899) == 700
  {
  }

  /** The empty cart: no items, subtotal 0.00, shipping 7.00, total 7.00. */
  lemma EmptyCartSummary()
    ensures Summarize([]) == CartSummary(0, 0, 700, 700)
  {
  }

  /** Removing the only line of a cart leaves the empty cart's summary. */
  lemma RemoveLastLine(x: LineItem)
    ensures Summarize(Remove([x], x.id)) == CartSummary(0, 0, 700, 700)
  {
  }

  /** Two of a 65.00 product and one of a 10.00 product: subtotal 140.00, which
      is above the threshold, so shipping is free and the total is 140.00. */
  lemma WorkedExample()
    ensures Summarize([LineItem("p1", "A", 6500, 2, PlaceholderImage),
                       LineItem("p2", "B", 1000, 1, PlaceholderImage)])
         == CartSummary(3, 14000, 0, 14000)
  {
    var a := LineItem("p1", "A", 6500, 2, PlaceholderImage);
    var b := LineItem("p2", "B", 1000, 1, PlaceholderImage);
    SumsAppend([a], b);
    SumsAppend([], a);
    assert [a] + [b] == [a, b];
    assert [] + [a] == [a];
  }

  /** The total is not monotone in the cart: at 98.99 of subtotal adding a
      0.01 product crosses the threshold and lowers the total from 105.99 to 99.00. */
  lemma AddCanLowerTotal()
    ensures var c := [LineItem("p1", "A", 9899, 1, PlaceholderImage)];
      Summarize(c).total == 10599 &&
      Summarize(AddOrIncrement(c, "p2", "B", 1, PlaceholderImage)).total == 9900
  {
    var a := LineItem("p1", "A", 9899, 1, PlaceholderImage);
    var b := LineItem("p2", "B", 1, 1, PlaceholderImage);
    SumsAppend([], a);
    assert [] + [a] == [a];
    assert !HasId([a], "p2");
    AddAbsentAppends([a], "p2", "B", 1, PlaceholderImage);
    SumsAppend([a], b);
  }
}
