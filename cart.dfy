/** The cart of the shop page as a value: an ordered sequence of line items,
    and the three operations the page's event handlers perform on it
    (add-or-increment, set-quantity, remove). Prices are integers in
    hundredths of a dinar. */
module CartModel {

  datatype Option<T> = None | Some(value: T)

  /** One product entry of the cart: `{id, name, price, quantity, image}`. */
  datatype LineItem = LineItem(id: string, name: string, price: int, quantity: int, image: string)

  type Cart = seq<LineItem>

  /** The image every product added from a product card gets. */
  const PlaceholderImage: string := "https://via.placeholder.com/60x60"

  predicate HasId(c: Cart, id: string) {
    exists j :: 0 <= j < |c| && c[j].id == id
  }

  /** `i` is the position `cart.find(item => item.id === id)` stops at. */
  predicate FirstMatch(c: Cart, id: string, i: nat) {
    i < |c| && c[i].id == id && forall j :: 0 <= j < i ==> c[j].id != id
  }

  predicate UniqueIds(c: Cart) {
    forall i, j :: 0 <= i < j < |c| ==> c[i].id != c[j].id
  }

  /** The cart invariant: at most one line per product and every quantity at least 1. */
  predicate WellFormed(c: Cart) {
    UniqueIds(c) && forall i :: 0 <= i < |c| ==> c[i].quantity >= 1
  }

  /** The index of the first line whose id is `id`, as `Array.prototype.find` finds it. */
  function Find(c: Cart, id: string): (r: Option<nat>)
    ensures r.Some? ==> FirstMatch(c, id, r.value)
    ensures r.None? <==> !HasId(c, id)
  {
    if c == [] then None
    else if c[0].id == id then Some(0)
    else match Find(c[1..], id)
      case None => None
      case Some(k) => Some(k + 1)
  }

  /** Add-or-increment: one more of an existing product, else a new line with quantity 1. */
  function AddOrIncrement(c: Cart, id: string, name: string, price: int, image: string): (r: Cart)
    ensures |r| == if HasId(c, id) then |c| else |c| + 1
  {
    match Find(c, id)
    case Some(i) => c[i := c[i].(quantity := c[i].quantity + 1)]
    case None => c + [LineItem(id, name, price, 1, image)]
  }

  /** Set-quantity: a quantity of 0 or less is refused; an unknown id is ignored. */
  function SetQuantity(c: Cart, id: string, quantity: int): (r: Cart)
    ensures |r| == |c|
  {
    if quantity <= 0 then c
    else match Find(c, id)
      case Some(i) => c[i := c[i].(quantity := quantity)]
      case None => c
  }

  /** Remove: keep every line whose id differs from `id`, in order (`cart.filter`). */
  function Remove(c: Cart, id: string): (r: Cart)
    ensures |r| <= |c|
  {
    if c == [] then []
    else Remove(c[..|c| - 1], id) + (if c[|c| - 1].id == id then [] else [c[|c| - 1]])
  }

  // ---------------------------------------------------------------------------
  // Find

  /** Whatever the cart, the first match is the one `Find` reports. */
  lemma FindReturnsFirstMatch(c: Cart, id: string, i: nat)
    requires FirstMatch(c, id, i)
    ensures Find(c, id) == Some(i)
  {
  }

  /** In a cart with unique ids every matching line is the first match. */
  lemma UniqueMatchIsFirst(c: Cart, id: string, i: nat)
    requires UniqueIds(c) && i < |c| && c[i].id == id
    ensures FirstMatch(c, id, i)
  {
  }

  // ---------------------------------------------------------------------------
  // Add-or-increment

  /** Adding a product already in the cart adds exactly 1 to its quantity and
      leaves length, order and every other line as they were. */
  lemma AddExistingIncrements(c: Cart, id: string, name: string, price: int, image: string, i: nat)
    requires FirstMatch(c, id, i)
    ensures var r := AddOrIncrement(c, id, name, price, image);
      |r| == |c| && r[i] == c[i].(quantity := c[i].quantity + 1) &&
      forall j :: 0 <= j < |c| && j != i ==> r[j] == c[j]
  {
  }

  /** Adding a product not in the cart appends exactly one line, with quantity 1, at the end. */
  lemma AddAbsentAppends(c: Cart, id: string, name: string, price: int, image: string)
    requires !HasId(c, id)
    ensures AddOrIncrement(c, id, name, price, image) == c + [LineItem(id, name, price, 1, image)]
  {
  }

  /** After an add the product is in the cart and no other product has appeared or vanished. */
  lemma AddIds(c: Cart, id: string, name: string, price: int, image: string, other: string)
    ensures var r := AddOrIncrement(c, id, name, price, image);
      HasId(r, id) && (other != id ==> (HasId(r, other) <==> HasId(c, other)))
  {
    var r := AddOrIncrement(c, id, name, price, image);
    match Find(c, id)
    case Some(i) =>
      assert r[i].id == id;
      if HasId(c, other) {
        var j :| 0 <= j < |c| && c[j].id == other;
        assert r[j].id == other;
      }
      if HasId(r, other) {
        var j :| 0 <= j < |r| && r[j].id == other;
        assert c[j].id == other;
      }
    case None =>
      assert r[|c|].id == id;
      if HasId(c, other) {
        var j :| 0 <= j < |c| && c[j].id == other;
        assert r[j].id == other;
      }
      if other != id && HasId(r, other) {
        var j :| 0 <= j < |r| && r[j].id == other;
        assert j < |c| && c[j].id == other;
      }
  }

  /** Add-or-increment keeps ids distinct and every quantity at least 1. */
  lemma AddPreservesWellFormed(c: Cart, id: string, name: string, price: int, image: string)
    requires WellFormed(c)
    ensures WellFormed(AddOrIncrement(c, id, name, price, image))
  {
  }

  /** Adding the same new product twice gives one line with quantity 2, not two lines. */
  lemma AddTwiceNew(c: Cart, id: string, name: string, price: int, image: string)
    requires !HasId(c, id)
    ensures AddOrIncrement(AddOrIncrement(c, id, name, price, image), id, name, price, image)
         == c + [LineItem(id, name, price, 2, image)]
  {
    var r1 := AddOrIncrement(c, id, name, price, image);
    assert r1 == c + [LineItem(id, name, price, 1, image)];
    assert FirstMatch(r1, id, |c|);
    FindReturnsFirstMatch(r1, id, |c|);
  }

  // ---------------------------------------------------------------------------
  // Set-quantity

  /** A quantity of 0 or less, or an id not in the cart, leaves the cart unchanged. */
  lemma SetQuantityNoOp(c: Cart, id: string, quantity: int)
    requires quantity <= 0 || !HasId(c, id)
    ensures SetQuantity(c, id, quantity) == c
  {
  }

  /** A positive quantity for a product in the cart replaces that line's quantity and nothing else. */
  lemma SetQuantityPresent(c: Cart, id: string, quantity: int, i: nat)
    requires quantity >= 1 && FirstMatch(c, id, i)
    ensures var r := SetQuantity(c, id, quantity);
      |r| == |c| && r[i] == c[i].(quantity := quantity) &&
      forall j :: 0 <= j < |c| && j != i ==> r[j] == c[j]
  {
  }

  /** Set-quantity keeps ids distinct and every quantity at least 1. */
  lemma SetQuantityPreservesWellFormed(c: Cart, id: string, quantity: int)
    requires WellFormed(c)
    ensures WellFormed(SetQuantity(c, id, quantity))
  {
  }

  // ---------------------------------------------------------------------------
  // Remove

  /** A line survives removal exactly when it was in the cart and has another id. */
  lemma {:induction false} RemoveMembership(c: Cart, id: string, x: LineItem)
    ensures x in Remove(c, id) <==> x in c && x.id != id
  {
    if c != [] {
      var p := c[..|c| - 1];
      RemoveMembership(p, id, x);
      assert c == p + [c[|c| - 1]];
    }
  }

  /** After removal no line carries the removed id. */
  lemma RemoveDropsId(c: Cart, id: string)
    ensures !HasId(Remove(c, id), id)
  {
  }

  /** Removing an id that is not in the cart leaves it unchanged. */
  lemma {:induction false} RemoveAbsent(c: Cart, id: string)
    requires !HasId(c, id)
    ensures Remove(c, id) == c
  {
    if c != [] {
      var p := c[..|c| - 1];
      RemoveAbsent(p, id);
      assert c[|c| - 1].id != id;
    }
  }

  /** Removal distributes over concatenation: the kept lines stay in their relative order. */
  lemma {:induction false} RemoveConcat(a: Cart, b: Cart, id: string)
    ensures Remove(a + b, id) == Remove(a, id) + Remove(b, id)
  {
    if b != [] {
      var q := b[..|b| - 1];
      assert (a + b)[..|a + b| - 1] == a + q;
      assert (a + b)[|a + b| - 1] == b[|b| - 1];
      RemoveConcat(a, q, id);
    } else {
      assert a + b == a;
    }
  }

  /** A single line is dropped exactly when its id is the removed one. */
  lemma RemoveSingle(x: LineItem, id: string)
    ensures Remove([x], id) == if x.id == id then [] else [x]
  {
  }

  /** The front-to-back filter `Array.prototype.filter` performs, as a reference definition. */
  function Filter(c: Cart, id: string): (r: Cart)
    ensures |r| <= |c|
  {
    if c == [] then []
    else (if c[0].id == id then [] else [c[0]]) + Filter(c[1..], id)
  }

  /** `Remove` is exactly the front-to-back filter: the kept lines come out in cart order. */
  lemma {:induction false} RemoveIsFilter(c: Cart, id: string)
    ensures Remove(c, id) == Filter(c, id)
  {
    if c != [] {
      RemoveIsFilter(c[1..], id);
      assert c == [c[0]] + c[1..];
      RemoveConcat([c[0]], c[1..], id);
      RemoveSingle(c[0], id);
    }
  }

  /** Removal keeps ids distinct and every quantity at least 1. */
  lemma {:induction false} RemovePreservesWellFormed(c: Cart, id: string)
    requires WellFormed(c)
    ensures WellFormed(Remove(c, id))
  {
    if c != [] {
      var p := c[..|c| - 1];
      var last := c[|c| - 1];
      RemovePreservesWellFormed(p, id);
      var rp := Remove(p, id);
      forall k | 0 <= k < |rp|
        ensures rp[k] in p
      {
        RemoveMembership(p, id, rp[k]);
      }
      if last.id != id {
        var r := rp + [last];
        forall k | 0 <= k < |rp|
          ensures rp[k].id != last.id
        {
          var j :| 0 <= j < |p| && p[j] == rp[k];
          assert c[j] == p[j];
        }
        assert forall k :: 0 <= k < |rp| ==> r[k] == rp[k];
      }
    }
  }
}
