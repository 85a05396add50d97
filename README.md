# Shopping-cart state of the PhilaPharma storefront

The storefront script keeps one module-level cart: an ordered list of line
items `{id, name, price, quantity, image}`. Three event handlers change it:
the add and quantity handlers update it in place, and the remove click
replaces it with a filtered copy. The "add to cart" click adds one more of
a product already in the cart or appends a new line with quantity 1. The quantity input's change refuses a
quantity of 0 or less and otherwise sets the quantity of the product's line.
The remove click filters out every line with the product's id. Two pure
aggregates are read from it: the header's item count (the sum of the
quantities) and the cart summary (subtotal, shipping, total, with free
shipping from 99.00 DT and a flat 7.00 DT fee below it).

The project has three modules:

- `CartModel` (`cart.dfy`): the `LineItem` datatype, `Cart = seq<LineItem>`,
  the cart invariant `WellFormed` (pairwise distinct ids, every quantity at
  least 1), `Find` (the first line with an id, as `Array.prototype.find`
  returns it), and the three operations as functions on cart values:
  `AddOrIncrement`, `SetQuantity`, `Remove`, with `Filter` as a
  front-to-back reference for the last. Lemmas state what each does and
  that each keeps `WellFormed`.
- `Totals` (`totals.dfy`): `ItemCount` and `Subtotal` as left folds (the order
  `reduce` uses), `Shipping`, `Summarize` and the lemmas that tie the sums to
  the operations.
- `Store` (`store.dfy`): the class `CartStore`, whose field `items` is the
  page's `let cart`. Its methods follow the handlers' branches, update the
  field (reassigning it with the filtered cart for removal) and are proved
  to produce exactly what the `CartModel` function says. They also keep the invariant whenever it held before.

All money is an integer number of hundredths of a dinar. The threshold is
`9900` and the fee `700`, so the rule `subtotal >= 99` is exact and no float
rounding is involved. Quantities are integers.

Three consequences of the script as written:

- Two lines at 65.00 x 2 and 10.00 x 1 give a subtotal of 140.00, which is at
  least 99, so shipping is free and the total is 140.00
  (`Totals.WorkedExample`).
- There is no clear-cart operation.
- A price `parseFloat` cannot read is stored as `NaN` (script.js:45, 53).

## Model

| member | source | states |
|---|---|---|
| `CartModel.Find` | script.js:48 | a result `Some(i)` is the first line whose id matches; `None` exactly when no line has the id |
| `CartModel.FindReturnsFirstMatch` | script.js:48 | in any cart, the first matching line is the very index found, so find is determined by the cart |
| `CartModel.UniqueMatchIsFirst` | script.js:48-54 | with distinct ids, any line carrying the id is the one found |
| `CartModel.AddOrIncrement` | script.js:48-54 | the cart keeps its length when the product is present and grows by exactly one line when it is absent |
| `CartModel.AddExistingIncrements` | script.js:48-51 | adding a product already present adds exactly 1 to that line's quantity; length, order and all other lines are unchanged, and the name, price and image passed in are ignored |
| `CartModel.AddAbsentAppends` | script.js:48-53 | adding a product not present appends one line at the end with quantity 1 and the given id, name, price and image; all earlier lines are unchanged |
| `CartModel.AddIds` | script.js:48-54 | after an add the product is in the cart, and every other product is present after exactly when it was present before |
| `CartModel.AddPreservesWellFormed` | script.js:48-54 | add-or-increment keeps ids pairwise distinct and every quantity at least 1 |
| `CartModel.AddTwiceNew` | script.js:48-54 | adding the same new product twice gives one new line with quantity 2, not two lines |
| `CartModel.SetQuantity` | script.js:142-154 | set-quantity never changes the number of lines |
| `CartModel.SetQuantityNoOp` | script.js:144-150 | a quantity of 0 or less, or an id not in the cart, leaves the cart unchanged |
| `CartModel.SetQuantityPresent` | script.js:149-151 | a quantity of at least 1 for a present product replaces that line's quantity and changes nothing else |
| `CartModel.SetQuantityPreservesWellFormed` | script.js:144-151 | set-quantity keeps ids pairwise distinct and every quantity at least 1 |
| `CartModel.Remove` | script.js:164 | removal never adds lines |
| `CartModel.RemoveMembership` | script.js:164 | a line is in the result exactly when it was in the cart and its id differs from the removed one |
| `CartModel.RemoveDropsId` | script.js:164 | after removal no line carries the removed id |
| `CartModel.RemoveAbsent` | script.js:164 | removing an id not in the cart leaves it unchanged |
| `CartModel.RemoveConcat` | script.js:164 | removal distributes over concatenation, so the kept lines keep their relative order |
| `CartModel.RemoveIsFilter` | script.js:164 | removal equals the front-to-back filter that keeps each line whose id differs, so the kept lines stay in cart order |
| `CartModel.RemovePreservesWellFormed` | script.js:164 | removal keeps ids pairwise distinct and every quantity at least 1 |
| `Totals.ItemCount` | script.js:18 | the sum of the quantities; when every quantity is at least 1 it is at least the number of lines |
| `Totals.Subtotal` | script.js:111 | the sum of price times quantity; never negative when no price and no quantity is negative |
| `Totals.LineTotal` | script.js:111 | a line's total is never negative when its price and quantity are not |
| `Totals.Shipping` | script.js:112 | the shipping fee lies between 0 and 7.00 |
| `Totals.Summarize` | script.js:111-113 | the total is at least the subtotal and at most 7.00 above it |
| `Totals.ItemCountReplace` | script.js:18 | replacing one line changes the item count by the new quantity minus the old one |
| `Totals.SubtotalReplace` | script.js:111 | replacing one line changes the subtotal by the new line total minus the old one |
| `Totals.SumsAppend` | script.js:111 | appending a line adds its quantity to the item count and its line total to the subtotal |
| `Totals.AddItemCount` | script.js:48-54 | every add-or-increment raises the item count by exactly 1, in any cart |
| `Totals.AddSubtotal` | script.js:48-54 | every add-or-increment raises the subtotal by one unit price: the existing line's price, or the given price for a new line |
| `Totals.UnitPriceAdded` | script.js:48-53 | for a product not in the cart the price charged is the given price |
| `Totals.SetQuantityItemCount` | script.js:149-151 | setting a present product's quantity to q changes the item count by q minus its old quantity |
| `Totals.RemoveSums` | script.js:164 | with distinct ids, removing a product lowers the item count by its quantity and the subtotal by its line total |
| `Totals.SummaryRule` | script.js:111-113 | shipping is 0 exactly when the subtotal is at least 99.00 and 7.00 exactly when it is below; total is subtotal plus shipping |
| `Totals.FreeShippingBoundary` | script.js:112 | a subtotal of exactly 99.00 ships free; 98.99 pays 7.00 |
| `Totals.EmptyCartSummary` | script.js:111-113 | the empty cart has item count 0, subtotal 0.00, shipping 7.00, total 7.00 |
| `Totals.RemoveLastLine` | script.js:164 | removing the only line leaves the empty cart's summary |
| `Totals.WorkedExample` | script.js:111-113 | 65.00 x 2 plus 10.00 x 1 gives 3 items, subtotal 140.00, free shipping, total 140.00 |
| `Totals.AddCanLowerTotal` | script.js:112-113 | the total is not monotone: at a subtotal of 98.99 adding a 0.01 product lowers the total from 105.99 to 99.00 |
| `Store.CartStore.constructor` | script.js:27 | the cart starts as the saved content; an empty start satisfies the invariant |
| `Store.CartStore.AddToCart` | script.js:48-54 | the new cart is `AddOrIncrement` of the old one with the placeholder image; the item count rises by 1 and the subtotal by one unit price; the invariant is kept |
| `Store.CartStore.ChangeQuantity` | script.js:142-154 | the new cart is `SetQuantity` of the old one; a quantity of 0 or less or an unknown id changes nothing; the invariant is kept |
| `Store.CartStore.RemoveItem` | script.js:164 | the new cart is `Remove` of the old one; the id is gone; an absent id changes nothing; the invariant is kept |

## Left out

- Loading and saving the cart in `localStorage` and its JSON encoding (script.js:6-14): browser storage and library serialisation. The constructor takes the already decoded content. Loading is not guarded against a malformed record, so no soft failure is modelled.
- Reading the price from the card's text with `replace` and `parseFloat` (script.js:44-45), and `parseInt` of the quantity input (script.js:142): library string parsing. Price and quantity are integer parameters. In the script a non-numeric input gives `NaN`, `NaN <= 0` is false, and `NaN` is stored as the quantity; this float artefact is not modelled.
- Floating point: the script adds and compares JavaScript numbers. The model uses exact integer cents, so the rounding a float sum can show near 99.00 is not captured.
- The product id comes from a DOM attribute and may be `null` in the script; the model takes it as a string.
- Line items are values. In the script `find` returns a reference to the stored object and the handler mutates it. Only the cart array holds these objects, so a value update of that position is the same change.
- Rendering of the table and the summary, `toFixed` formatting, the "GRATUITS" text and the CSS class toggling (script.js:77-107, 116-131): user interface.
- Resetting a refused quantity input to 1 (script.js:145): a DOM write with no effect on the cart.
- The button feedback with `setTimeout` (script.js:60-63), the console message (script.js:65) and the `IntersectionObserver` fade-in (script.js:176-190): timers, logging and browser callbacks.
- Saving and re-rendering after each change (script.js:56-57, 152-153, 166-167): side effects at the boundary.
- `Store.CartStore.constructor`: ensures the invariant only for an empty start, because the script never checks a loaded cart for distinct ids or positive quantities.
