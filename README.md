# Storefront cart and category filter

A model of the shopping cart of a small browser storefront (`script.js`), and of its
category filter, with proofs of what the cart operations do.

The cart is an ordered sequence of lines. Each line holds the product as it was when
first added, plus a quantity. Four operations change the cart: add a product (merging
into an existing line), change a quantity by a delta (the line is removed when the
quantity reaches zero or less), remove a product, and check out (empty the cart).
After each change the whole cart is saved under the storage key `cart` and the counter
on the cart icon is set to the sum of the quantities. The category filter shows
either the whole catalogue (filter `"all"`) or the products of one category, in
catalogue order.

Modules:

- `Seqs` (`seqs.dfy`): the array `filter` used by both the category filter and
  cart removal, as an order-preserving `Filter`, with its laws. These are: it yields
  a subsequence, it keeps multiplicities, it distributes over `+`, it is the identity
  when everything is kept, it is idempotent, and dropping one element is a splice.
- `Catalog` (`catalog.dfy`): `Product` and `FilterProducts`.
- `CartLines` (`cart_lines.dfy`): the cart as a value. It defines `Line`, `FindIndex`
  (first match or -1, like `findIndex`) and `ItemCount` (the left-to-right `reduce`).
  It has one specification function per operation: `Added`, `Changed` and `Without`.
  The lemmas say what each one does, that each keeps the invariant `Wellformed`
  (distinct ids, every quantity at least 1), and how each moves the item count.
- `CartStore` (`cart_store.dfy`): the class `Cart`. Its fields are `lines` (the
  in-memory cart), `stored` (the snapshot under the storage key; `None` when nothing
  was saved) and `badge` (the counter text). It has one method per source function.
  `AddToCart`, `UpdateCartItemQuantity` and `RemoveCartItem` tie the new `lines` to
  the specification function of the old ones and keep the invariant. `Checkout`
  sets `lines` to the empty cart. On every path that writes storage, the snapshot
  becomes a copy of the new cart and the counter shows its count. Two paths return
  before writing: a quantity change for an id with no line, and checkout of an
  empty cart. On those, `lines`, `stored` and `badge` stay as they were.
  `Consistent()` says that reloading would restore exactly `lines` and that the
  counter shows `ItemCount(lines)`. Every operation keeps it.

The operations do not assume the invariant. The cart read back at start-up is not
validated by the source, so each method is specified for any starting cart:
`findIndex` picks the first match. Each method also proves that a well-formed cart
stays well-formed.

`CartStore.ShoppingSession` runs one visit against the class: add a product twice,
press minus twice, then check out the now empty cart, which reports no purchase.

## Model

| member | source | states |
|---|---|---|
| `Seqs.Filter` | script.js:128-130 | every kept element is an input element satisfying the selector, every input element satisfying it is kept, and the result is no longer than the input |
| `Seqs.FilterIsSubsequence` | script.js:128-130 | the filtered sequence is obtained from the input by deleting elements, so order is preserved |
| `Seqs.FilterMultiplicity` | script.js:128-130 | each element satisfying the selector occurs as often as in the input; every other element does not occur |
| `Seqs.FilterConcat` | script.js:128-130 | filtering a concatenation is the concatenation of the filtered parts |
| `Seqs.FilterKeepsAll` | script.js:280 | when every element satisfies the selector the input comes back unchanged |
| `Seqs.FilterIdempotent` | script.js:280 | filtering a second time with the same selector changes nothing |
| `Seqs.FilterDropsOne` | script.js:280 | when exactly one position fails the selector, filtering splices that position out |
| `Catalog.FilterProducts` | script.js:122-134 | filter "all" returns the catalogue unchanged; any other filter returns only products of that category, includes every product of it, and is no longer than the catalogue |
| `Catalog.FilterProductsExact` | script.js:125-131 | for a filter other than "all" the result is a subsequence of the catalogue in which each product of that category occurs exactly as often as in the catalogue and no other product occurs |
| `Catalog.FilterProductsConcat` | script.js:122-131 | the view of a catalogue split in two is the concatenation of the two views |
| `Catalog.FilterProductsIdempotent` | script.js:122-131 | applying the same filter to its own result shows the same products |
| `CartLines.FindIndex` | script.js:138 | -1 exactly when no line has the id; otherwise the index of a line with that id such that no earlier line has it |
| `CartLines.FirstWithWhenDistinct` | script.js:259 | in a cart with distinct ids any line for an id is the one the lookup finds |
| `CartLines.ItemCountConcat` | script.js:166 | the item count of a concatenation is the sum of the counts |
| `CartLines.ItemCountBounds` | script.js:166 | with quantities at least 1 the count is at least the number of lines, and it is 0 exactly for the empty cart |
| `CartLines.ItemCountUpdate` | script.js:263 | replacing one line changes the count by the difference of the quantities |
| `CartLines.ItemCountSplice` | script.js:267 | splicing out one line lowers the count by its quantity |
| `CartLines.UpdatePreservesWellformed` | script.js:263 | setting one line's quantity to a positive value keeps ids distinct and quantities positive |
| `CartLines.SplicePreservesWellformed` | script.js:267 | splicing out one line keeps ids distinct and quantities positive |
| `CartLines.AddIncrementsExisting` | script.js:138-142 | when the product has a line, that first line gains exactly one unit and keeps its original snapshot; the length and every other line are unchanged |
| `CartLines.AddAppendsNew` | script.js:143-148 | when the product has no line, a line of quantity 1 is appended after the untouched earlier lines |
| `CartLines.AddTwiceMerges` | script.js:137-149 | adding a new product twice leaves one line for it, with quantity 2, at the end |
| `CartLines.AddPreservesWellformed` | script.js:137-149 | adding keeps ids distinct and every quantity at least 1 |
| `CartLines.AddCount` | script.js:137-149 | every add raises the item count by exactly one, for any starting cart |
| `CartLines.ChangeAbsent` | script.js:259-261 | changing the quantity of an id with no line leaves the cart unchanged |
| `CartLines.ChangeRemoves` | script.js:263-268 | when the new quantity is zero or less, the first line for the id is removed and the others keep order and value |
| `CartLines.ChangeUpdates` | script.js:263-268 | when the new quantity is positive, only that line's quantity changes, by exactly the delta; length and other lines unchanged |
| `CartLines.ChangePreservesWellformed` | script.js:263-268 | a change by any delta keeps ids distinct and every quantity at least 1 |
| `CartLines.ChangeCount` | script.js:263-268 | the count moves by the delta, or by minus the old quantity when the line is removed |
| `CartLines.DecrementCount` | script.js:307-309 | the minus button on a present line, in a cart whose quantities are all at least 1, lowers the count by exactly one |
| `CartLines.IncrementCount` | script.js:307-309 | the plus button on a present line, in a cart whose quantities are all at least 1, raises the count by exactly one |
| `CartLines.WithoutDropsExactly` | script.js:280 | no line for the id survives removal, and every line for another id does |
| `CartLines.WithoutKeepsOthers` | script.js:280 | the surviving lines form a subsequence of the cart and keep their multiplicities |
| `CartLines.WithoutAbsent` | script.js:280 | removing an id with no line is a no-op |
| `CartLines.WithoutIdempotent` | script.js:280 | removing the same id twice is removing it once |
| `CartLines.WithoutSplices` | script.js:280 | in a cart with distinct ids, removal splices out the single line for the id |
| `CartLines.WithoutPreservesWellformed` | script.js:280 | removal keeps ids distinct and quantities positive |
| `CartLines.WithoutCount` | script.js:280 | in a cart with distinct ids, removal lowers the count by the removed line's quantity, or not at all when absent |
| `CartLines.ChangeToZeroIsRemove` | script.js:266-267 | in a cart with distinct ids, a change down to zero or below gives the same cart as the remove button |
| `CartLines.AddTwiceThenDecrementTwice` | script.js:137-276 | from the empty cart: add, add, minus, minus gives one line of quantity 1, then 2, then 1, then the empty cart |
| `CartStore.Cart.Load` | script.js:3 | start-up restores the saved lines, or the empty cart when nothing is saved; the counter shows their count, as `updateCartCount` sets it at page load (script.js:25) |
| `CartStore.Cart.Persist` | script.js:152 | the storage snapshot becomes a copy of the current lines |
| `CartStore.Cart.UpdateCartCount` | script.js:165-168 | the counter shows the sum of the line quantities |
| `CartStore.Cart.AddToCart` | script.js:137-162 | new lines equal `Added` of the old ones; the snapshot equals the new lines; the counter rises by one; a well-formed cart stays well-formed |
| `CartStore.Cart.UpdateCartItemQuantity` | script.js:258-276 | new lines equal `Changed` of the old ones; an absent id changes no field at all; otherwise the snapshot and counter match the new lines; consistency and well-formedness are kept |
| `CartStore.Cart.RemoveCartItem` | script.js:279-290 | new lines equal `Without` of the old ones; snapshot and counter match; an absent id leaves the lines as they were; well-formedness is kept |
| `CartStore.Cart.Checkout` | script.js:320-338 | on an empty cart nothing changes and no purchase is reported; otherwise lines and snapshot become empty and the counter shows 0 |

## Left out

- Catalogue loading (`loadProducts`, script.js:30-57): a network fetch and JSON decoding. Each product gets a category drawn with `Math.random`. The catalogue and its categories are inputs of `FilterProducts` instead.
- Browser storage and JSON: the stored value is taken to decode to a sequence of lines, or to be absent (`None`). A saved value that decodes to something else is not modelled. Serialising a line and reading it back is taken to give the same line. Every write to storage is taken to succeed: a failing `setItem` (a full quota, say) at script.js:152, 271, 283 or 328 would leave the snapshot and the counter stale, and the model does not capture that. This page is taken to be the only writer of the key: another tab overwriting it between operations is not modelled.
- Product fields beyond id, title, price, image and category are part of the copied snapshot in the source. They are not modelled separately.
- Cart total price (script.js:209-218): floating-point `price * quantity` with `toFixed(2)` rounding is not modelled. Price is carried as an uninterpreted `real`.
- JavaScript numbers: quantities, ids and the count are unbounded integers. Double-precision rounding above 2^53 is not modelled. The `NaN` that `parseInt` can give for a malformed button id is not modelled either; ids are integers.
- Rendering and UI: product cards, the cart list, notifications, the modal, smooth scrolling, timers and the injected CSS. This includes title truncation for display (script.js:85-87, 230-232) and `displayCartItems` after each change.
- Contact-form validation (script.js:374-472): reads and writes form elements and is unrelated to cart state.
