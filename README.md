# Storefront cart: a Dafny model

This project models the parts of the storefront that its own code decides, rather than handing off
to Firebase or React. That covers four areas:

- **The Redux cart slice**, in both revisions. The Firestore revision uses string ids. The earlier
  revision uses numeric ids and mirrors the items into session storage.
- **What the cart and checkout pages derive from the cart**: the unit count, the pre-tax price, the
  taxed total and the tax line.
- **The actions the cart page's buttons dispatch**, and the checkout sequence.
- **Two pure pieces**: the five-star rating row and the catalog's category filter.

Modules, one per source file or shared concern:

- `CartModel`: the reducers as pure functions, generic over the id type `K`. `Find`, `Add`,
  `Remove` and `Update` work on the line items (`seq<LineItem<K>>`); `Reduce` and `Run` work on
  the whole `CartState<K>`.
- `CartSlice` and `StoredCartSlice`: the two slices as classes. Their fields are updated in place
  and each method is specified by `Reduce`.
- `CartTotals`: `ItemCount`, `Subtotal` and `Total`, written as left folds like
  `Array.prototype.reduce`, and `Tax`, the subtotal times the rate.
- `Checkout` and `SessionCheckout`: the two checkout pages.
- `CartView` and `SessionCartView`: the two cart pages.
- `ProductRating` and `ProductCatalog`: the star row and the catalog filter.
- `Seqs` and `Wrappers`: the `filter` function with the subsequence relation, and `Option`.

Prices and tax rates are exact `real`s. Quantities are `int`s.

The model follows the code in these places:

- `setTaxRate` stores any rate. There is no clamp to [0, 1].
- `addToCart` always adds exactly one unit, whatever quantity the payload carries.
- Checkout without a signed-in user just returns, with no error value.
- The earlier revision has no sign-in guard at all.

## Model

| member | source | states |
|---|---|---|
| `CartModel.Find` | Ecommerce-app-v2/src/Redux./cartSlice.ts:46 | `find` by id: `None` exactly when no line has the id; otherwise the first line with that id |
| `CartModel.Add` | Ecommerce-app-v2/src/Redux./cartSlice.ts:44-51 | `addToCart`: the length grows by one exactly when the id is new, and the id is in the cart afterwards; details in `AddExisting`, `AddNew` |
| `CartModel.Remove` | Ecommerce-app-v2/src/Redux./cartSlice.ts:57-58 | `removeFromCart`: never longer than before, and every kept line has a different id and comes from the cart; details in `RemoveSpec` |
| `CartModel.Update` | Ecommerce-app-v2/src/Redux./cartSlice.ts:63-78 | `updateQuantity`: never longer; a positive quantity keeps the length; q <= 0 leaves no line with the id; details in `UpdateUnknown`, `UpdateNonPositiveIsRemove`, `UpdatePositive` |
| `CartModel.Reduce` | Ecommerce-app-v2/src/Redux./cartSlice.ts:42-89 | the slice's reducer: only `setTaxRate` changes the rate, and it leaves the items; invariant in `ReduceKeepsWellFormed` |
| `CartModel.AddExisting` | Ecommerce-app-v2/src/Redux./cartSlice.ts:46-48 | adding an id already present bumps that line by exactly 1, ignoring the payload; length and all other lines are unchanged |
| `CartModel.AddNew` | Ecommerce-app-v2/src/Redux./cartSlice.ts:49-50 | adding a new id appends exactly one line at the end: the payload's fields with quantity 1 |
| `CartModel.AddKeepsWellFormed` | Ecommerce-app-v2/src/Redux./cartSlice.ts:44-51 | `addToCart` keeps ids distinct and quantities >= 1, and the id is in the cart afterwards |
| `CartModel.RemoveSpec` | Ecommerce-app-v2/src/Redux./cartSlice.ts:58 | after `removeFromCart` no line has the id; every other line is kept, in its original order, with every copy of a kept line kept; it is a no-op when the id is absent |
| `CartModel.RemovePresentLength` | src/Redux./cartSlice.ts:54 | with distinct ids, removing a present id removes exactly one line |
| `CartModel.RemoveKeepsWellFormed` | Ecommerce-app-v2/src/Redux./cartSlice.ts:57-58 | `removeFromCart` keeps the cart invariant |
| `CartModel.UpdateUnknown` | Ecommerce-app-v2/src/Redux./cartSlice.ts:68-69 | `updateQuantity` with an id not in the cart leaves it unchanged |
| `CartModel.UpdateNonPositiveIsRemove` | Ecommerce-app-v2/src/Redux./cartSlice.ts:70-72 | `updateQuantity(id, q)` with q <= 0 equals `removeFromCart(id)`, present or not |
| `CartModel.UpdatePositive` | Ecommerce-app-v2/src/Redux./cartSlice.ts:73-74 | q > 0 sets that line's quantity to exactly q; every other line and the order are unchanged |
| `CartModel.UpdateKeepsWellFormed` | Ecommerce-app-v2/src/Redux./cartSlice.ts:63-78 | `updateQuantity` keeps the cart invariant |
| `CartModel.ReduceFrame` | Ecommerce-app-v2/src/Redux./cartSlice.ts:80-86 | only `setTaxRate` changes the rate, replacing it with no range check and leaving the items; `clearCart` empties the items and keeps the rate |
| `CartModel.ReduceKeepsWellFormed` | Ecommerce-app-v2/src/Redux./cartSlice.ts:44-87 | every reducer keeps ids distinct and quantities >= 1 |
| `CartModel.RunKeepsWellFormed` | Ecommerce-app-v2/src/Redux./cartSlice.ts:32-87 | any sequence of actions from a well-formed state (such as `initialState`) reaches only well-formed states |
| `CartModel.RepeatedAdd` | src/Redux./cartSlice.ts:40-47 | n adds of one product to an empty cart give exactly one line for it, with quantity n |
| `CartModel.RepeatedAddSameId` | Ecommerce-app-v2/src/Redux./cartSlice.ts:44-51 | from any cart without the id, n >= 1 adds whose payloads share that id (and may differ elsewhere) append exactly one line with quantity n and the first payload's fields; the other lines and the rate are unchanged |
| `Seqs.Filter` | Ecommerce-app-v2/src/components/ProductCatalog.tsx:53-55 | `filter` keeps an element exactly when it passes the test, and never grows the sequence |
| `Seqs.FilterCount` | Ecommerce-app-v2/src/Redux./cartSlice.ts:58 | `filter` keeps every copy of an element that passes and no copy of one that fails |
| `Seqs.FilterDropsOne` | Ecommerce-app-v2/src/Redux./cartSlice.ts:58 | when exactly one element fails the test, `filter` removes exactly one element |
| `Seqs.FilterIsSubsequence` | src/Redux./cartSlice.ts:54 | `filter` returns an order-preserving subsequence of its input |
| `Seqs.FilterIdempotent` | Ecommerce-app-v2/src/components/ProductCatalog.tsx:53-55 | filtering twice with one test is filtering once |
| `CartTotals.ItemCount` | Ecommerce-app-v2/src/components/AddToCart.tsx:15-18 | `cartItemCount`, Σ quantity as a left fold: non-negative when no quantity is negative; relation to the lines in `ItemCountAtLeastLength`, `NoUnitsIffNoLines` |
| `CartTotals.Subtotal` | Ecommerce-app-v2/src/components/Checkout.tsx:29-31 | `itemPrice`, Σ price·quantity as a left fold: non-negative for non-negative prices and quantities; `AddPricesOneUnit`, `RowPricesAddUpToItemPrice` relate it to the actions and rows |
| `CartTotals.Total` | Ecommerce-app-v2/src/components/Checkout.tsx:24-26 | `Total`, Σ price·quantity·(1 + taxRate): non-negative for a non-negative rate, prices and quantities; equal to `itemPrice`·(1 + taxRate) by `TotalIsTaxedSubtotal` |
| `CartTotals.TotalIsTaxedSubtotal` | Ecommerce-app-v2/src/components/Checkout.tsx:24-31 | Σ price·quantity·(1 + taxRate) equals `itemPrice`·(1 + taxRate) |
| `CartTotals.Tax` | Ecommerce-app-v2/src/components/Checkout.tsx:132-137 | the tax shown is `itemPrice`·taxRate, so `itemPrice` + tax = `Total` |
| `CartTotals.EmptyCartTotals` | Ecommerce-app-v2/src/components/Checkout.tsx:24-31 | an empty cart has count, `itemPrice` and `Total` all 0 |
| `CartTotals.ItemCountAtLeastLength` | Ecommerce-app-v2/src/components/AddToCart.tsx:15-18 | with every quantity >= 1, the unit count is at least the number of lines |
| `CartTotals.NoUnitsIffNoLines` | Ecommerce-app-v2/src/components/AddToCart.tsx:26 | for a well-formed cart, unit count 0 holds exactly when there are no lines |
| `CartTotals.AddCountsOneUnit` | Ecommerce-app-v2/src/Redux./cartSlice.ts:44-51 | every `addToCart` raises the unit count by exactly one |
| `CartModel.AddKeepsLines` | Ecommerce-app-v2/src/Redux./cartSlice.ts:44-51 | an add keeps the id and price of every line already in the cart, and any new line carries the payload's id |
| `CartModel.FindAfterAdd` | Ecommerce-app-v2/src/Redux./cartSlice.ts:44-51 | an add for one id does not change where any other id is found |
| `CartTotals.AddsCommuteOnSubtotal` | Ecommerce-app-v2/src/Redux./cartSlice.ts:44-51 | adds of two products with different ids give the same `itemPrice` and unit count in either order |
| `CartTotals.AddPricesOneUnit` | Ecommerce-app-v2/src/Redux./cartSlice.ts:44-51 | `addToCart` raises `itemPrice` by one unit price: the price already in the cart for a known id, the payload's for a new one |
| `CartTotals.WorkedExample` | Ecommerce-app-v2/src/components/Checkout.tsx:24-31 | 2 × 10.00 and 1 × 5.00 at 8% give an item price of 25.00 and a total of 27.00 |
| `CartSlice.CartStore.constructor` | Ecommerce-app-v2/src/Redux./cartSlice.ts:32-36 | `initialState`: no items, tax rate 0.08 |
| `CartSlice.CartStore.AddToCart` | Ecommerce-app-v2/src/Redux./cartSlice.ts:44-55 | in-place `addToCart`: new state = `Reduce(old, AddToCart(p))`; invariant kept |
| `CartSlice.CartStore.RemoveFromCart` | Ecommerce-app-v2/src/Redux./cartSlice.ts:57-61 | in-place `removeFromCart`, specified by `Reduce`; invariant kept |
| `CartSlice.CartStore.UpdateQuantity` | Ecommerce-app-v2/src/Redux./cartSlice.ts:63-78 | in-place `updateQuantity` with its early return, specified by `Reduce`; invariant kept |
| `CartSlice.CartStore.SetTaxRate` | Ecommerce-app-v2/src/Redux./cartSlice.ts:80-82 | replaces the rate only |
| `CartSlice.CartStore.ClearCart` | Ecommerce-app-v2/src/Redux./cartSlice.ts:85-88 | empties the items and keeps the rate |
| `StoredCartSlice.CartStore.constructor` | src/Redux./cartSlice.ts:19-32 | the items are the stored copy, or empty when none is stored; tax rate 0.08 |
| `StoredCartSlice.CartStore.AddToCart` | src/Redux./cartSlice.ts:40-51 | `Reduce` step; afterwards the stored copy equals the items |
| `StoredCartSlice.CartStore.RemoveFromCart` | src/Redux./cartSlice.ts:53-57 | `Reduce` step; afterwards the stored copy equals the items |
| `StoredCartSlice.CartStore.UpdateQuantity` | src/Redux./cartSlice.ts:59-74 | `Reduce` step; an unknown id changes neither the items nor the stored copy, and otherwise the stored copy equals the new items |
| `StoredCartSlice.CartStore.SetTaxRate` | src/Redux./cartSlice.ts:76-78 | changes only the rate; storage is not written |
| `StoredCartSlice.CartStore.ClearCart` | src/Redux./cartSlice.ts:81-84 | empties the items, deletes the stored copy and keeps the rate |
| `Checkout.BuildOrder` | Ecommerce-app-v2/src/components/Checkout.tsx:45-54 | the order holds the pre-clear items, the rate, the user's uid and email, `itemPrice`, and a total equal to `itemPrice`·(1 + rate) |
| `Checkout.PlaceOrderDisabled` | Ecommerce-app-v2/src/components/Checkout.tsx:144 | "Place Order" is disabled exactly when the cart has no lines, on any cart; for a well-formed cart that is a unit count of 0 |
| `Checkout.OrderStore.AddDoc` | Ecommerce-app-v2/src/components/Checkout.tsx:57 | the remote write either appends the record or fails and writes nothing |
| `Checkout.HandlePlaceOrder` | Ecommerce-app-v2/src/components/Checkout.tsx:34-66 | with no user, nothing is written and the cart is unchanged; a failed write leaves the cart intact and does not navigate; otherwise the record of the pre-clear cart is written first and the cart is cleared after |
| `SessionCheckout.Snapshot` | src/components/Checkout.tsx:27-33 | the snapshot holds the pre-clear items, the rate and a total of `itemPrice`·(1 + rate) |
| `SessionCheckout.DisplayedTax` | src/components/Checkout.tsx:80 | the tax shown is `Total`·rate = `itemPrice`·(1 + rate)·rate |
| `SessionCheckout.DisplayedTaxAddsUpOnlyWithoutTax` | src/components/Checkout.tsx:80 | `itemPrice` + shown tax = `Total` exactly when `itemPrice`·rate² = 0 |
| `SessionCheckout.DisplayedTaxOvershoots` | src/components/Checkout.tsx:76-83 | at 8%, any positive `itemPrice` shows a tax larger than `Total` − `itemPrice` |
| `SessionCheckout.DisplayedTaxExample` | src/components/Checkout.tsx:80 | one unit at 100.00 shows 8.64 of tax, but the total exceeds the price by 8.00 |
| `SessionCheckout.HandlePlaceOrder` | src/components/Checkout.tsx:22-42 | with no guard, saves the snapshot of the pre-clear cart under "lastOrder", then clears the cart and its stored copy; the rate is kept |
| `CartView.MinusAction` | Ecommerce-app-v2/src/components/AddToCart.tsx:96-102 | minus dispatches `updateQuantity` for the line's id with max(1, q − 1): q − 1 from q = 2 up, exactly 1 below; what it does to the cart in `MinusKeepsLine` |
| `CartView.MinusDisabled` | Ecommerce-app-v2/src/components/AddToCart.tsx:104 | minus is disabled exactly when, for a line with at least one unit, pressing it would leave the quantity as it is |
| `CartView.PlusAddsOneUnit` | Ecommerce-app-v2/src/components/AddToCart.tsx:114-120 | plus (`updateQuantity` with q + 1; the same payload at src/components/AddToCart.tsx:88-95) adds exactly one unit to that line, leaves the other lines, and raises the count by 1 and `itemPrice` by the line's unit price |
| `CartView.ShowsEmptyCart` | Ecommerce-app-v2/src/components/AddToCart.tsx:26 | the empty-cart view (`cartItemCount === 0`) is shown exactly when a well-formed cart has no lines |
| `CartView.MinusKeepsLine` | Ecommerce-app-v2/src/components/AddToCart.tsx:96-104 | minus never removes a line or drops it below 1; when enabled (q > 1) it takes off exactly one unit; when disabled it leaves the cart unchanged |
| `CartView.PlusThenMinusRestores` | Ecommerce-app-v2/src/components/AddToCart.tsx:100-118 | plus followed by minus on the same line restores the whole cart state |
| `CartView.RemoveDropsLine` | Ecommerce-app-v2/src/components/AddToCart.tsx:130 | remove (`removeFromCart` with the line's own id; the same payload at src/components/AddToCart.tsx:66) shortens the cart by one, leaves no line with that id, keeps every other line in order, and keeps the rate |
| `SessionCartView.BannerFor` | src/components/AddToCart.tsx:26-34 | the empty message is shown exactly when the unit count is 0, which for a well-formed cart is exactly when it has no lines; otherwise the checkout link shows the (non-zero) count |
| `SessionCartView.BannerCountsLines` | src/components/AddToCart.tsx:26-34 | on a well-formed cart the checkout link never shows fewer units than there are lines |
| `SessionCartView.RowPrice` | src/components/AddToCart.tsx:60 | a row's price is that line's share of the item price: the subtotal of the one-line cart |
| `SessionCartView.RowPricesAddUpToItemPrice` | src/components/AddToCart.tsx:42-60 | the row prices, added in list order, equal the "Item Price" line (src/components/Checkout.tsx:77) |
| `SessionCartView.MinusAtOneRemoves` | src/components/AddToCart.tsx:74-81 | minus dispatches q − 1 with no clamp; together with the q <= 0 branch of `updateQuantity`, minus at quantity 1 equals remove and drops the line |
| `SessionCartView.MinusAboveOneDecrements` | src/components/AddToCart.tsx:78 | above one unit, minus takes off exactly one unit and keeps the line, so `itemPrice` drops by exactly that row's unit price |
| `ProductRating.Slot` | src/components/ProductRating.tsx:15 | one slot's two thresholds: full iff value >= k, half iff k − 0.5 <= value < k, empty otherwise |
| `ProductRating.Stars` | src/components/ProductRating.tsx:15-19 | exactly five slots; slot k is full iff value >= k, half iff k − 0.5 <= value < k, and empty otherwise |
| `ProductRating.StarsOrdered` | src/components/ProductRating.tsx:15-19 | full slots come before half slots, which come before empty ones; there is at most one half slot |
| `ProductRating.FullSlotsAreFloor` | src/components/ProductRating.tsx:15-19 | slot i (counting from 0) is full exactly when i < ⌊value⌋ |
| `ProductRating.FullCount` | src/components/ProductRating.tsx:15-19 | for value >= 0 the number of full slots is min(5, ⌊value⌋) |
| `ProductRating.Examples` | src/components/ProductRating.tsx:15-19 | 0 gives five empty slots, 5 five full slots, and 4.5 four full slots and a half |
| `ProductCatalog.SelectCategory` | Ecommerce-app-v2/src/components/ProductCatalog.tsx:50-55 | the products shown are never more than fetched, all come from the fetched list, and for a category other than "all" all have that category; details in the lemmas below |
| `ProductCatalog.AllIsIdentity` | Ecommerce-app-v2/src/components/ProductCatalog.tsx:50-52 | "all" returns the fetched list unchanged |
| `ProductCatalog.CategoryFilterSpec` | Ecommerce-app-v2/src/components/ProductCatalog.tsx:53-55 | any other category returns only products of that category, keeps every such product, and preserves their order |
| `ProductCatalog.SelectIdempotent` | Ecommerce-app-v2/src/components/ProductCatalog.tsx:50-55 | selecting a category twice equals selecting it once |
| `ProductCatalog.AddFromCatalog` | Ecommerce-app-v2/src/components/ProductCatalog.tsx:67-75 | dispatching the payload adds exactly one unit; a product not in the cart becomes a new last line with its id, title, price and image and quantity 1 |
| `ProductCatalog.AddToEmptyCart` | Ecommerce-app-v2/src/__tests__/ProductCatalog.test.tsx:91-96 | one add to an empty cart gives exactly one line, carrying the product's title |

## Findings

| source | as written | input that shows it | evidently intended | confidence | as-written member | corrected member |
|---|---|---|---|---|---|---|
| src/components/Checkout.tsx:80 | the tax line shows `Total * taxRate`, i.e. tax on the already-taxed total | one line of 1 × 100.00 at the 8% rate: the tax shown is 8.64, but `Total − itemPrice` is 8.00 | `itemPrice * taxRate`, as the later revision shows it (Ecommerce-app-v2/src/components/Checkout.tsx:132) | high; not executed | `SessionCheckout.DisplayedTaxExample` | `CartTotals.Tax` |

## Left out

- Firestore calls (`addDoc`'s network round trip, `getDocs`) are not modelled. The order write is
  an operation that may fail, with the failure given as a parameter. The product list is an input
  to `SelectCategory`.
- The server timestamp and `Date.now()` / `toISOString()` are not modelled. The order number and
  date are opaque string inputs.
- Authentication is not modelled. The signed-in user is an `Option<User>` input.
- Session storage is not modelled as text. JSON serialisation and the `catch` fallback in
  `loadCartFromStorage` are replaced by an abstract stored copy.
- A `sessionStorage.setItem` that throws (storage quota) is not modelled.
- Floating-point rounding and `toFixed(2)` formatting are not modelled. Prices and rates are exact
  reals.
- Rendering, routing, the `setTimeout` banners and `console` logging are not modelled. A successful
  checkout's `setSuccess(true)` and `navigate("/placeOrder")` appear only as the `Placed` outcome.
- `Checkout.HandlePlaceOrder`: the write-then-clear sequence is modelled with nothing happening
  in between. In the page, the button stays enabled while `addDoc` is pending. A second click
  therefore writes a second order from the same cart snapshot, and items added during the wait are
  wiped by the later `clearCart` without being part of the order. Neither repeated submission nor
  these interleavings are captured.
- The rest of the repository (order history, profile, product administration, login,
  registration) is outside this model.
- The earlier revision's place-order button is never disabled. That holds by construction, since
  the page has no disabled condition, so no member states it.
- `CartModel.Find`, `Add`, `Remove`, `Update`: ids are compared with Dafny's `==`. JavaScript's
  `===` on the ids (strings or numbers) behaves the same, except that a NaN numeric id would not
  equal itself.
