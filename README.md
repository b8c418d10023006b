# Cart store and offer pricing

A Dafny model of the storefront's cart: the cart context that holds the cart
lines and the applied offers, its mutators (`addToCart`, `removeFromCart`,
`updateQuantity`, `clearCart`, `applyOffers`), the values it derives on every
read (`subtotal`, `discountAmount`, `total`), and the cart page's rules on top
of it: the quantity guard behind the minus and plus buttons, and the checkout
sequence with its `isSubmitting` flag.

Files and modules:

- `cart_model.dfy`, module `CartModel`: items, lines and offers as datatypes;
  the `find`, `map` and `filter` expressions the mutators build their new
  cart with, as functions; lemmas on what each mutator changes and keeps.
- `pricing.dfy`, module `Pricing`: subtotal, per-category subtotal, the
  applicability test and filter, the stacked discount and the total, with
  lemmas on additivity, order, bounds and the documented edge cases.
- `cart_store.dfy`, module `CartStore`: class `CartContext` with the fields
  `cart` and `appliedOffers` and one method per mutator. Each method states
  its new state as a function of the old one and keeps `Valid()`: ids are
  unique, and a ghost field `saved` (the local-storage snapshot) equals the
  cart after every change.
- `cart_page.dfy`, module `CartPageFlow`: the order payload, the quantity
  guard, and class `CartPage` with `isSubmitting` and the checkout handler.

Modelling choices:

- Prices and discount percentages are `real`, so arithmetic is exact.
  Quantities, stock and `minQuantity` are `int`: the data carries no sign or
  range constraint. `addToCart` bounds a quantity from above only, by the
  item's stock; `updateQuantity` accepts any number; only the page's guard
  checks `1..stock`.
- `reduce` adds from the left. Sums here are written head first, which gives
  the same value in exact arithmetic.
- The fetched offer list is a parameter `Option<seq<Offer>>`. `None` stands
  for a request or parse that threw. `response.ok` is not looked at by
  `applyOffers`.
- The order request's outcome is a parameter `orderOk`. False covers both a
  not-ok response and a thrown request, since both end in the same `catch`.
- The checkout handler is cut at its `await`. `BeginCheckout` is the part
  before it (empty-cart check, flag set, payload built). `FinishCheckout` is
  the part after it (clear on success, flag reset in `finally`).
  `HandleCheckout` runs both with nothing in between.

Where the code behaves differently from what one might expect of a cart, the model follows the code:

- `updateQuantity` in the context validates nothing. The bounds
  `1 <= quantity <= stock` are checked only by the page's
  `handleQuantityChange` (src/pages/CartPage.jsx:23-30).
- `addToCart` signals a rejection only by a toast and returns the cart
  unchanged. There is no error value. It accepts a quantity of zero or less.
  Its stock test uses the stock of the item passed in. A merged line keeps
  the stock it was first added with. So "every line stays within its stock"
  is proved only for positive quantities of an item whose stock agrees with
  the line (`CartModel.AddKeepsStockBounds`).
- Loading the snapshot has no error handling. A corrupt snapshot throws; the
  cart does not fall back to empty. That load is not part of this model.

## Model

| member | source | states |
|---|---|---|
| `CartModel.FindIndex` | src/context/CartContext.jsx:28 | the result is the first position whose line has the id, or the cart's length when there is none |
| `CartModel.MapQuantity` | src/context/CartContext.jsx:38-42 | matching lines get the new quantity and keep every other field; other lines, the length and the order are unchanged |
| `CartModel.NewLine` | src/context/CartContext.jsx:51 | the appended line carries every catalog field of the item unchanged (`ItemOf` gives the item back) and the requested quantity |
| `CartModel.AddAccepted` | src/context/CartContext.jsx:30-48 | the stock test: with a line for the id, the first such line's quantity plus the added quantity fits `item.stock`; with none, the added quantity alone fits it |
| `CartModel.AddToCart` | src/context/CartContext.jsx:26-52 | a rejected add returns the cart; lines of other ids keep their place and value; an accepted merge adds the quantity to every line with the id and keeps the length; an accepted new id adds one line at the end, built by `NewLine`; the full case split is `AddToCartEffect` |
| `CartModel.AddToCartEffect` | src/context/CartContext.jsx:26-52 | with unique ids: a rejected add leaves the cart as it was; an accepted add with the id present changes only that line's quantity, to old + quantity; an accepted add of a new id appends exactly one line built from the item |
| `CartModel.AddRespectsStock` | src/context/CartContext.jsx:30-51 | after an accepted add, the line found for the item's id holds at most `item.stock` |
| `CartModel.AddKeepsUnique` | src/context/CartContext.jsx:28-51 | at most one line per id before means at most one after, whether the add is accepted or rejected |
| `CartModel.AddKeepsStockBounds` | src/context/CartContext.jsx:28-51 | a positive add of an item whose stock agrees with its line keeps every line within `1..stock` |
| `CartModel.RemoveFromCart` | src/context/CartContext.jsx:59-60 | the remaining lines are exactly those of the cart with another id; an absent id leaves the cart as it was |
| `CartModel.RemoveSplices` | src/context/CartContext.jsx:59-60 | with unique ids, removal cuts out exactly the found line and keeps the others in order |
| `CartModel.RemoveKeepsInvariants` | src/context/CartContext.jsx:59-60 | removal keeps ids unique and keeps every line within its stock |
| `CartModel.UpdateQuantity` | src/context/CartContext.jsx:65-73 | same length; each line with the id gets the new quantity, other fields kept; every other line is unchanged |
| `CartModel.UpdateQuantityEffect` | src/context/CartContext.jsx:65-73 | only the matching line's quantity is overwritten, unchecked; an absent id is a no-op; ids stay unique |
| `Pricing.LineTotal` | src/context/CartContext.jsx:83 | one line's price times its quantity; specified through `SubtotalSplice`, `SubtotalReplace` and `SubtotalAfterMerge` |
| `Pricing.Subtotal` | src/context/CartContext.jsx:83 | the sum of the line totals; specified by `SubtotalConcat`, `SubtotalReplace`, `SubtotalSplice` and `SubtotalNonNegative` |
| `Pricing.SubtotalConcat` | src/context/CartContext.jsx:83 | the subtotal of two carts end to end is the sum of their subtotals |
| `Pricing.SubtotalReplace` | src/context/CartContext.jsx:83 | replacing a line changes the subtotal by the difference of the two line totals |
| `Pricing.SubtotalSplice` | src/context/CartContext.jsx:83 | cutting out a line lowers the subtotal by that line's price times quantity |
| `Pricing.SubtotalNonNegative` | src/context/CartContext.jsx:83 | with no negative prices or quantities the subtotal is at least 0 |
| `Pricing.SubtotalAfterMerge` | src/context/CartContext.jsx:83 | raising one line's quantity by q raises the subtotal by its price times q |
| `Pricing.SubtotalAfterAdd` | src/context/CartContext.jsx:83 | an accepted add raises the subtotal by the line's (or new item's) price times the quantity added; a rejected one leaves it |
| `Pricing.SubtotalAfterRemove` | src/context/CartContext.jsx:83 | removing a present id lowers the subtotal by that line's total; an absent id leaves it |
| `Pricing.InCategory` | src/context/CartContext.jsx:117 | the kept lines are exactly the cart's lines of that category; when none is dropped the result is the cart |
| `Pricing.InCategoryConcat` | src/context/CartContext.jsx:117 | the category filter of two carts end to end is the two filters end to end, so it keeps the cart's order and each line once |
| `Pricing.CategorySubtotal` | src/context/CartContext.jsx:117-120 | the subtotal of one category's lines; specified by `CategorySubtotalConcat` and `CategorySubtotalBounds` |
| `Pricing.CategorySubtotalConcat` | src/context/CartContext.jsx:117-120 | a category's subtotal of two carts end to end is the sum of their category subtotals |
| `Pricing.CategorySubtotalBounds` | src/context/CartContext.jsx:117-120 | a category's subtotal lies between 0 and the whole subtotal when nothing is negative |
| `Pricing.Qualifies` | src/context/CartContext.jsx:96-98 | true exactly when some single line has the offer's category and at least `minQuantity` |
| `Pricing.Applicable` | src/context/CartContext.jsx:94-99 | the kept offers are exactly the fetched offers that qualify; `validUntil` plays no part |
| `Pricing.ApplicableConcat` | src/context/CartContext.jsx:94-99 | filtering keeps the fetched order |
| `Pricing.ApplicableAll` | src/context/CartContext.jsx:94-99 | when every fetched offer qualifies, all are applied in fetched order |
| `Pricing.OfferDiscount` | src/context/CartContext.jsx:117-122 | one offer takes off its category's subtotal times `discountPercentage / 100`; specified by `TwoOffersStack` and `SingleOfferTotalNonNegative` |
| `Pricing.DiscountAmount` | src/context/CartContext.jsx:115-123 | the offers' discounts added up, with no de-duplication and no cap; specified by `DiscountConcat`, `DiscountNonNegative` and `DiscountWithoutCategoryLines` |
| `Pricing.Total` | src/context/CartContext.jsx:126 | subtotal minus discount, with no floor; specified by `SingleOfferTotalNonNegative`, `EmptyCartPricing` and `NegativeTotal` |
| `Pricing.DiscountConcat` | src/context/CartContext.jsx:115-123 | discounts stack additively over lists of offers |
| `Pricing.TwoOffersStack` | src/context/CartContext.jsx:115-123 | two offers on one category take off the sum of their percentages of its subtotal; 10% and 20% of 100 give 30 |
| `Pricing.DiscountNonNegative` | src/context/CartContext.jsx:115-123 | with no negative prices, quantities or percentages the discount is at least 0 |
| `Pricing.SingleOfferTotalNonNegative` | src/context/CartContext.jsx:115-126 | one offer of at most 100% keeps the total between 0 and the subtotal |
| `Pricing.DiscountWithoutCategoryLines` | src/context/CartContext.jsx:115-123 | applied offers whose category has no line in the current cart take nothing off |
| `Pricing.EmptyCartPricing` | src/context/CartContext.jsx:83-126 | against an empty cart no offer applies, and the discount and total are 0 |
| `Pricing.DrinksOffer` | src/context/CartContext.jsx:94-123 | 5 drinks and a 10% drinks offer from 3: the offer applies and takes off 0.10 times the line total |
| `Pricing.PerLineThreshold` | src/context/CartContext.jsx:96-98 | two drinks lines of 2 do not unlock an offer from 3, though together they hold 4 |
| `Pricing.NegativeTotal` | src/context/CartContext.jsx:126 | two 60% offers on a 10.0 cart give a total of -2.0: there is no floor |
| `CartStore.CartContext.constructor` | src/context/CartContext.jsx:9-10 | both pieces of state start empty |
| `CartStore.CartContext.Subtotal` | src/context/CartContext.jsx:83 | `subtotal` of the current cart; zero after `ClearCart` |
| `CartStore.CartContext.DiscountAmount` | src/context/CartContext.jsx:115-123 | `discountAmount` of the current cart and applied offers; zero after `ClearCart` |
| `CartStore.CartContext.Total` | src/context/CartContext.jsx:126 | `total` of the current state; zero after `ClearCart` |
| `CartStore.CartContext.AddToCart` | src/context/CartContext.jsx:26-56 | the cart becomes the add's result, unchanged when rejected, with the found line within `item.stock` when accepted; applied offers untouched; ids stay unique |
| `CartStore.CartContext.RemoveFromCart` | src/context/CartContext.jsx:59-62 | the cart becomes the filtered cart; applied offers untouched |
| `CartStore.CartContext.UpdateQuantity` | src/context/CartContext.jsx:65-73 | the cart becomes the mapped cart; applied offers untouched |
| `CartStore.CartContext.ClearCart` | src/context/CartContext.jsx:76-80 | cart and applied offers are empty, and subtotal, discount and total are 0 |
| `CartStore.CartContext.ApplyOffers` | src/context/CartContext.jsx:86-112 | on a fetched list the applied offers become its qualifying offers in order; on a failure they stay; the cart never changes |
| `CartPageFlow.OrderItems` | src/pages/CartPage.jsx:48-51 | one `{id, quantity}` entry per line, in cart order |
| `CartPageFlow.OfferIds` | src/pages/CartPage.jsx:52 | the applied offer ids, in order |
| `CartPageFlow.BuildPayload` | src/pages/CartPage.jsx:47-56 | as many items as lines, distinct ids when the lines have them, one id per applied offer, and total = subtotal - discount |
| `CartPageFlow.QuantityChange` | src/pages/CartPage.jsx:23-30 | same length; lines of other ids are untouched; a line that changes gets exactly the new quantity, and only when it lies in `1..line.stock`; an in-range quantity is written to every line with the id |
| `CartPageFlow.QuantityChangeKeepsBounds` | src/pages/CartPage.jsx:23-30 | a guarded change on a line of the cart keeps ids unique and every line within `1..stock` |
| `CartPageFlow.StepButtons` | src/pages/CartPage.jsx:130-141 | minus is a no-op exactly at quantity 1, plus exactly at quantity = stock |
| `CartPageFlow.CartPage.constructor` | src/pages/CartPage.jsx:20 | `isSubmitting` starts false |
| `CartPageFlow.CartPage.CheckoutDisabled` | src/pages/CartPage.jsx:223 | the checkout button is disabled while submitting or on an empty cart; `BeginCheckout` ensures it holds whenever a payload is sent |
| `CartPageFlow.CartPage.HandleQuantityChange` | src/pages/CartPage.jsx:23-30 | out-of-range quantities change nothing; otherwise `updateQuantity` runs; bounds are kept |
| `CartPageFlow.CartPage.BeginCheckout` | src/pages/CartPage.jsx:32-57 | an empty cart sends nothing and leaves the flag; otherwise the flag is set, the button is disabled and the payload of the current state is sent |
| `CartPageFlow.CartPage.FinishCheckout` | src/pages/CartPage.jsx:59-72 | success clears cart, offers and snapshot; failure changes nothing in the store; the flag ends false |
| `CartPageFlow.CartPage.HandleCheckout` | src/pages/CartPage.jsx:32-73 | the whole handler: empty cart changes nothing; otherwise the payload of the state before it is sent and the outcome decides clear or keep |

## Left out

- Local storage and JSON (src/context/CartContext.jsx:13-23): browser I/O. Only the ghost field `saved` records that the snapshot follows the cart.
- The HTTP requests for offers and orders: replaced by the `fetched` and `orderOk` parameters.
- Toasts, `console.error` and the navigation after a placed order are UI only. This includes the success toast `addToCart` shows even when it rejects.
- Asynchrony. In the source, `applyOffers` and `handleCheckout` read the cart of the render they were created in; here they read the state at the call. `BeginCheckout` and `FinishCheckout` let other calls happen in between, but no concurrency is modelled.
- Floating-point rounding and `toFixed` display formatting: prices are exact reals.
- The item count in src/components/Navbar.jsx and the other pages (items, offers, home, staff dashboard), the routing and the backend declarations: outside the cart core.
