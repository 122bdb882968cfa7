# RocketShop storefront: cart and checkout model

A Dafny model of the logic behind the RocketShop in-game-currency storefront. The model has four modules:

- `Catalog` (`catalog.dfy`): the catalogue query of the main page (`src/pages/Index.tsx`). It filters products by three AND-ed checks. The category selection passes everything when it is the sentinel `"Все категории"`, the platform selection passes everything when it is `"all"`, and the search text is a case-insensitive substring match on the game title or the product name. The filtered products are then sorted with the page's comparator.
- `CartState` (`cart_state.dfy`): the cart lines and the session state of the main page. `Added`, `Without`, `WithQuantity` and `TotalItems` are the new cart that `addToCart`, `removeFromCart` and `updateQuantity` produce, and `totalItems`, written as functions on sequences. The class `Session` holds the fields `cartItems`, `isCartOpen` and `discountActivated`. Its methods replace those fields the way the page's state setters do. Its invariant is "at most one line per product id".
- `Checkout` (`checkout.dfy`): the cart panel (`src/components/Cart.tsx`). It has the derived amounts (subtotal, discount amount, total, commission, final total) in exact integer arithmetic. It has the three buttons on each line (minus, plus, remove), which call into `Session`. And it has the payment dialog's two-field state machine, the class `PaymentDialog`.
- `Wrappers` (`wrappers.dfy`): the `Option` type, standing for JavaScript's `undefined` and `null`.

`Math.round(n / d)` with `d > 0` is modelled as `(2n + d) / (2d)`. Dafny's `/` is floor division when the divisor is positive. So the discount amount is `(2·S·D + 100) / 200`, and the Sber commission is `(4·T + 100) / 200`, which equals `(2·T + 50) / 100`. `RoundDiv` and `RoundDivUnique` prove that this is the nearest integer, with halves rounded up.

`Array.prototype.sort` is stable (ECMAScript 2019 and later). It is modelled as an insertion sort driven by the page's own comparator. Each element is placed before the first element it does not compare greater than. For a consistent comparator (the two price keys), this gives the one stable sorted order that any stable sort produces.

A few behaviours of the code are easy to misread; the model follows the code:
- `updateQuantity` does not clamp: `updateQuantity(id, 0)` stores 0 (`CartState.WithQuantityDoesNotClamp`). The clamp to at least one is in the minus button (`Checkout.DecrementTarget`), so lines never reach zero through the panel.
- No line is removed when its quantity would reach zero. The minus button stops at one, and removal is only the explicit trash button.
- The search is a plain substring match, so the query "wow" does not match through the game title "World of Warcraft"; a product with that game and the name "Gold" is not found (`Catalog.SearchIsSubstring`).
- Closing the payment dialog keeps the chosen payment method. Reopening it shows that method's payment details again, not the method list (`Checkout.PaymentDialog.OnOpenChange`, `Checkout.CheckoutScenario`).
- Adding a product always adds exactly one unit (`CartState.AddedTotalItems`, `CartState.AddTwice`). No operation adds an arbitrary quantity.

## Model

| member | source | states |
|---|---|---|
| `Catalog.LowerChar` | src/pages/Index.tsx:33-34 | Each capital A-Z, А-Я becomes the lower-case letter at the same alphabet position, and Ё becomes ё. No capital remains in the result, and every other character is left unchanged. |
| `Catalog.Lower` | src/pages/Index.tsx:33-34 | `toLowerCase` keeps the length and lowers each character. |
| `Catalog.LowerIdempotent` | src/pages/Index.tsx:33-34 | Lowering twice is lowering once. |
| `Catalog.IncludesIffOccurs` | src/pages/Index.tsx:33-34 | `includes` holds exactly when the needle occurs at some position of the haystack (both directions). |
| `Catalog.Includes` | src/pages/Index.tsx:33-34 | The definition of `includes`: `needle` is a prefix of `hay` or of one of its suffixes. |
| `Catalog.IncludesEmpty` | src/pages/Index.tsx:33-34 | The empty search text is found in every string. |
| `Catalog.MatchesCategory` | src/pages/Index.tsx:30 | The definition of `matchesCategory`: the selection is the sentinel "Все категории" or equals the product's category. |
| `Catalog.MatchesPlatform` | src/pages/Index.tsx:31 | The definition of `matchesPlatform`: the selection is the sentinel "all" or equals the product's platform. |
| `Catalog.MatchesSearch` | src/pages/Index.tsx:32-34 | The definition of `matchesSearch`: the lowered search text is found in the lowered game title or the lowered product name. |
| `Catalog.Matches` | src/pages/Index.tsx:29-36 | The definition of the filter callback: all three checks hold. |
| `Catalog.Filter` | src/pages/Index.tsx:28-36 | A product is in the output iff it is in the catalogue and passes all three checks, with the same multiplicity. The output is never longer than the input. |
| `Catalog.FilterConcat` | src/pages/Index.tsx:28-36 | Filtering distributes over concatenation, so relative catalogue order is kept. |
| `Catalog.FilterEverything` | src/pages/Index.tsx:30-35 | Both sentinels and an empty search text return the catalogue unchanged. |
| `Catalog.FilterByCategory` | src/pages/Index.tsx:30 | A concrete category selection keeps only products of that category. |
| `Catalog.Compare` | src/pages/Index.tsx:37-42 | `popular` never returns 0. `price-low` says "not after" exactly when the price is not higher, and `price-high` exactly when it is not lower; each returns 0 exactly for equal prices. Any other key returns 0. |
| `Catalog.Insert` | src/pages/Index.tsx:37-42 | Inserting adds exactly that element (as a multiset). |
| `Catalog.Sort` | src/pages/Index.tsx:37-42 | The sorted output is a permutation of its input, for every sort key, `popular` included. |
| `Catalog.SortSorted` | src/pages/Index.tsx:39-40 | With `price-low` or `price-high`, every pair of output positions is in comparator order. |
| `Catalog.SortStable` | src/pages/Index.tsx:39-40 | Sorting by price is stable: for every price, the products at that price keep their input order. |
| `Catalog.SortUnknownKey` | src/pages/Index.tsx:41 | A key the comparator does not recognise leaves the order unchanged. |
| `Catalog.FilteredProducts` | src/pages/Index.tsx:28-42 | A product is shown iff it is in the catalogue and passes the three checks. |
| `Catalog.FilteredProductsOrder` | src/pages/Index.tsx:28-42 | The shown list is a permutation of the filtered list. With `price-low` it is non-decreasing in price and with `price-high` non-increasing, and equal prices keep filtered order. Any other key except `popular` shows the filtered order itself. |
| `Catalog.InitialViewShowsAll` | src/pages/Index.tsx:18-21 | The initial selections show the whole catalogue, as a permutation. |
| `Catalog.SearchIsSubstring` | src/pages/Index.tsx:32-34 | "wow" does not match a product with game "World of Warcraft" and name "Gold". |
| `Catalog.SearchIgnoresCase` | src/pages/Index.tsx:32-34 | "WARCRAFT" matches a product whose game title is "World of Warcraft", since search lowers both sides. |
| `Catalog.SortExampleLow` | src/pages/Index.tsx:39 | Prices [1499, 799, 1299] sort to [799, 1299, 1499] under `price-low`. |
| `Catalog.SortExampleHigh` | src/pages/Index.tsx:40 | The same prices sort to [1499, 1299, 799] under `price-high`. |
| `CartState.Find` | src/pages/Index.tsx:45 | A line is found iff some line has the id, and it is the first such line. |
| `CartState.Incremented` | src/pages/Index.tsx:48 | Same length. Lines with the id gain one unit, and every other line is unchanged. |
| `CartState.Added` | src/pages/Index.tsx:44-52 | For an id already in the cart: same length, that line gains one unit and the others are unchanged. For a new id: a line of quantity 1 is appended at the end. |
| `CartState.Without` | src/pages/Index.tsx:56-58 | The result holds exactly the lines whose id differs and none with the id. An absent id leaves the cart unchanged. |
| `CartState.WithQuantity` | src/pages/Index.tsx:60-62 | Same length. Lines with the id get exactly the given quantity, unclamped, and every other line is unchanged. |
| `CartState.TotalItems` | src/pages/Index.tsx:64 | With positive quantities, the item count is at least the number of lines. |
| `CartState.TotalItemsConcat` | src/pages/Index.tsx:64 | The item count of a concatenation is the sum of the counts. |
| `CartState.IncrementedTotal` | src/pages/Index.tsx:48 | With unique ids, incrementing adds one item exactly when the id is present. |
| `CartState.AddedKeepsUniqueIds` | src/pages/Index.tsx:44-52 | `addToCart` keeps at most one line per id. |
| `CartState.AddedTotalItems` | src/pages/Index.tsx:44-52 | With unique ids, `addToCart` raises `totalItems` by exactly one. |
| `CartState.AddedKeepsPositive` | src/pages/Index.tsx:44-52 | `addToCart` keeps every quantity at least one. |
| `CartState.AddTwice` | src/pages/Index.tsx:44-52 | Adding a new product twice appends one line of quantity two. |
| `CartState.UniqueIdsCons` | src/pages/Index.tsx:45-51 | Uniqueness of ids splits into "the head's id is not in the tail" and uniqueness of the tail. |
| `CartState.WithoutKeepsUniqueIds` | src/pages/Index.tsx:56-58 | `removeFromCart` keeps at most one line per id. |
| `CartState.WithoutIdempotent` | src/pages/Index.tsx:56-58 | Removing an id twice equals removing it once. |
| `CartState.WithoutConcat` | src/pages/Index.tsx:56-58 | Removal distributes over concatenation, so the kept lines stay in order. |
| `CartState.WithoutKeepsPositive` | src/pages/Index.tsx:56-58 | `removeFromCart` keeps every quantity at least one. |
| `CartState.WithQuantityKeepsUniqueIds` | src/pages/Index.tsx:60-62 | `updateQuantity` keeps at most one line per id. |
| `CartState.WithQuantityKeepsPositive` | src/pages/Index.tsx:60-62 | `updateQuantity` with a quantity of at least one keeps every quantity at least one. |
| `CartState.WithQuantityDoesNotClamp` | src/pages/Index.tsx:60-62 | `updateQuantity(id, 0)` stores quantity 0. |
| `CartState.Session.constructor` | src/pages/Index.tsx:22-25 | The session starts with an empty cart, the panel closed and no discount. |
| `CartState.Session.DiscountPercent` | src/pages/Index.tsx:486 | The percentage passed to the cart is 20 when the discount is active and 0 otherwise. |
| `CartState.Session.AddToCart` | src/pages/Index.tsx:44-54 | The new cart is `Added` of the old one, the panel is open, the discount flag is unchanged, uniqueness holds, `totalItems` rises by one, and positive quantities stay positive. |
| `CartState.Session.RemoveFromCart` | src/pages/Index.tsx:56-58 | The new cart is `Without` of the old one, and nothing else changes. |
| `CartState.Session.UpdateQuantity` | src/pages/Index.tsx:60-62 | The new cart is `WithQuantity` of the old one, and nothing else changes. |
| `CartState.Session.ActivateDiscount` | src/pages/Index.tsx:155-156 | The discount flag becomes true and the cart is unchanged. No operation sets it back to false. |
| `CartState.Session.OpenCart` | src/pages/Index.tsx:121 | The cart panel opens and nothing else changes. |
| `CartState.Session.CloseCart` | src/pages/Index.tsx:482 | The cart panel closes and nothing else changes. |
| `Checkout.RoundDiv` | src/components/Cart.tsx:28 | The result is within one half of `num / den`, with halves rounded up. |
| `Checkout.RoundDivUnique` | src/components/Cart.tsx:28 | That bound determines the rounded value uniquely. |
| `Checkout.Subtotal` | src/components/Cart.tsx:27 | An empty cart gives 0. Non-negative prices and quantities give a non-negative subtotal. |
| `Checkout.Amount` | src/components/Cart.tsx:27 | A line with non-negative price and quantity costs a non-negative amount. |
| `Checkout.DiscountAmount` | src/components/Cart.tsx:28 | The discount is `subtotal·discount/100` rounded to nearest. It lies between 0 and the subtotal for a non-negative subtotal and a percentage in 0..100, and percentage 0 gives 0. |
| `Checkout.Total` | src/components/Cart.tsx:29 | The total lies between 0 and the subtotal, and equals the subtotal when the percentage is 0. |
| `Checkout.Commission` | src/components/Cart.tsx:30 | Sber gives `total·2/100` rounded to nearest, and every other choice (none, T-Bank, SBP) gives 0. A non-negative total gives a commission between 0 and the total. |
| `Checkout.FinalTotal` | src/components/Cart.tsx:31 | For a non-negative total, the payable amount is at least the total. It equals the total for every method but Sber. |
| `Checkout.SubtotalConcat` | src/components/Cart.tsx:27 | The subtotal of a concatenation is the sum of the subtotals. |
| `Checkout.IncrementedSubtotal` | src/components/Cart.tsx:27 | With unique ids, incrementing a line adds exactly that line's price to the subtotal. |
| `Checkout.IncrementedHead` | src/pages/Index.tsx:48 | With unique ids, incrementing the first line's id changes only the first line. |
| `Checkout.AddedSubtotal` | src/components/Cart.tsx:27 | With unique ids, `addToCart(p)` raises the subtotal by the existing line's price, or by `p`'s price for a new line. |
| `Checkout.WithoutSubtotal` | src/components/Cart.tsx:27 | With unique ids, removing a line lowers the subtotal by exactly price times quantity. |
| `Checkout.TotalsNonNegative` | src/components/Cart.tsx:27-31 | With non-negative lines and a percentage in 0..100: 0 ≤ discount ≤ subtotal, 0 ≤ total ≤ subtotal, and total ≤ final total. |
| `Checkout.DiscountExample` | src/components/Cart.tsx:28-29 | Subtotal 1000 at 20% gives discount 200 and total 800. |
| `Checkout.CommissionExample` | src/components/Cart.tsx:30-31 | Total 800 with Sber gives commission 16 and final total 816. |
| `Checkout.DecrementTarget` | src/components/Cart.tsx:83 | The minus button asks for one less, but never less than one. |
| `Checkout.ClickMinus` | src/components/Cart.tsx:83 | The cart becomes `WithQuantity` with the clamped decrement, uniqueness holds, and positive quantities stay positive. |
| `Checkout.ClickPlus` | src/components/Cart.tsx:92 | The cart becomes `WithQuantity` with one more unit, positive quantities stay positive, and `totalItems` rises by one. |
| `Checkout.ClickRemove` | src/components/Cart.tsx:104 | The line is removed, the subtotal drops by exactly its amount, and positive quantities stay positive. |
| `Checkout.WithQuantityTotal` | src/pages/Index.tsx:60-64 | With unique ids, setting one line's quantity changes the item count by the difference. |
| `Checkout.Enabled` | src/components/Cart.tsx:147-172 | The definition of the enabled payment buttons: only Sber; T-Bank and SBP are disabled. |
| `Checkout.PaymentDialog.ChosenIsEnabled` | src/components/Cart.tsx:145-172 | The definition of "no disabled method is chosen": no method, or an enabled one. |
| `Checkout.PaymentDialog.constructor` | src/components/Cart.tsx:24-25 | The dialog starts hidden with no method chosen. |
| `Checkout.PaymentDialog.HandleCheckout` | src/components/Cart.tsx:33-37 | The dialog is shown afterwards iff it was shown before or the cart is non-empty. An empty cart changes nothing, and the method is kept. |
| `Checkout.PaymentDialog.HandlePayment` | src/components/Cart.tsx:39-41 | The chosen method becomes `m`, and the dialog's visibility is unchanged. The "only enabled methods chosen" property holds afterwards iff `m` is Sber. |
| `Checkout.PaymentDialog.Back` | src/components/Cart.tsx:242 | The chosen method is cleared, and the dialog's visibility is unchanged. |
| `Checkout.PaymentDialog.OnOpenChange` | src/components/Cart.tsx:139 | Only the visibility changes, and the chosen method is kept. |
| `Checkout.CheckoutScenario` | src/components/Cart.tsx:33-41 | A run through the enabled controls: checkout on a non-empty cart opens the dialog; choosing Sber, closing and checking out again shows the dialog with Sber still chosen; back clears the choice and keeps the dialog open. |

## Left out

- Rendering, styling, icons, badges and the empty-state placeholders: view only.
- `scrollToSection` and its `scrollIntoView`, the two `window.open` links, and the clipboard write of the card number: I/O and browser calls.
- The profile panel (`src/components/Profile.tsx`) and the FAQ (`src/components/FAQ.tsx`): read-only display with no state.
- The product catalogue and category list (`@/data/products`), which are not part of this model. The catalogue is an input sequence, and products are restricted to the fields the query and cart read.
- The setters of the selection state (search text, category, platform, sort key), `isProfileOpen` and `activeSection`. The four selections are the `Selection` parameter of the query.
- The page never calls `setSelectedPlatform`, so its platform selection is always "all"; the model keeps it as a parameter. Likewise the sort select offers only the three known keys, so `Catalog.SortUnknownKey` covers a branch the page's controls cannot reach.
- Catalog.Sort: for the `popular` key the comparator `b.popular ? 1 : -1` is not a consistent ordering, so the browser's result depends on its sort algorithm. Only the permutation property is claimed for that key. The model's own order for it is one possible outcome, not the browser's.
- Catalog.LowerChar: lowers only ASCII and the basic Cyrillic alphabet (А-Я and Ё), not the full Unicode case mapping of `toLowerCase`.
- Checkout.DiscountAmount: uses exact rational rounding, not the floating-point `subtotal * (discount / 100)`. Results can differ where the binary floating-point product lands just below a half.
- Checkout.Commission: uses exact rational rounding of `total * 2 / 100`, not the floating-point `total * 0.02`, for the same reason.
- JavaScript numbers are doubles. Prices, quantities and sums are unbounded integers here, so precision loss above 2^53 is not modelled.
- Checkout.PaymentDialog.HandlePayment: accepts every method, as the source function does. The disabled T-Bank and SBP buttons cannot call it, and that restriction is captured only through `ChosenIsEnabled`, not as a separate button action.
