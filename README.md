# DermaRokh storefront core, modelled in Dafny

This project models the logic of the DermaRokh skincare storefront. It has three parts:

- **The server's in-memory store** (`MemStorage`). It covers the product query engine (eight guarded filters, five sort orders and a limit), the case-insensitive product search, the cart and wishlist tables, the reviews, and the discount-code validator.
- **The client's state stores.** These are the cart store with its derived totals, the wishlist store, the recent-searches list and the product-filter selection.
- **The checkout arithmetic of the cart page.** This covers the shipping rule, the amount payable and the discount-code box.

Modules:

| module | file | models |
|---|---|---|
| `Options` | options.dfy | optional values (`undefined` / `null`) and the `x || default` idiom |
| `Seqs` | seqs.dfy | `Array.prototype.filter`, `find`/`findIndex`, key uniqueness, and the in-place delete loop over a `Map` |
| `Text` | text.dfy | `toLowerCase`, `toUpperCase`, `includes` and the blank test `!s.trim()` |
| `Catalog` | catalog.dfy | products, `ProductFilters`, the filter predicates, the comparator sorts, the `"newest"` partition, `limit` and search, all as functions of the catalog |
| `Storage` | storage.dfy | the `MemStorage` class: `Map` fields become `seq` fields in insertion order, and the methods mutate them |
| `CartState`, `WishlistState`, `SearchState`, `FilterState` | cart_state.dfy, wishlist_state.dfy, search_state.dfy, filter_state.dfy | the four client stores: one class each, with next-state functions and lemmas |
| `Checkout` | checkout.dfy | shipping, final total and the demo discount codes of the cart page |
| `Scenarios` | scenarios.dfy | worked examples on the seeded `prod-6`, reviews and discount codes |

Modelling choices that matter for reading the contracts:

- Each JavaScript `Map` is a sequence in insertion order, because that is the order `values()` yields. The server's discount codes are only ever looked up, so they are a Dafny `map`.
- Generated ids come from a counter, `nextId`. Every stored id is below it, and all ids are distinct.
- `Array.prototype.sort` with the comparator `(a, b) => Rank(a) - Rank(b)` is modelled by a stable insertion sort, `Catalog.StableSort`. JavaScript's sort is stable and this comparator is a consistent total preorder. Any stable sort by it gives the same sequence, so the model is exact.
- "Newest" is modelled as the source writes it: the new products, then the others, each group keeping its order.
- Truthiness is modelled case by case:
  - an empty `category` imposes nothing;
  - an empty `brands` list imposes nothing;
  - `limit` 0 means no limit;
  - a negative `limit` slices from the end, as `slice(0, -k)` does;
  - `item.quantity || 1` turns 0 into 1;
  - `maxUses` 0 or absent means no cap;
  - a missing `usedCount` compares as 0;
  - `isActive` must be exactly true.

Behaviours of the code worth knowing when reading the contracts:

- `searchProducts("")` returns the whole catalog, because every string includes the empty string (`Catalog.SearchEmptyQuery`). The HTTP route answers `[]` for an absent or empty `q` before the store is called (`Storage.SearchRequest`).
- The server's `updateCartQuantity` sets a quantity of 0 and keeps the entry, which the session's cart still lists (`Scenarios.ServerUpdateToZero`). The client store's `updateQuantity` with 0 or less removes the line (`CartState.UpdatedItemsEffect`).
- A discount code whose `maxUses` is 0 or absent has no cap, however often it was used (`Storage.UncappedCodeAccepted`).
- Toggling a present category or brand id twice moves it to the end of the list: the members come back, not the order (`FilterState.ToggledTwiceReorders`). Toggling an absent id twice restores the list exactly.

## Model

| member | source | states |
|---|---|---|
| Storage.MemStorage.constructor | server/storage.ts:93-104 | the store starts with the seeded catalog, codes and reviews, and with empty cart and wishlist tables; product and review ids are distinct, and the id counter is above every seeded review id |
| Storage.ReviewIdBound | server/storage.ts:509-515 | the counter value chosen after seeding lies above every seeded review id, so later ids are fresh |
| Storage.ApplyFilters | server/storage.ts:564-588 | the eight guarded filters in sequence keep exactly the catalog's products that satisfy every supplied filter, in catalog order |
| Storage.SortProducts | server/storage.ts:590-608 | the sort switch yields the arrangement `OrderingOf(sort)` selects, and any value that is not recognised falls to the review-count order |
| Storage.MemStorage.GetProducts | server/storage.ts:561-616 | the result is `Query(products, filters)`: the catalog untouched without filters; otherwise the matching products, arranged, then truncated by a truthy limit |
| Catalog.QueryUnfiltered | server/storage.ts:562-564 | without filters the catalog comes back in insertion order, unsorted |
| Catalog.QueryContents | server/storage.ts:564-588 | every returned product is in the catalog and matches every supplied filter; with a limit of 0 or none, the result is exactly the matching products, each as often as in the catalog |
| Catalog.QueryLimit | server/storage.ts:610-612 | with a positive limit the result is the first min(limit, n) arranged products |
| Catalog.QueryOrder | server/storage.ts:590-612 | the result is ordered by the requested comparator (price up, price down, rating down, reviews down), or has every new product before every other for `"newest"` |
| Catalog.Insert | server/storage.ts:595-606 | one insertion step of the stable sort adds exactly `x` to the multiset |
| Catalog.StableSort | server/storage.ts:595-606 | sorting is a permutation of its input |
| Catalog.StableSortSorted | server/storage.ts:595-606 | sorting orders the products by the comparator's rank |
| Catalog.StableSortInOrder | server/storage.ts:595-606 | in the sorted result, price rises for price-low, price falls for price-high, rating falls for rating, and review count falls for popular; an absent rating or count counts as 0 |
| Catalog.StableSortStable | server/storage.ts:595-606 | products of equal rank keep their relative order |
| Catalog.StableSortIdempotent | server/storage.ts:595-606 | sorting a sorted result changes nothing |
| Catalog.NewestFirstPartition | server/storage.ts:592-593 | `"newest"` is a permutation in which every new product precedes every other, each group in its original order |
| Catalog.ArrangePermutes | server/storage.ts:590-608 | every ordering is a permutation of the filtered products |
| Catalog.InOrderIsRank | server/storage.ts:595-606 | each comparator's rank order is the order stated in the product's own fields |
| Catalog.QueryNegativeLimit | server/storage.ts:610-612 | a negative limit `-k` drops the last k arranged products, leaving none when k is at least their number |
| Catalog.Search | server/storage.ts:626-635 | a product is returned iff the lower-cased query is a substring of its lower-cased name, English name, description or brand, and catalog order is kept |
| Catalog.SearchEmptyQuery | server/storage.ts:626-635 | an empty query returns the whole catalog |
| Text.Includes | server/storage.ts:630-633 | the left-to-right scan holds iff the needle occurs somewhere in the text |
| Storage.SearchRequest | server/routes.ts:89-95 | an absent or empty `q` answers `[]`; any other `q` answers the store's search, which holds only catalog products |
| Storage.MemStorage.SearchProducts | server/storage.ts:626-635 | on the store's catalog: a product is returned iff the lower-cased query is a substring of one of its four lower-cased fields, in catalog order |
| Storage.MemStorage.GetProduct | server/storage.ts:618-620 | the product with that id is found iff the catalog has one |
| Storage.MemStorage.GetProductBySlug | server/storage.ts:622-624 | the first product in catalog order with that slug is returned, and none iff no product has it |
| Storage.MemStorage.GetCartItems | server/storage.ts:638-646 | a pair (entry, product) is returned iff the entry belongs to the session and its product exists and is that product |
| Storage.MemStorage.JoinCart | server/storage.ts:642-645 | joining drops exactly the entries whose product is missing |
| Storage.MemStorage.AddToCart | server/storage.ts:648-662 | an existing (session, product) entry grows by `quantity \|\| 1` in place and no entry is added; otherwise one entry with that quantity and a fresh id is appended; afterwards exactly one entry has the pair; other tables are unchanged |
| Storage.MemStorage.UpdateCartQuantity | server/storage.ts:664-670 | an unknown id returns nothing and changes nothing; a known id gets exactly that quantity, 0 or below included, and stays |
| Storage.MemStorage.RemoveFromCart | server/storage.ts:672-674 | exactly the entry with that id goes, and the rest keep their order |
| Storage.MemStorage.ClearCart | server/storage.ts:676-682 | the in-place walk removes every entry of the session and none of another session, keeping the order of what stays |
| Seqs.DeleteWhere | server/storage.ts:677-681 | deleting the failing elements while walking the entries yields the filter of the original list |
| Storage.MemStorage.GetWishlistItems | server/storage.ts:685-693 | the session's entries whose product exists, each joined with it |
| Storage.MemStorage.JoinWishlist | server/storage.ts:689-692 | joining drops exactly the entries whose product is missing |
| Storage.MemStorage.AddToWishlist | server/storage.ts:695-706 | a repeated (session, product) returns the existing entry and leaves the table unchanged; otherwise one entry is appended; afterwards exactly one entry has the pair |
| Storage.MemStorage.RemoveFromWishlist | server/storage.ts:708-710 | exactly the entry with that id goes |
| Storage.MemStorage.IsInWishlist | server/storage.ts:712-716 | holds iff some entry has both that session and that product |
| Storage.MemStorage.GetProductReviews | server/storage.ts:719-721 | exactly the reviews of that product |
| Storage.MemStorage.AddReview | server/storage.ts:723-728 | the review is appended under a fresh id and nothing else changes |
| Storage.MemStorage.GetDiscountCode | server/storage.ts:731-733 | the code is looked up upper-cased |
| Storage.MemStorage.ValidateDiscountCode | server/storage.ts:735-741 | valid iff the upper-cased code exists, is active and is not exhausted (a truthy `maxUses` with `usedCount >= maxUses`); the percent is present exactly when valid; the store is only read, so `usedCount` never changes |
| Storage.ValidateIgnoresCase | server/storage.ts:731-741 | codes that upper-case alike validate alike, so "derma10" validates as "DERMA10" does |
| Storage.ExhaustedCodeRejected | server/storage.ts:737 | a capped code whose `usedCount` equals `maxUses` is invalid |
| Storage.UncappedCodeAccepted | server/storage.ts:737-740 | an active code with `maxUses` 0 or absent is valid however often it was used |
| CartState.CartStore.constructor | client/src/lib/store.ts:72-75 | the cart starts empty with no discount |
| CartState.CartStore.SetItems | client/src/lib/store.ts:76 | replaces the lines and nothing else |
| CartState.CartStore.AddItem | client/src/lib/store.ts:77-103 | the lines become `AddedItems` with quantity defaulting to 1 only when absent; the discount is untouched |
| CartState.AddedItemsEffect | client/src/lib/store.ts:77-103 | with one line per product, an existing line grows by q and nothing else changes, length included; otherwise one line with quantity q is appended; one line per product is kept |
| CartState.AddedItemsTotals | client/src/lib/store.ts:77-134 | adding raises the item count by q and the subtotal by q times the line's price |
| CartState.AddQuantityTotals | client/src/lib/store.ts:83-134 | merging into the unique line of a product adds q items and q times that line's price |
| CartState.CartStore.RemoveItem | client/src/lib/store.ts:104-106 | the lines become those of every other product |
| CartState.CartStore.UpdateQuantity | client/src/lib/store.ts:107-117 | a quantity of 0 or less delegates to `removeItem`; otherwise every line of the product gets that quantity |
| CartState.UpdatedItemsEffect | client/src/lib/store.ts:104-117 | a quantity of 0 or less is removal of exactly that product's lines, with the rest in order; a positive one changes only that product's quantity; one line per product is kept |
| CartState.WithoutProductCount | client/src/lib/store.ts:104-134 | removing a product's unique line takes its quantity off the item count and its price times quantity off the subtotal |
| CartState.CartStore.ClearCart | client/src/lib/store.ts:118 | empties the lines and also resets the discount to none and 0 |
| CartState.CartStore.ApplyDiscount | client/src/lib/store.ts:119 | replaces any previous code and percent |
| CartState.CartStore.RemoveDiscount | client/src/lib/store.ts:120 | resets the code to none and the percent to 0 |
| CartState.SubtotalAppend | client/src/lib/store.ts:121-134 | subtotal and item count add up over concatenated carts |
| CartState.DiscountAmount | client/src/lib/store.ts:124-128 | for a percentage in 0..100 and a non-negative subtotal, the discount lies between 0 and the subtotal |
| CartState.CartStore.GetDiscountAmount | client/src/lib/store.ts:124-128 | the store's discount lies between 0 and its subtotal for a percentage in 0..100 |
| CartState.CartStore.GetTotal | client/src/lib/store.ts:129-131 | the total is the subtotal times (100 - percent) / 100, the subtotal itself without a discount |
| CartState.HasLine | client/src/lib/store.ts:79 | holds iff some line has that product |
| CartState.AddQuantity | client/src/lib/store.ts:83-87 | lines of the product gain q, all others are kept, position by position |
| CartState.SetQuantity | client/src/lib/store.ts:113-115 | lines of the product get quantity q, all others are kept, position by position |
| WishlistState.WishlistStore.constructor | client/src/lib/store.ts:157-158 | the wishlist starts empty |
| WishlistState.WishlistStore.SetItems | client/src/lib/store.ts:159 | replaces the entries |
| WishlistState.WishlistStore.AddItem | client/src/lib/store.ts:160-175 | appends an entry only when the product is not listed |
| WishlistState.AddedIdempotent | client/src/lib/store.ts:160-175 | after an add the product is listed, and a second add of it, under any id, changes nothing |
| WishlistState.WishlistStore.RemoveItem | client/src/lib/store.ts:176-178 | drops exactly the product's entries |
| WishlistState.Contains | client/src/lib/store.ts:179-181 | holds iff some entry has that product |
| WishlistState.WishlistStore.IsInWishlist | client/src/lib/store.ts:179-181 | holds iff some entry has that product |
| WishlistState.WishlistStore.ToggleItem | client/src/lib/store.ts:182-188 | removes a listed product and adds an unlisted one |
| WishlistState.ToggledMembership | client/src/lib/store.ts:182-188 | a toggle flips the product's membership and leaves every other product's as it was |
| WishlistState.ToggledTwice | client/src/lib/store.ts:182-188 | two toggles restore every product's membership; for an unlisted product they restore the list exactly |
| WishlistState.WishlistStore.GetItemCount | client/src/lib/store.ts:189 | the count is 0 iff the wishlist is empty |
| WishlistState.AddedCount | client/src/lib/store.ts:160-189 | an add raises the count by one exactly when the product was not listed |
| SearchState.SearchStore.constructor | client/src/lib/store.ts:211-213 | empty query, closed panel, no recent searches |
| SearchState.SearchStore.SetQuery | client/src/lib/store.ts:214 | sets the query only |
| SearchState.SearchStore.SetIsOpen | client/src/lib/store.ts:215 | sets the panel flag only |
| SearchState.SearchStore.AddRecentSearch | client/src/lib/store.ts:216-220 | the list becomes `WithRecent(old list, q)` |
| SearchState.WithRecentEffect | client/src/lib/store.ts:216-220 | a blank query changes nothing; otherwise the head is q, no other entry is q, there are at most five entries, and the rest are the earlier searches other than q, in their previous order |
| SearchState.WithRecentRepeat | client/src/lib/store.ts:216-220 | repeating the latest search leaves the list as it is |
| SearchState.Take | client/src/lib/store.ts:219 | `slice(0, n)` keeps the first min(n, length) elements |
| SearchState.SearchStore.ClearRecentSearches | client/src/lib/store.ts:221 | empties the recent searches |
| FilterState.FilterStore.constructor | client/src/lib/store.ts:249-255 | every field starts at its initial value |
| FilterState.FilterStore.ToggleCategory | client/src/lib/store.ts:256-263 | the category list is toggled, and every other field is unchanged |
| FilterState.FilterStore.ToggleBrand | client/src/lib/store.ts:264-271 | the brand list is toggled, and every other field is unchanged |
| FilterState.ToggledMembership | client/src/lib/store.ts:256-271 | a toggle flips the id's membership and leaves every other id's as it was |
| FilterState.ToggledTwiceAbsent | client/src/lib/store.ts:256-271 | toggling an absent id twice restores the list exactly |
| FilterState.ToggledTwicePresent | client/src/lib/store.ts:256-271 | toggling a present id twice moves it to the end |
| FilterState.ToggledTwiceSameIds | client/src/lib/store.ts:256-271 | with no duplicates, toggling a present id twice restores the list's ids as a multiset |
| FilterState.ToggledTwiceReorders | client/src/lib/store.ts:256-263 | the order is not restored: ["a", "b"] becomes ["b", "a"] |
| FilterState.FilterStore.SetPriceRange | client/src/lib/store.ts:272 | sets the price range only |
| FilterState.FilterStore.SetMinRating | client/src/lib/store.ts:273 | sets the minimum rating only |
| FilterState.FilterStore.SetSortBy | client/src/lib/store.ts:274 | sets the sort order only |
| FilterState.FilterStore.SetSkinType | client/src/lib/store.ts:275 | sets the skin type only |
| FilterState.FilterStore.SetIsNew | client/src/lib/store.ts:276 | sets the new-only flag only |
| FilterState.FilterStore.ClearFilters | client/src/lib/store.ts:277-286 | every field returns to its initial value whatever the state before, so clearing twice is clearing once |
| Checkout.ShippingCost | client/src/pages/cart.tsx:35 | shipping is 0 iff the total is at least 500000, and 50000 otherwise; the same rule is in client/src/components/cart-drawer.tsx:32 |
| Checkout.FinalTotal | client/src/pages/cart.tsx:36 | the payable amount equals the total at or above the threshold, is the total plus 50000 below it, and is never below the total |
| Checkout.Payable | client/src/pages/cart.tsx:34-36 | the amount the page shows is the cart total at or above 500000 and the total plus the 50000 fee below it |
| Checkout.PayableJumpsAtThreshold | client/src/components/cart-drawer.tsx:32-33 | every total less than one fee below the threshold pays more than a total at the threshold |
| Checkout.DiscountFor | client/src/pages/cart.tsx:39-55 | a blank input or a code not in the table gives nothing; a known code gives the upper-cased input, which is its own upper case, with the table's percentage |
| Checkout.HandleApplyDiscount | client/src/pages/cart.tsx:39-66 | on a hit the cart's discount becomes the upper-cased code and its percentage; otherwise the code and percent stay as they were |
| Checkout.UpperKeepsBlank | client/src/pages/cart.tsx:39-52 | upper-casing keeps an input blank or non-blank |
| Checkout.DiscountForIgnoresCase | client/src/pages/cart.tsx:39-55 | inputs that upper-case alike apply the same discount |
| Checkout.WelcomeCode | client/src/pages/cart.tsx:46-55 | "welcome" gives WELCOME at 15 |
| Scenarios.Prod6Checkout | client/src/lib/store.ts:77-134 | `prod-6` at 520000, added twice, is one line of 2; the subtotal is 1040000; WELCOME takes off 156000, leaving 884000; shipping is 0 and 884000 is payable |
| Scenarios.Prod6CheckoutOnStore | client/src/pages/cart.tsx:32-36 | the same figures come out of the cart store object driven by the cart page |
| Scenarios.ServerCartMerge | server/storage.ts:648-662 | adding 2 then 3 of `prod-6` in one session leaves one entry of quantity 5 |
| Scenarios.ServerUpdateToZero | server/storage.ts:664-670 | a server update to 0 keeps the entry, which the session's cart still lists |
| Scenarios.SeededReviews | server/storage.ts:509-728 | a seeded review is listed for its product, and the next review gets the id after the seeded ones |
| Scenarios.SeededValidation | server/storage.ts:502-506 | the seeded DERMA10 validates at 10 in either case, and an unknown code is invalid |
| Scenarios.NewestExample | server/storage.ts:592-593 | [A, B(new), C, D(new)] arranged newest-first is [B, D, A, C] |
| Scenarios.SearchByBrand | server/storage.ts:626-635 | "glow SCIENCE" finds `prod-6` through its brand |

## Left out

- HTTP routing (`server/routes.ts`) is not modelled: the Express handlers, status codes, `try`/`catch`, and the `parseFloat`/`parseInt` decoding of query strings (which can produce `NaN`). The only exception is the search route's guard on `q`.
- Randomness is a parameter. `randomUUID` ids are counter values. The client's `Math.random` session, cart and wishlist ids are passed in by the caller.
- The clock is a parameter: a review's date is supplied to `AddReview`.
- `async`/`Promise` wrappers are left out: every storage method completes synchronously.
- The cart page's `setTimeout` delay, toasts, `isApplying` flag and input-clearing are left out because they are UI state.
- zustand `persist` and localStorage, and the theme store with its `document` class toggling, are left out because they are browser plumbing. Each store is a plain object with fields.
- Floating point is left out:
  - prices are whole numbers (`nat`);
  - ratings are compared only, so they are `real`;
  - discount amounts and totals are exact `real` arithmetic, not IEEE doubles.
- Case mapping covers only ASCII letters. JavaScript also maps other characters, for example `ı` to `I`. The Persian text has no case, so it is unaffected.
- Product booleans (`isNew`, `isBestSeller`, `isFeatured`) are modelled as plain booleans. The schema allows them to be null, and a null flag would match neither `true` nor `false` in the source's `===` filters.
- Product fields the logic never reads are not modelled: images, stock, original price, ingredients and the other detail-page texts.
- Aliasing and in-place sorting are modelled on values:
  - `addToCart` and `updateCartQuantity` return the stored object itself, so a caller that later mutates it changes the table;
  - the source sorts its local copy in place, which the model does on values.
- User, category and brand lookups (`server/storage.ts:519-558`) are plain map reads and first-match finds over data outside the core, so they are left out.
- The seed data (`initializeData`) is not written out in full: the constructor takes the catalog, codes and reviews as parameters, and `Scenarios` uses `prod-6`, the three discount codes and one review modelled on rev-3.
- Review ids are counter values (`nat`), not the strings `rev-1` to `rev-4` and `randomUUID` of the source; only their distinctness matters to the store.
- `CartState.CartStore.GetSubtotal`, `CartState.CartStore.GetItemCount`, `CartState.Subtotal` and `CartState.ItemCount`: these reductions carry no contract of their own. Their properties are the lemmas `SubtotalAppend`, `AddedItemsTotals`, `AddQuantityTotals` and `WithoutProductCount`.
