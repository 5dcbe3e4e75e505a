/**
 * The server's in-memory store (`MemStorage`): the catalog, the cart and
 * wishlist tables, the reviews and the discount codes. Each JavaScript `Map`
 * is a field holding its entries in insertion order (the order `values()`
 * yields them); the discount codes, only ever looked up, are a `map`.
 * Generated ids come from a counter instead of `randomUUID`.
 */
module Storage {
  import opened Options
  import opened Seqs
  import opened Text
  import opened Catalog

  datatype CartItem = CartItem(id: nat, sessionId: string, productId: string, quantity: int)

  datatype WishlistItem = WishlistItem(id: nat, sessionId: string, productId: string)

  datatype Review = Review(
    id: nat, productId: string, userName: string, rating: int, comment: string, date: string)

  datatype DiscountCode = DiscountCode(
    id: string,
    code: string,
    discountPercent: int,
    maxUses: Option<int>,
    usedCount: Option<int>,
    isActive: Option<bool>)

  /** `{ valid: boolean; percent?: number }` */
  datatype DiscountValidation = DiscountValidation(valid: bool, percent: Option<int>)

  /** A table entry joined with the product it references. */
  type CartItemWithProduct = (CartItem, Product)
  type WishlistItemWithProduct = (WishlistItem, Product)

  function ProductId(p: Product): string { p.id }
  function CartId(c: CartItem): nat { c.id }
  function CartPair(c: CartItem): (string, string) { (c.sessionId, c.productId) }
  function CartProductId(c: CartItem): string { c.productId }
  function WishlistId(w: WishlistItem): nat { w.id }
  function WishlistPair(w: WishlistItem): (string, string) { (w.sessionId, w.productId) }
  function WishlistProductId(w: WishlistItem): string { w.productId }
  function ReviewId(r: Review): nat { r.id }

  /** `item.quantity || 1`: an absent or zero quantity adds one. */
  function AddedQuantity(quantity: Option<int>): int {
    if quantity.None? || quantity.value == 0 then 1 else quantity.value
  }

  /** `!dc.isActive || (dc.maxUses && dc.usedCount >= dc.maxUses)` negated: active, and
      either uncapped (`maxUses` absent or 0) or with uses left; a missing `usedCount` compares as 0. */
  predicate Redeemable(dc: DiscountCode) {
    && dc.isActive == Some(true)
    && (dc.maxUses.None? || dc.maxUses.value == 0 || dc.usedCount.GetOr(0) < dc.maxUses.value)
  }

  /**
   * The eight guarded `filter` calls of `getProducts`, in the source's order
   * (each test reads its field only when the guard holds, so `GetOr` never
   * takes its default). After step `n`, `r` is the catalog filtered by
   * `PassesFirst(n, f, _)`; after the last, by `Matches`.
   */
  method ApplyFilters(f: ProductFilters, all: seq<Product>) returns (r: seq<Product>)
    ensures r == Matching(f, all)
  {
    r := all;
    FilterKeepsAll((p: Product) => PassesFirst(0, f, p), all);
    r := if CategoryActive(f) then Filter((p: Product) => p.categoryId == f.category.GetOr(""), r) else r;
    FilterStep(all, (p: Product) => PassesFirst(0, f, p), CategoryActive(f),
      (p: Product) => p.categoryId == f.category.GetOr(""), (p: Product) => PassesFirst(1, f, p));
    r := if BrandsActive(f) then Filter((p: Product) => p.brandId in f.brands.GetOr([]), r) else r;
    FilterStep(all, (p: Product) => PassesFirst(1, f, p), BrandsActive(f),
      (p: Product) => p.brandId in f.brands.GetOr([]), (p: Product) => PassesFirst(2, f, p));
    r := if f.minPrice.Some? then Filter((p: Product) => p.price as real >= f.minPrice.GetOr(0.0), r) else r;
    FilterStep(all, (p: Product) => PassesFirst(2, f, p), f.minPrice.Some?,
      (p: Product) => p.price as real >= f.minPrice.GetOr(0.0), (p: Product) => PassesFirst(3, f, p));
    r := if f.maxPrice.Some? then Filter((p: Product) => p.price as real <= f.maxPrice.GetOr(0.0), r) else r;
    FilterStep(all, (p: Product) => PassesFirst(3, f, p), f.maxPrice.Some?,
      (p: Product) => p.price as real <= f.maxPrice.GetOr(0.0), (p: Product) => PassesFirst(4, f, p));
    r := if f.minRating.Some? then Filter((p: Product) => RatingOf(p) >= f.minRating.GetOr(0.0), r) else r;
    FilterStep(all, (p: Product) => PassesFirst(4, f, p), f.minRating.Some?,
      (p: Product) => RatingOf(p) >= f.minRating.GetOr(0.0), (p: Product) => PassesFirst(5, f, p));
    r := if f.isNew.Some? then Filter((p: Product) => p.isNew == f.isNew.GetOr(false), r) else r;
    FilterStep(all, (p: Product) => PassesFirst(5, f, p), f.isNew.Some?,
      (p: Product) => p.isNew == f.isNew.GetOr(false), (p: Product) => PassesFirst(6, f, p));
    r := if f.isBestSeller.Some? then Filter((p: Product) => p.isBestSeller == f.isBestSeller.GetOr(false), r) else r;
    FilterStep(all, (p: Product) => PassesFirst(6, f, p), f.isBestSeller.Some?,
      (p: Product) => p.isBestSeller == f.isBestSeller.GetOr(false), (p: Product) => PassesFirst(7, f, p));
    r := if f.isFeatured.Some? then Filter((p: Product) => p.isFeatured == f.isFeatured.GetOr(false), r) else r;
    FilterStep(all, (p: Product) => PassesFirst(7, f, p), f.isFeatured.Some?,
      (p: Product) => p.isFeatured == f.isFeatured.GetOr(false), (p: Product) => Matches(f, p));
  }

  /** The `switch (filters.sort)` of `getProducts`. */
  method SortProducts(sort: Option<string>, s: seq<Product>) returns (r: seq<Product>)
    ensures r == Arrange(OrderingOf(sort), s)
  {
    if sort == Some("newest") {
      r := Filter((p: Product) => p.isNew, s) + Filter((p: Product) => !p.isNew, s);
    } else if sort == Some("price-low") {
      r := StableSort(PriceAscending, s);
    } else if sort == Some("price-high") {
      r := StableSort(PriceDescending, s);
    } else if sort == Some("rating") {
      r := StableSort(RatingDescending, s);
    } else {
      r := StableSort(ReviewCountDescending, s);
    }
  }

  /** A counter value above every seeded review id, so that later ids are fresh. */
  function ReviewIdBound(rs: seq<Review>): (b: nat)
    ensures forall i :: 0 <= i < |rs| ==> rs[i].id < b
  {
    if rs == [] then 0
    else
      var rest := ReviewIdBound(rs[1..]);
      assert forall i :: 1 <= i < |rs| ==> rs[i] == rs[1..][i - 1];
      if rs[0].id < rest then rest else rs[0].id + 1
  }

  class MemStorage {
    var products: seq<Product>
    var cartItems: seq<CartItem>
    var wishlistItems: seq<WishlistItem>
    var reviews: seq<Review>
    var discountCodes: map<string, DiscountCode>
    /** Every id handed out so far is below `nextId`. */
    var nextId: nat

    /**
     * Product ids and item ids are keys; the cart and the wishlist hold at
     * most one entry per (session, product).
     */
    ghost predicate Valid()
      reads this
    {
      && KeysDistinct(ProductId, products)
      && KeysDistinct(CartId, cartItems)
      && KeysDistinct(CartPair, cartItems)
      && (forall i :: 0 <= i < |cartItems| ==> cartItems[i].id < nextId)
      && KeysDistinct(WishlistId, wishlistItems)
      && KeysDistinct(WishlistPair, wishlistItems)
      && (forall i :: 0 <= i < |wishlistItems| ==> wishlistItems[i].id < nextId)
      && KeysDistinct(ReviewId, reviews)
      && (forall i :: 0 <= i < |reviews| ==> reviews[i].id < nextId)
    }

    /** The store after seeding: the given catalog, codes and reviews, with empty carts and wishlists. */
    constructor (catalog: seq<Product>, codes: map<string, DiscountCode>, seedReviews: seq<Review>)
      requires KeysDistinct(ProductId, catalog) && KeysDistinct(ReviewId, seedReviews)
      ensures Valid()
      ensures products == catalog && discountCodes == codes && reviews == seedReviews
      ensures cartItems == [] && wishlistItems == [] && nextId == ReviewIdBound(seedReviews)
    {
      products := catalog;
      cartItems := [];
      wishlistItems := [];
      reviews := seedReviews;
      discountCodes := codes;
      nextId := ReviewIdBound(seedReviews);
    }

    // ------------------------------------------------------------ products

    /**
     * `getProducts(filters)`: the filters one after the other on a copy of
     * the catalog, then the sort, then the limit.
     */
    method GetProducts(filters: Option<ProductFilters>) returns (r: seq<Product>)
      ensures filters.None? ==> r == products
      ensures r == Query(products, filters)
    {
      r := products;
      if filters.Some? {
        var f := filters.value;
        r := ApplyFilters(f, r);
        r := SortProducts(f.sort, r);
        if f.limit.Some? && f.limit.value != 0 {
          r := r[..SliceEnd(|r|, f.limit.value)];
        }
      }
    }

    /** `getProduct(id)`: `products.get(id)`. */
    function GetProduct(id: string): (r: Option<Product>)
      reads this
      ensures r.Some? ==> r.value in products && r.value.id == id
      ensures r.None? <==> forall i :: 0 <= i < |products| ==> products[i].id != id
    {
      match FirstIndex((p: Product) => p.id == id, products)
      case None => None
      case Some(i) => Some(products[i])
    }

    /** `getProductBySlug(slug)`: the first product, in catalog order, with that slug. */
    function GetProductBySlug(slug: string): (r: Option<Product>)
      reads this
      ensures r.Some? ==>
        exists i :: && 0 <= i < |products| && products[i] == r.value && r.value.slug == slug
                    && forall j :: 0 <= j < i ==> products[j].slug != slug
      ensures r.None? <==> forall i :: 0 <= i < |products| ==> products[i].slug != slug
    {
      match FirstIndex((p: Product) => p.slug == slug, products)
      case None => None
      case Some(i) => Some(products[i])
    }

    /** `searchProducts(query)` */
    function SearchProducts(query: string): (r: seq<Product>)
      reads this
      ensures IsSubsequence(r, products)
      ensures forall p :: p in r <==> (p in products &&
        (|| IsSubstring(Lower(query), Lower(p.name))
         || IsSubstring(Lower(query), Lower(p.nameEn))
         || IsSubstring(Lower(query), Lower(p.description))
         || IsSubstring(Lower(query), Lower(p.brandId))))
    {
      Search(products, query)
    }

    // ------------------------------------------------------------ cart

    /** The position of the entry for (`sessionId`, `productId`), if any (the `find` of `addToCart`). */
    function CartIndexOf(sessionId: string, productId: string): (r: Option<nat>)
      reads this
    {
      FirstIndex((c: CartItem) => c.sessionId == sessionId && c.productId == productId, cartItems)
    }

    /** The position of the entry keyed `id`, if any. */
    function CartIndexById(id: nat): Option<nat>
      reads this
    {
      FirstIndex((c: CartItem) => c.id == id, cartItems)
    }

    /** `getCartItems(sessionId)`: that session's entries, joined with their products;
        an entry whose product is not in the catalog is dropped. */
    function GetCartItems(sessionId: string): (r: seq<CartItemWithProduct>)
      reads this
      ensures forall c, p :: (c, p) in r <==>
        c in cartItems && c.sessionId == sessionId && GetProduct(c.productId) == Some(p)
    {
      JoinCart(Filter((c: CartItem) => c.sessionId == sessionId, cartItems))
    }

    function JoinCart(items: seq<CartItem>): (r: seq<CartItemWithProduct>)
      reads this
      ensures forall c, p :: (c, p) in r <==> c in items && GetProduct(c.productId) == Some(p)
    {
      if items == [] then []
      else
        assert items == [items[0]] + items[1..];
        match GetProduct(items[0].productId)
        case None => JoinCart(items[1..])
        case Some(p) => [(items[0], p)] + JoinCart(items[1..])
    }

    /**
     * `addToCart`: adds to the quantity of the session's entry for the
     * product if there is one, otherwise appends a new entry with a fresh id.
     */
    method AddToCart(sessionId: string, productId: string, quantity: Option<int>) returns (item: CartItem)
      requires Valid()
      modifies this
      ensures Valid()
      ensures item in cartItems && item.sessionId == sessionId && item.productId == productId
      ensures forall i :: 0 <= i < |cartItems| && CartPair(cartItems[i]) == (sessionId, productId) ==>
        cartItems[i] == item
      ensures match old(CartIndexOf(sessionId, productId))
        case Some(i) =>
          && item == old(cartItems[i]).(quantity := old(cartItems[i]).quantity + AddedQuantity(quantity))
          && cartItems == old(cartItems)[i := item]
          && nextId == old(nextId)
        case None =>
          && item == CartItem(old(nextId), sessionId, productId, AddedQuantity(quantity))
          && cartItems == old(cartItems) + [item]
          && nextId == old(nextId) + 1
      ensures products == old(products) && wishlistItems == old(wishlistItems)
      ensures reviews == old(reviews) && discountCodes == old(discountCodes)
    {
      var found := CartIndexOf(sessionId, productId);
      if found.Some? {
        var i := found.value;
        item := cartItems[i].(quantity := cartItems[i].quantity + AddedQuantity(quantity));
        KeysDistinctUpdate(CartId, cartItems, i, item);
        KeysDistinctUpdate(CartPair, cartItems, i, item);
        cartItems := cartItems[i := item];
        assert cartItems[i] == item;
      } else {
        item := CartItem(nextId, sessionId, productId, AddedQuantity(quantity));
        KeysDistinctSnoc(CartId, cartItems, item);
        KeysDistinctSnoc(CartPair, cartItems, item);
        cartItems := cartItems + [item];
        nextId := nextId + 1;
      }
    }

    /**
     * `updateCartQuantity(id, quantity)`: sets the entry's quantity to exactly
     * `quantity` (0 or below included: the entry stays); an unknown id changes nothing.
     */
    method UpdateCartQuantity(id: nat, quantity: int) returns (r: Option<CartItem>)
      requires Valid()
      modifies this
      ensures Valid()
      ensures match old(CartIndexById(id))
        case None => r.None? && cartItems == old(cartItems)
        case Some(i) =>
          && r == Some(old(cartItems[i]).(quantity := quantity))
          && cartItems == old(cartItems)[i := r.value]
      ensures products == old(products) && wishlistItems == old(wishlistItems)
      ensures reviews == old(reviews) && discountCodes == old(discountCodes) && nextId == old(nextId)
    {
      var found := CartIndexById(id);
      if found.None? {
        r := None;
      } else {
        var i := found.value;
        var item := cartItems[i].(quantity := quantity);
        KeysDistinctUpdate(CartId, cartItems, i, item);
        KeysDistinctUpdate(CartPair, cartItems, i, item);
        cartItems := cartItems[i := item];
        r := Some(item);
      }
    }

    /** `removeFromCart(id)`: deletes the entry keyed `id` and nothing else. */
    method RemoveFromCart(id: nat)
      requires Valid()
      modifies this
      ensures Valid()
      ensures cartItems == Filter((c: CartItem) => c.id != id, old(cartItems))
      ensures forall c :: c in cartItems <==> c in old(cartItems) && c.id != id
      ensures products == old(products) && wishlistItems == old(wishlistItems)
      ensures reviews == old(reviews) && discountCodes == old(discountCodes) && nextId == old(nextId)
    {
      FilterKeepsKeysDistinct(CartId, (c: CartItem) => c.id != id, cartItems);
      FilterKeepsKeysDistinct(CartPair, (c: CartItem) => c.id != id, cartItems);
      cartItems := Filter((c: CartItem) => c.id != id, cartItems);
    }

    /**
     * `clearCart(sessionId)`: walks the entries in order, deleting those of
     * the session; entries of other sessions stay, in their order.
     */
    method ClearCart(sessionId: string)
      requires Valid()
      modifies this
      ensures Valid()
      ensures cartItems == Filter((c: CartItem) => c.sessionId != sessionId, old(cartItems))
      ensures forall c :: c in cartItems <==> c in old(cartItems) && c.sessionId != sessionId
      ensures products == old(products) && wishlistItems == old(wishlistItems)
      ensures reviews == old(reviews) && discountCodes == old(discountCodes) && nextId == old(nextId)
    {
      var keep := (c: CartItem) => c.sessionId != sessionId;
      FilterKeepsKeysDistinct(CartId, keep, cartItems);
      FilterKeepsKeysDistinct(CartPair, keep, cartItems);
      cartItems := DeleteWhere(keep, cartItems);
    }

    // ------------------------------------------------------------ wishlist

    function WishlistIndexOf(sessionId: string, productId: string): Option<nat>
      reads this
    {
      FirstIndex((w: WishlistItem) => w.sessionId == sessionId && w.productId == productId, wishlistItems)
    }

    /** `getWishlistItems(sessionId)`: that session's entries whose product exists, joined with it. */
    function GetWishlistItems(sessionId: string): (r: seq<WishlistItemWithProduct>)
      reads this
      ensures forall w, p :: (w, p) in r <==>
        w in wishlistItems && w.sessionId == sessionId && GetProduct(w.productId) == Some(p)
    {
      JoinWishlist(Filter((w: WishlistItem) => w.sessionId == sessionId, wishlistItems))
    }

    function JoinWishlist(items: seq<WishlistItem>): (r: seq<WishlistItemWithProduct>)
      reads this
      ensures forall w, p :: (w, p) in r <==> w in items && GetProduct(w.productId) == Some(p)
    {
      if items == [] then []
      else
        assert items == [items[0]] + items[1..];
        match GetProduct(items[0].productId)
        case None => JoinWishlist(items[1..])
        case Some(p) => [(items[0], p)] + JoinWishlist(items[1..])
    }

    /** `addToWishlist`: set semantics; a repeated add returns the existing entry. */
    method AddToWishlist(sessionId: string, productId: string) returns (item: WishlistItem)
      requires Valid()
      modifies this
      ensures Valid()
      ensures item in wishlistItems && item.sessionId == sessionId && item.productId == productId
      ensures forall i :: 0 <= i < |wishlistItems| && WishlistPair(wishlistItems[i]) == (sessionId, productId) ==>
        wishlistItems[i] == item
      ensures match old(WishlistIndexOf(sessionId, productId))
        case Some(i) =>
          item == old(wishlistItems[i]) && wishlistItems == old(wishlistItems) && nextId == old(nextId)
        case None =>
          && item == WishlistItem(old(nextId), sessionId, productId)
          && wishlistItems == old(wishlistItems) + [item]
          && nextId == old(nextId) + 1
      ensures products == old(products) && cartItems == old(cartItems)
      ensures reviews == old(reviews) && discountCodes == old(discountCodes)
    {
      var found := WishlistIndexOf(sessionId, productId);
      if found.Some? {
        item := wishlistItems[found.value];
      } else {
        item := WishlistItem(nextId, sessionId, productId);
        KeysDistinctSnoc(WishlistId, wishlistItems, item);
        KeysDistinctSnoc(WishlistPair, wishlistItems, item);
        wishlistItems := wishlistItems + [item];
        nextId := nextId + 1;
      }
    }

    /** `removeFromWishlist(id)`: deletes the entry keyed `id` and nothing else. */
    method RemoveFromWishlist(id: nat)
      requires Valid()
      modifies this
      ensures Valid()
      ensures wishlistItems == Filter((w: WishlistItem) => w.id != id, old(wishlistItems))
      ensures forall w :: w in wishlistItems <==> w in old(wishlistItems) && w.id != id
      ensures products == old(products) && cartItems == old(cartItems)
      ensures reviews == old(reviews) && discountCodes == old(discountCodes) && nextId == old(nextId)
    {
      FilterKeepsKeysDistinct(WishlistId, (w: WishlistItem) => w.id != id, wishlistItems);
      FilterKeepsKeysDistinct(WishlistPair, (w: WishlistItem) => w.id != id, wishlistItems);
      wishlistItems := Filter((w: WishlistItem) => w.id != id, wishlistItems);
    }

    /** `isInWishlist(sessionId, productId)` */
    function IsInWishlist(sessionId: string, productId: string): (r: bool)
      reads this
      ensures r <==>
        exists i :: && 0 <= i < |wishlistItems| && wishlistItems[i].sessionId == sessionId
                    && wishlistItems[i].productId == productId
    {
      WishlistIndexOf(sessionId, productId).Some?
    }

    // ------------------------------------------------------------ reviews

    /** `getProductReviews(productId)`: the product's reviews, oldest first. */
    function GetProductReviews(productId: string): (r: seq<Review>)
      reads this
      ensures forall v :: v in r <==> v in reviews && v.productId == productId
    {
      Filter((v: Review) => v.productId == productId, reviews)
    }

    /** `addReview`: appends the review under a fresh id; the date is supplied by the caller. */
    method AddReview(productId: string, userName: string, rating: int, comment: string, date: string)
      returns (review: Review)
      requires Valid()
      modifies this
      ensures Valid()
      ensures review == Review(old(nextId), productId, userName, rating, comment, date)
      ensures reviews == old(reviews) + [review] && nextId == old(nextId) + 1
      ensures products == old(products) && cartItems == old(cartItems)
      ensures wishlistItems == old(wishlistItems) && discountCodes == old(discountCodes)
    {
      review := Review(nextId, productId, userName, rating, comment, date);
      KeysDistinctSnoc(ReviewId, reviews, review);
      reviews := reviews + [review];
      nextId := nextId + 1;
    }

    // ------------------------------------------------------------ discount codes

    /** `getDiscountCode(code)`: the code is looked up upper-cased. */
    function GetDiscountCode(code: string): (r: Option<DiscountCode>)
      reads this
      ensures r.Some? <==> Upper(code) in discountCodes
      ensures r.Some? ==> r.value == discountCodes[Upper(code)]
    {
      if Upper(code) in discountCodes then Some(discountCodes[Upper(code)]) else None
    }

    /** `validateDiscountCode(code)`: a pure lookup; it never changes `usedCount`. */
    function ValidateDiscountCode(code: string): (r: DiscountValidation)
      reads this
      ensures r.valid <==> Upper(code) in discountCodes && Redeemable(discountCodes[Upper(code)])
      ensures r.valid ==> r.percent == Some(discountCodes[Upper(code)].discountPercent)
      ensures !r.valid ==> r.percent.None?
    {
      match GetDiscountCode(code)
      case None => DiscountValidation(false, None)
      case Some(dc) =>
        if dc.isActive != Some(true) ||
           (dc.maxUses.Some? && dc.maxUses.value != 0 && dc.usedCount.GetOr(0) >= dc.maxUses.value)
        then DiscountValidation(false, None)
        else DiscountValidation(true, Some(dc.discountPercent))
    }
  }

  /**
   * The `/api/products/search` handler's guard: an absent or empty `q`
   * answers `[]` without consulting the store, so the store's
   * match-everything behaviour for "" is never reached through it.
   */
  function SearchRequest(st: MemStorage, q: Option<string>): (r: seq<Product>)
    reads st
    ensures q.None? || q == Some("") ==> r == []
    ensures q.Some? && q.value != "" ==> r == Search(st.products, q.value)
    ensures forall p :: p in r ==> p in st.products
  {
    if q.None? || q.value == "" then [] else st.SearchProducts(q.value)
  }

  // -------------------------------------------------------------- lemmas

  /** Validation ignores the case of the code. */
  lemma ValidateIgnoresCase(st: MemStorage, a: string, b: string)
    requires Upper(a) == Upper(b)
    ensures st.ValidateDiscountCode(a) == st.ValidateDiscountCode(b)
  {
  }

  /** A capped code used as often as its cap allows is rejected. */
  lemma ExhaustedCodeRejected(st: MemStorage, code: string)
    requires Upper(code) in st.discountCodes
    requires var dc := st.discountCodes[Upper(code)];
      dc.maxUses.Some? && dc.maxUses.value != 0 && dc.usedCount == dc.maxUses
    ensures !st.ValidateDiscountCode(code).valid
  {
  }

  /** A `maxUses` of 0 or none means no cap: an active code stays valid however often it was used. */
  lemma UncappedCodeAccepted(st: MemStorage, code: string)
    requires Upper(code) in st.discountCodes
    requires var dc := st.discountCodes[Upper(code)];
      dc.isActive == Some(true) && (dc.maxUses.None? || dc.maxUses == Some(0))
    ensures st.ValidateDiscountCode(code) ==
      DiscountValidation(true, Some(st.discountCodes[Upper(code)].discountPercent))
  {
  }
}
