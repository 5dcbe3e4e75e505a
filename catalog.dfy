/**
 * The product catalog and its query engine: the filter predicates of
 * `ProductFilters`, the five sort orders, the `limit` truncation and the
 * case-insensitive search. These are pure functions of the catalog (the
 * products in insertion order); the store in module Storage applies them.
 */
module Catalog {
  import opened Options
  import opened Seqs
  import opened Text

  /**
   * A product. Prices are whole currency units; a rating is compared only,
   * so it is a real. Fields the query engine never reads (images, stock,
   * original price, texts for the detail page) are not modelled.
   */
  datatype Product = Product(
    id: string,
    slug: string,
    name: string,
    nameEn: string,
    description: string,
    price: nat,
    categoryId: string,
    brandId: string,
    rating: Option<real>,
    reviewCount: Option<int>,
    isNew: bool,
    isBestSeller: bool,
    isFeatured: bool)

  /** `p.rating || 0` */
  function RatingOf(p: Product): real {
    p.rating.GetOr(0.0)
  }

  /** `p.reviewCount || 0` */
  function ReviewCountOf(p: Product): int {
    p.reviewCount.GetOr(0)
  }

  /** The optional fields of a product listing request; `None` is an absent field. */
  datatype ProductFilters = ProductFilters(
    category: Option<string>,
    brands: Option<seq<string>>,
    minPrice: Option<real>,
    maxPrice: Option<real>,
    minRating: Option<real>,
    isNew: Option<bool>,
    isBestSeller: Option<bool>,
    isFeatured: Option<bool>,
    sort: Option<string>,
    limit: Option<int>)

  /** `if (filters.category)`: an empty category string is falsy and imposes nothing. */
  predicate CategoryActive(f: ProductFilters) {
    f.category.Some? && f.category.value != ""
  }

  /** `if (filters.brands && filters.brands.length > 0)` */
  predicate BrandsActive(f: ProductFilters) {
    f.brands.Some? && |f.brands.value| > 0
  }

  // One predicate per filter, in the order the source applies them; each
  // holds trivially when its field is absent (as the source tests absence).
  predicate CategoryOk(f: ProductFilters, p: Product) {
    CategoryActive(f) ==> p.categoryId == f.category.value
  }

  predicate BrandsOk(f: ProductFilters, p: Product) {
    BrandsActive(f) ==> p.brandId in f.brands.value
  }

  predicate MinPriceOk(f: ProductFilters, p: Product) {
    f.minPrice.Some? ==> p.price as real >= f.minPrice.value
  }

  predicate MaxPriceOk(f: ProductFilters, p: Product) {
    f.maxPrice.Some? ==> p.price as real <= f.maxPrice.value
  }

  predicate MinRatingOk(f: ProductFilters, p: Product) {
    f.minRating.Some? ==> RatingOf(p) >= f.minRating.value
  }

  predicate NewOk(f: ProductFilters, p: Product) {
    f.isNew.Some? ==> p.isNew == f.isNew.value
  }

  predicate BestSellerOk(f: ProductFilters, p: Product) {
    f.isBestSeller.Some? ==> p.isBestSeller == f.isBestSeller.value
  }

  predicate FeaturedOk(f: ProductFilters, p: Product) {
    f.isFeatured.Some? ==> p.isFeatured == f.isFeatured.value
  }

  /** `p` passes the first `n` of the eight filters, taken in the order the source applies them. */
  predicate PassesFirst(n: nat, f: ProductFilters, p: Product) {
    && (n > 0 ==> CategoryOk(f, p)) && (n > 1 ==> BrandsOk(f, p))
    && (n > 2 ==> MinPriceOk(f, p)) && (n > 3 ==> MaxPriceOk(f, p))
    && (n > 4 ==> MinRatingOk(f, p)) && (n > 5 ==> NewOk(f, p))
    && (n > 6 ==> BestSellerOk(f, p)) && (n > 7 ==> FeaturedOk(f, p))
  }

  /** `p` satisfies every constraint `f` imposes (the conjunction of the supplied predicates). */
  predicate Matches(f: ProductFilters, p: Product) {
    && CategoryOk(f, p) && BrandsOk(f, p) && MinPriceOk(f, p) && MaxPriceOk(f, p)
    && MinRatingOk(f, p) && NewOk(f, p) && BestSellerOk(f, p) && FeaturedOk(f, p)
  }

  /** The four comparator sorts. */
  datatype SortKey = PriceAscending | PriceDescending | RatingDescending | ReviewCountDescending

  /** `"newest"` is a stable partition on `isNew`; the others sort with a comparator. */
  datatype Ordering = NewFirst | SortedBy(key: SortKey)

  /** The `switch (filters.sort)`: an absent or unrecognised value falls to `"popular"`. */
  function OrderingOf(sort: Option<string>): Ordering {
    if sort == Some("newest") then NewFirst
    else if sort == Some("price-low") then SortedBy(PriceAscending)
    else if sort == Some("price-high") then SortedBy(PriceDescending)
    else if sort == Some("rating") then SortedBy(RatingDescending)
    else SortedBy(ReviewCountDescending)
  }

  /**
   * The comparator the source passes to `Array.prototype.sort` for `k` is
   * `(a, b) => Rank(k, a) - Rank(k, b)`: `a.price - b.price`, `b.price - a.price`,
   * `(b.rating || 0) - (a.rating || 0)` and `(b.reviewCount || 0) - (a.reviewCount || 0)`.
   */
  function Rank(k: SortKey, p: Product): real {
    match k
    case PriceAscending => p.price as real
    case PriceDescending => -(p.price as real)
    case RatingDescending => -RatingOf(p)
    case ReviewCountDescending => -(ReviewCountOf(p) as real)
  }

  /** `a` may precede `b` in the order `k` asks for, in the product's own terms. */
  predicate InOrder(k: SortKey, a: Product, b: Product) {
    match k
    case PriceAscending => a.price <= b.price
    case PriceDescending => a.price >= b.price
    case RatingDescending => RatingOf(a) >= RatingOf(b)
    case ReviewCountDescending => ReviewCountOf(a) >= ReviewCountOf(b)
  }

  ghost predicate IsSortedBy(k: SortKey, s: seq<Product>) {
    forall i, j :: 0 <= i < j < |s| ==> Rank(k, s[i]) <= Rank(k, s[j])
  }

  /** The products of `s` whose rank under `k` is `v`, in their order in `s`. */
  function RankClass(k: SortKey, v: real, s: seq<Product>): seq<Product> {
    Filter((p: Product) => Rank(k, p) == v, s)
  }

  /** Places `x` before the first element that does not rank strictly below it. */
  function Insert(k: SortKey, x: Product, s: seq<Product>): (r: seq<Product>)
    ensures multiset(r) == multiset(s) + multiset{x}
    ensures |r| == |s| + 1
  {
    if s == [] || Rank(k, x) <= Rank(k, s[0]) then [x] + s
    else
      assert s == [s[0]] + s[1..];
      [s[0]] + Insert(k, x, s[1..])
  }

  /** The stable sort `Array.prototype.sort` performs with the comparator of `k`. */
  function StableSort(k: SortKey, s: seq<Product>): (r: seq<Product>)
    ensures multiset(r) == multiset(s)
    ensures |r| == |s|
  {
    if s == [] then []
    else
      assert s == [s[0]] + s[1..];
      Insert(k, s[0], StableSort(k, s[1..]))
  }

  /** `products.filter(p => p.isNew).concat(products.filter(p => !p.isNew))` */
  function NewestFirst(s: seq<Product>): seq<Product> {
    Filter((p: Product) => p.isNew, s) + Filter((p: Product) => !p.isNew, s)
  }

  function Arrange(o: Ordering, s: seq<Product>): seq<Product> {
    match o
    case NewFirst => NewestFirst(s)
    case SortedBy(k) => StableSort(k, s)
  }

  /** The end index `Array.prototype.slice(0, end)` uses on a sequence of length `n`. */
  function SliceEnd(n: nat, end: int): (e: nat)
    ensures e <= n
  {
    if end < 0 then (if n + end > 0 then n + end else 0)
    else if end < n then end
    else n
  }

  /** `if (filters.limit) products = products.slice(0, filters.limit)`: 0 or absent is no limit. */
  function ApplyLimit(s: seq<Product>, limit: Option<int>): seq<Product> {
    if limit.Some? && limit.value != 0 then s[..SliceEnd(|s|, limit.value)] else s
  }

  /** The products matching every supplied filter, in catalog order. */
  function Matching(f: ProductFilters, catalog: seq<Product>): seq<Product> {
    Filter((p: Product) => Matches(f, p), catalog)
  }

  /**
   * What a listing request returns: without filters the catalog as it is;
   * otherwise the matching products, arranged, then truncated.
   */
  function Query(catalog: seq<Product>, filters: Option<ProductFilters>): seq<Product> {
    match filters
    case None => catalog
    case Some(f) => ApplyLimit(Arrange(OrderingOf(f.sort), Matching(f, catalog)), f.limit)
  }

  /** A product hit by an already lower-cased query. */
  predicate SearchHit(p: Product, lowerQuery: string) {
    || Includes(Lower(p.name), lowerQuery)
    || Includes(Lower(p.nameEn), lowerQuery)
    || Includes(Lower(p.description), lowerQuery)
    || Includes(Lower(p.brandId), lowerQuery)
  }

  /** `searchProducts(query)`: case-insensitive substring search over four fields. */
  function Search(catalog: seq<Product>, query: string): (r: seq<Product>)
    ensures IsSubsequence(r, catalog)
    ensures forall p :: p in r <==> (p in catalog &&
      (|| IsSubstring(Lower(query), Lower(p.name))
       || IsSubstring(Lower(query), Lower(p.nameEn))
       || IsSubstring(Lower(query), Lower(p.description))
       || IsSubstring(Lower(query), Lower(p.brandId))))
  {
    FilterIsSubsequence((p: Product) => SearchHit(p, Lower(query)), catalog);
    Filter((p: Product) => SearchHit(p, Lower(query)), catalog)
  }

  // ---------------------------------------------------------------- sorting

  lemma InOrderIsRank(k: SortKey, a: Product, b: Product)
    ensures InOrder(k, a, b) <==> Rank(k, a) <= Rank(k, b)
  {
  }

  /** Every element of `Insert(k, x, s)` ranks at least `m` when `x` and all of `s` do. */
  lemma {:induction false} InsertLowerBound(k: SortKey, x: Product, s: seq<Product>, m: real)
    requires Rank(k, x) >= m
    requires forall i :: 0 <= i < |s| ==> Rank(k, s[i]) >= m
    ensures forall i :: 0 <= i < |Insert(k, x, s)| ==> Rank(k, Insert(k, x, s)[i]) >= m
  {
    if s != [] && Rank(k, x) > Rank(k, s[0]) {
      InsertLowerBound(k, x, s[1..], m);
    }
  }

  lemma {:induction false} InsertSorted(k: SortKey, x: Product, s: seq<Product>)
    requires IsSortedBy(k, s)
    ensures IsSortedBy(k, Insert(k, x, s))
  {
    if s != [] && Rank(k, x) > Rank(k, s[0]) {
      var t := s[1..];
      assert IsSortedBy(k, t);
      InsertSorted(k, x, t);
      var u := Insert(k, x, t);
      InsertLowerBound(k, x, t, Rank(k, s[0]));
      var r := Insert(k, x, s);
      assert r == [s[0]] + u;
      forall i, j | 0 <= i < j < |r| ensures Rank(k, r[i]) <= Rank(k, r[j]) {
        assert r[j] == u[j - 1];
        if i > 0 {
          assert r[i] == u[i - 1];
        }
      }
    }
  }

  /** The result of `StableSort` is ordered by the comparator of `k`. */
  lemma {:induction false} StableSortSorted(k: SortKey, s: seq<Product>)
    ensures IsSortedBy(k, StableSort(k, s))
  {
    if s != [] {
      StableSortSorted(k, s[1..]);
      InsertSorted(k, s[0], StableSort(k, s[1..]));
    }
  }

  /** The sorted result in the source's terms: price up, price down, rating down, reviews down. */
  lemma StableSortInOrder(k: SortKey, s: seq<Product>)
    ensures forall i, j :: 0 <= i < j < |StableSort(k, s)| ==>
      InOrder(k, StableSort(k, s)[i], StableSort(k, s)[j])
  {
    StableSortSorted(k, s);
  }

  /** Inserting into a sorted sequence adds `x` to its own rank class, in front. */
  lemma RankClassCons(k: SortKey, v: real, y: Product, t: seq<Product>)
    ensures RankClass(k, v, [y] + t) == (if Rank(k, y) == v then [y] else []) + RankClass(k, v, t)
  {
    assert ([y] + t)[0] == y && ([y] + t)[1..] == t;
  }

  lemma {:induction false} InsertRankClass(k: SortKey, v: real, x: Product, s: seq<Product>)
    requires IsSortedBy(k, s)
    ensures RankClass(k, v, Insert(k, x, s)) == (if Rank(k, x) == v then [x] else []) + RankClass(k, v, s)
  {
    if s == [] || Rank(k, x) <= Rank(k, s[0]) {
      RankClassCons(k, v, x, s);
    } else {
      var t := s[1..];
      assert IsSortedBy(k, t);
      InsertRankClass(k, v, x, t);
      RankClassCons(k, v, s[0], Insert(k, x, t));
      RankClassCons(k, v, s[0], t);
      assert s == [s[0]] + t;
    }
  }

  /** Stability: products that rank equally keep their relative order. */
  lemma {:induction false} StableSortStable(k: SortKey, v: real, s: seq<Product>)
    ensures RankClass(k, v, StableSort(k, s)) == RankClass(k, v, s)
  {
    if s != [] {
      StableSortStable(k, v, s[1..]);
      StableSortSorted(k, s[1..]);
      InsertRankClass(k, v, s[0], StableSort(k, s[1..]));
      FilterConcat((p: Product) => Rank(k, p) == v, [s[0]], s[1..]);
      assert s == [s[0]] + s[1..];
    }
  }

  /** Sorting an already sorted sequence leaves it as it is; hence sorting is idempotent. */
  lemma {:induction false} StableSortOfSorted(k: SortKey, s: seq<Product>)
    requires IsSortedBy(k, s)
    ensures StableSort(k, s) == s
  {
    if s != [] {
      assert IsSortedBy(k, s[1..]);
      StableSortOfSorted(k, s[1..]);
      assert s == [s[0]] + s[1..];
    }
  }

  lemma StableSortIdempotent(k: SortKey, s: seq<Product>)
    ensures StableSort(k, StableSort(k, s)) == StableSort(k, s)
  {
    StableSortSorted(k, s);
    StableSortOfSorted(k, StableSort(k, s));
  }

  // ---------------------------------------------------------------- newest

  /** `"newest"`: a permutation in which every new product precedes every other,
      each group keeping its order. */
  lemma NewestFirstPartition(s: seq<Product>)
    ensures multiset(NewestFirst(s)) == multiset(s)
    ensures forall i, j :: 0 <= i < j < |NewestFirst(s)| ==> NewestFirst(s)[i].isNew || !NewestFirst(s)[j].isNew
    ensures Filter((p: Product) => p.isNew, NewestFirst(s)) == Filter((p: Product) => p.isNew, s)
    ensures Filter((p: Product) => !p.isNew, NewestFirst(s)) == Filter((p: Product) => !p.isNew, s)
  {
    var isNew := (p: Product) => p.isNew;
    var notNew := (p: Product) => !p.isNew;
    var a, b := Filter(isNew, s), Filter(notNew, s);
    FilterSplit(isNew, notNew, s);
    var r := NewestFirst(s);
    forall i, j | 0 <= i < j < |r| ensures r[i].isNew || !r[j].isNew {
      if j < |a| {
        assert r[i] == a[i];
      } else {
        assert r[j] == b[j - |a|];
      }
    }
    FilterConcat(isNew, a, b);
    FilterKeepsAll(isNew, a);
    FilterKeepsNone(isNew, b);
    FilterConcat(notNew, a, b);
    FilterKeepsNone(notNew, a);
    FilterKeepsAll(notNew, b);
  }

  lemma ArrangePermutes(o: Ordering, s: seq<Product>)
    ensures multiset(Arrange(o, s)) == multiset(s)
  {
    if o.NewFirst? {
      NewestFirstPartition(s);
    }
  }

  // ---------------------------------------------------------------- query

  /** Without filters the catalog comes back in insertion order, unsorted. */
  lemma QueryUnfiltered(catalog: seq<Product>)
    ensures Query(catalog, None) == catalog
  {
  }

  /** Every returned product is in the catalog and matches every supplied filter;
      without a limit, exactly the matching products come back, each as often as in the catalog. */
  lemma QueryContents(catalog: seq<Product>, f: ProductFilters)
    ensures |Query(catalog, Some(f))| <= |catalog|
    ensures forall p :: p in Query(catalog, Some(f)) ==> p in catalog && Matches(f, p)
    ensures f.limit.None? || f.limit == Some(0) ==>
      multiset(Query(catalog, Some(f))) == multiset(Matching(f, catalog))
  {
    var m := Matching(f, catalog);
    var a := Arrange(OrderingOf(f.sort), m);
    ArrangePermutes(OrderingOf(f.sort), m);
    forall p | p in Query(catalog, Some(f)) ensures p in catalog && Matches(f, p) {
      assert p in a;
      assert p in multiset(m);
    }
    assert |a| == |multiset(a)|;
  }

  /** With a positive limit the result is the first min(limit, n) arranged products. */
  lemma QueryLimit(catalog: seq<Product>, f: ProductFilters)
    requires f.limit.Some? && f.limit.value > 0
    ensures var a := Arrange(OrderingOf(f.sort), Matching(f, catalog));
      var n := if f.limit.value < |a| then f.limit.value else |a|;
      Query(catalog, Some(f)) == a[..n] && |Query(catalog, Some(f))| == n
  {
  }

  /** A negative limit drops that many products from the end of the arranged list, leaving none when it exceeds them. */
  lemma QueryNegativeLimit(catalog: seq<Product>, f: ProductFilters)
    requires f.limit.Some? && f.limit.value < 0
    ensures var a := Arrange(OrderingOf(f.sort), Matching(f, catalog));
      var n := if |a| + f.limit.value > 0 then |a| + f.limit.value else 0;
      Query(catalog, Some(f)) == a[..n] && |Query(catalog, Some(f))| == n
  {
  }

  /** The order of a query's result: sorted by the requested comparator, or new products first. */
  lemma QueryOrder(catalog: seq<Product>, f: ProductFilters)
    ensures var r := Query(catalog, Some(f));
      match OrderingOf(f.sort)
      case SortedBy(k) => forall i, j :: 0 <= i < j < |r| ==> InOrder(k, r[i], r[j])
      case NewFirst => forall i, j :: 0 <= i < j < |r| ==> r[i].isNew || !r[j].isNew
  {
    var m := Matching(f, catalog);
    var a := Arrange(OrderingOf(f.sort), m);
    var r := Query(catalog, Some(f));
    assert r == a[..|r|];
    match OrderingOf(f.sort)
    case SortedBy(k) =>
      StableSortInOrder(k, m);
      forall i, j | 0 <= i < j < |r| ensures InOrder(k, r[i], r[j]) {
        assert r[i] == a[i] && r[j] == a[j];
      }
    case NewFirst =>
      NewestFirstPartition(m);
      forall i, j | 0 <= i < j < |r| ensures r[i].isNew || !r[j].isNew {
        assert r[i] == a[i] && r[j] == a[j];
      }
  }

  // ---------------------------------------------------------------- search

  /** An empty query is a substring of everything, so it returns the whole catalog. */
  lemma SearchEmptyQuery(catalog: seq<Product>)
    ensures Search(catalog, "") == catalog
  {
    forall i | 0 <= i < |catalog| ensures SearchHit(catalog[i], Lower("")) {
      assert OccursAt("", Lower(catalog[i].name), 0);
    }
    FilterKeepsAll((p: Product) => SearchHit(p, Lower("")), catalog);
  }
}
