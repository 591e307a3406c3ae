/** The public catalog queries: the filtered, sorted, paged product list
    and the featured-products strip. Both only read the product table. */
module Catalog {
  import opened Common
  import opened Text
  import opened Query
  import opened Schema

  datatype SortColumn = ByCreatedAt | ByPrice | ByName | ByStock

  /** A sort column and its direction, as an `orderBy` object states them. */
  datatype Ordering = Ordering(column: SortColumn, dir: Direction)

  function KeyOf(c: SortColumn, p: Product): Key {
    match c
    case ByCreatedAt => Num(p.createdAt as real)
    case ByPrice => Num(p.price)
    case ByName => Text(p.name)
    case ByStock => Num(p.stock as real)
  }

  function ProductKey(c: SortColumn): Product -> Key {
    (p: Product) => KeyOf(c, p)
  }

  /** The rows of `ps` ordered as `o` says. */
  function Arrange(ps: seq<Product>, o: Ordering): seq<Product> {
    SortBy(ps, ProductKey(o.column), o.dir)
  }

  lemma ArrangeSpec(ps: seq<Product>, o: Ordering)
    ensures SortedBy(Arrange(ps, o), ProductKey(o.column), o.dir)
    ensures multiset(Arrange(ps, o)) == multiset(ps)
    ensures |Arrange(ps, o)| == |ps|
  {
    SortBySpec(ps, ProductKey(o.column), o.dir);
    SortByLength(ps, ProductKey(o.column), o.dir);
  }

  // ---- GET /api/products ----

  /** The query string. An absent or empty parameter is None; `minPrice`
      and `maxPrice` hold the parsed number of a non-empty parameter. */
  datatype ProductQuery = ProductQuery(
    page: Option<int>,
    limit: Option<int>,
    categoryId: Option<string>,
    search: Option<string>,
    sortBy: Option<string>,
    minPrice: Option<real>,
    maxPrice: Option<real>,
    featured: Option<string>)

  /** The name or the description contains the search text, ignoring case;
      a product without a description can only match on its name. */
  predicate MatchesSearch(p: Product, search: string) {
    ContainsInsensitive(p.name, search) ||
    (p.description.Some? && ContainsInsensitive(p.description.value, search))
  }

  /** The `where` object the handler assembles, as a predicate on a row. */
  predicate Matches(q: ProductQuery, p: Product) {
    && (Filled(q.categoryId) ==> p.categoryId == q.categoryId.value)
    && (Filled(q.search) ==> MatchesSearch(p, q.search.value))
    && (q.minPrice.Some? ==> p.price >= q.minPrice.value)
    && (q.maxPrice.Some? ==> p.price <= q.maxPrice.value)
    && (q.featured == Some("true") ==> p.featured)
  }

  function Matching(ps: seq<Product>, q: ProductQuery): seq<Product> {
    Where(ps, (p: Product) => Matches(q, p))
  }

  /** The `sortBy` switch; anything unrecognised, "newest" included, sorts
      newest first. */
  function CatalogOrdering(sortBy: string): Ordering {
    if sortBy == "price-low" then Ordering(ByPrice, Asc)
    else if sortBy == "price-high" then Ordering(ByPrice, Desc)
    else if sortBy == "name" then Ordering(ByName, Asc)
    else Ordering(ByCreatedAt, Desc)
  }

  datatype ProductList =
    | ProductList(products: seq<Product>, page: int, limit: int, totalCount: nat, totalPages: nat)
    | ProductsError(status: int, error: string)
    | PagingOutsideModel

  /** A page exactly when page and limit (1 and 12 by default) are both at
      least one; the 500 answer exactly when the skip `(page - 1) * limit`
      is negative. */
  function ListProducts(ps: seq<Product>, q: ProductQuery): (r: ProductList)
    ensures r.ProductList? <==> q.page.GetOr(1) >= 1 && q.limit.GetOr(12) >= 1
    ensures r.ProductsError? <==> (q.page.GetOr(1) - 1) * q.limit.GetOr(12) < 0
    ensures r.ProductsError? ==> r.status == 500
    ensures r.ProductList? ==> r.totalCount == |Matching(ps, q)| && |r.products| <= r.limit
  {
    var ordering := CatalogOrdering(OrDefault(q.sortBy, "newest"));
    ArrangeSpec(Matching(ps, q), ordering);
    match Paginate(Arrange(Matching(ps, q), ordering), q.page.GetOr(1), q.limit.GetOr(12))
    case PageOf(rows, page, limit, count, pages) => ProductList(rows, page, limit, count, pages)
    case NegativeSkip => ProductsError(500, "Failed to fetch products")
    case NonPositiveLimit => PagingOutsideModel
  }

  /** Every listed product is in the table and passes every filter that
      the query sets: category equality, case-insensitive search on name or
      description, inclusive price bounds each on its own, and `featured`
      only when the parameter is exactly "true". */
  lemma ListProductsFilters(ps: seq<Product>, q: ProductQuery, r: ProductList)
    requires r == ListProducts(ps, q) && r.ProductList?
    ensures forall p :: p in r.products ==> p in ps
    ensures forall p :: p in r.products && Filled(q.categoryId) ==> p.categoryId == q.categoryId.value
    ensures forall p :: p in r.products && Filled(q.search) ==>
      ContainsInsensitive(p.name, q.search.value) ||
      (p.description.Some? && ContainsInsensitive(p.description.value, q.search.value))
    ensures forall p :: p in r.products && q.minPrice.Some? ==> q.minPrice.value <= p.price
    ensures forall p :: p in r.products && q.maxPrice.Some? ==> p.price <= q.maxPrice.value
    ensures forall p :: p in r.products && q.featured == Some("true") ==> p.featured
  {
    var ordering := CatalogOrdering(OrDefault(q.sortBy, "newest"));
    var matching := Matching(ps, q);
    var sorted := Arrange(matching, ordering);
    var pg := Paginate(sorted, q.page.GetOr(1), q.limit.GetOr(12));
    assert r.products == pg.rows;
    forall p | p in r.products
      ensures p in ps && Matches(q, p)
    {
      ArrangeSpec(matching, ordering);
      var k :| 0 <= k < |r.products| && r.products[k] == p;
      assert p in multiset(sorted);
    }
  }

  /** A listed page is ordered as `sortBy` asks (newest first when it is
      absent), holds at most `limit` products (12 by default) from the
      requested page, counts every match regardless of the page, and
      reports the ceiling of that count over the page size as the page count. */
  lemma ListProductsPaging(ps: seq<Product>, q: ProductQuery, r: ProductList)
    requires r == ListProducts(ps, q) && r.ProductList?
    ensures var o := CatalogOrdering(OrDefault(q.sortBy, "newest")); SortedBy(r.products, ProductKey(o.column), o.dir)
    ensures r.page == q.page.GetOr(1) >= 1 && r.limit == q.limit.GetOr(12) >= 1
    ensures |r.products| <= r.limit
    ensures r.products == Window(Arrange(Matching(ps, q), CatalogOrdering(OrDefault(q.sortBy, "newest"))), (r.page - 1) * r.limit, r.limit)
    ensures r.totalCount == |Matching(ps, q)|
    ensures (r.totalPages - 1) * r.limit < r.totalCount <= r.totalPages * r.limit || (r.totalCount == 0 && r.totalPages == 0)
  {
    var ordering := CatalogOrdering(OrDefault(q.sortBy, "newest"));
    var matching := Matching(ps, q);
    var sorted := Arrange(matching, ordering);
    var p, l := q.page.GetOr(1), q.limit.GetOr(12);
    var pg := Paginate(sorted, p, l);
    assert r == ProductList(pg.rows, pg.page, pg.limit, pg.totalCount, pg.totalPages);
    ArrangeSpec(matching, ordering);
    WindowOfSorted(sorted, (p - 1) * l, l, ProductKey(ordering.column), ordering.dir);
  }

  /** The sort mapping, read off the listed page: price-low lists prices
      upwards, price-high downwards, name in alphabetical order, and any
      other value (none given included) the newest first. */
  lemma ListProductsSortMapping(ps: seq<Product>, q: ProductQuery, r: ProductList)
    requires r == ListProducts(ps, q) && r.ProductList?
    ensures OrDefault(q.sortBy, "newest") == "price-low" ==>
      forall i, j :: 0 <= i < j < |r.products| ==> r.products[i].price <= r.products[j].price
    ensures OrDefault(q.sortBy, "newest") == "price-high" ==>
      forall i, j :: 0 <= i < j < |r.products| ==> r.products[i].price >= r.products[j].price
    ensures OrDefault(q.sortBy, "newest") == "name" ==>
      forall i, j :: 0 <= i < j < |r.products| ==> TextLe(r.products[i].name, r.products[j].name)
    ensures OrDefault(q.sortBy, "newest") !in {"price-low", "price-high", "name"} ==>
      forall i, j :: 0 <= i < j < |r.products| ==> r.products[i].createdAt >= r.products[j].createdAt
  {
    ListProductsPaging(ps, q, r);
    var o := CatalogOrdering(OrDefault(q.sortBy, "newest"));
    forall i, j | 0 <= i < j < |r.products|
      ensures InOrder(KeyOf(o.column, r.products[i]), KeyOf(o.column, r.products[j]), o.dir)
    {
      assert InOrder(ProductKey(o.column)(r.products[i]), ProductKey(o.column)(r.products[j]), o.dir);
    }
  }

  /** A product whose name holds the search text with the same case is
      found by the case-insensitive search: if it passes the other filters
      it is among the matches counted and paged. */
  lemma LiteralNameMatchIsFound(ps: seq<Product>, q: ProductQuery, p: Product)
    requires p in ps && Filled(q.search) && Contains(p.name, q.search.value)
    requires Matches(q.(search := None), p)
    ensures p in Matching(ps, q)
  {
    ContainsImpliesInsensitive(p.name, q.search.value);
  }

  // ---- GET /api/products/featured ----

  predicate Showcased(p: Product) {
    p.featured && p.stock > 0
  }

  function Eligible(ps: seq<Product>): seq<Product> {
    Where(ps, Showcased)
  }

  datatype FeaturedList = FeaturedList(products: seq<Product>, count: nat)

  /** Featured products in stock, newest first, at most eight; `count` is
      the length of the list. */
  function FeaturedProducts(ps: seq<Product>): (r: FeaturedList)
    ensures r.count == |r.products| <= 8
    ensures |r.products| <= |Eligible(ps)|
  {
    ArrangeSpec(Eligible(ps), Ordering(ByCreatedAt, Desc));
    var shown := Take(Arrange(Eligible(ps), Ordering(ByCreatedAt, Desc)), 8);
    FeaturedList(shown, |shown|)
  }

  /** Every product shown is a featured, in-stock product of the table; at
      most eight are shown, newest first; `count` is the list's length; and
      no eligible product left out is newer than one that is shown. */
  lemma FeaturedProductsSpec(ps: seq<Product>)
    ensures var r := FeaturedProducts(ps);
      && (forall p :: p in r.products ==> p in ps && p.featured && p.stock > 0)
      && |r.products| <= 8
      && r.count == |r.products|
      && SortedBy(r.products, ProductKey(ByCreatedAt), Desc)
      && |r.products| == Min(8, |Eligible(ps)|)
      && (forall i, j :: 0 <= i < |r.products| <= j < |Arrange(Eligible(ps), Ordering(ByCreatedAt, Desc))| ==>
            Arrange(Eligible(ps), Ordering(ByCreatedAt, Desc))[j].createdAt <= r.products[i].createdAt)
  {
    var sorted := Arrange(Eligible(ps), Ordering(ByCreatedAt, Desc));
    ArrangeSpec(Eligible(ps), Ordering(ByCreatedAt, Desc));
    var r := FeaturedProducts(ps);
    forall p | p in r.products
      ensures p in ps && p.featured && p.stock > 0
    {
      assert p in multiset(sorted);
    }
  }
}
