/** The admin product endpoint: `GET` lists every product that matches a
    search and a category, in the requested order; `POST` inserts one
    product after its guards. Both require an admin session. */
module AdminProducts {
  import opened Common
  import opened Text
  import opened Query
  import opened Schema
  import opened Catalog

  // ---- GET /api/admin/products ----

  /** `search`, `category` and `sort` from the query string (absent or empty is None). */
  datatype AdminProductQuery = AdminProductQuery(search: Option<string>, category: Option<string>, sort: Option<string>)

  /** The admin search also looks at the SKU. */
  predicate AdminMatches(q: AdminProductQuery, p: Product) {
    && (Filled(q.search) ==>
          ContainsInsensitive(p.name, q.search.value) ||
          (p.description.Some? && ContainsInsensitive(p.description.value, q.search.value)) ||
          (p.sku.Some? && ContainsInsensitive(p.sku.value, q.search.value)))
    && (Filled(q.category) ==> p.categoryId == q.category.value)
  }

  function AdminMatching(ps: seq<Product>, q: AdminProductQuery): seq<Product> {
    Where(ps, (p: Product) => AdminMatches(q, p))
  }

  /** The `sort` switch; anything unrecognised sorts newest first. */
  function AdminOrdering(sort: string): Ordering {
    if sort == "name" then Ordering(ByName, Asc)
    else if sort == "price-low" then Ordering(ByPrice, Asc)
    else if sort == "price-high" then Ordering(ByPrice, Desc)
    else if sort == "stock" then Ordering(ByStock, Asc)
    else Ordering(ByCreatedAt, Desc)
  }

  datatype AdminProductList = AdminProductList(products: seq<Product>) | AdminProductsDenied(status: int, error: string)

  /** Denied with 403 exactly without an admin session; otherwise as many
      products as match. */
  function AdminListProducts(session: Option<SessionUser>, ps: seq<Product>, q: AdminProductQuery): (r: AdminProductList)
    ensures r.AdminProductsDenied? <==> !IsAdminSession(session)
    ensures r.AdminProductsDenied? ==> r.status == 403
    ensures r.AdminProductList? ==> |r.products| == |AdminMatching(ps, q)|
  {
    ArrangeSpec(AdminMatching(ps, q), AdminOrdering(OrDefault(q.sort, "newest")));
    if !IsAdminSession(session) then AdminProductsDenied(403, "Admin access required")
    else AdminProductList(Arrange(AdminMatching(ps, q), AdminOrdering(OrDefault(q.sort, "newest"))))
  }

  /** Without an admin session the answer is 403. Otherwise every matching
      product is listed, each once, and nothing else (there is no paging);
      the search matches name, description or SKU ignoring case, the
      category is an equality test, and the order is the one `sort` names. */
  lemma AdminListProductsSpec(session: Option<SessionUser>, ps: seq<Product>, q: AdminProductQuery)
    ensures !IsAdminSession(session) <==> AdminListProducts(session, ps, q) == AdminProductsDenied(403, "Admin access required")
    ensures var r := AdminListProducts(session, ps, q);
      r.AdminProductList? ==>
        && multiset(r.products) == multiset(AdminMatching(ps, q))
        && (forall p :: p in r.products <==> p in ps && AdminMatches(q, p))
        && var o := AdminOrdering(OrDefault(q.sort, "newest")); SortedBy(r.products, ProductKey(o.column), o.dir)
  {
    if IsAdminSession(session) {
      var matching := AdminMatching(ps, q);
      ArrangeSpec(matching, AdminOrdering(OrDefault(q.sort, "newest")));
      var r := AdminListProducts(session, ps, q);
      forall p
        ensures p in r.products <==> p in matching
      {
        assert p in r.products <==> p in multiset(r.products);
        assert p in matching <==> p in multiset(matching);
      }
    }
  }

  /** The admin sort mapping read off the list: name alphabetical, price-low
      and stock upwards, price-high downwards, anything else newest first. */
  lemma AdminSortMapping(session: Option<SessionUser>, ps: seq<Product>, q: AdminProductQuery)
    requires IsAdminSession(session)
    ensures var rows := AdminListProducts(session, ps, q).products; var s := OrDefault(q.sort, "newest");
      && (s == "name" ==> forall i, j :: 0 <= i < j < |rows| ==> TextLe(rows[i].name, rows[j].name))
      && (s == "price-low" ==> forall i, j :: 0 <= i < j < |rows| ==> rows[i].price <= rows[j].price)
      && (s == "price-high" ==> forall i, j :: 0 <= i < j < |rows| ==> rows[i].price >= rows[j].price)
      && (s == "stock" ==> forall i, j :: 0 <= i < j < |rows| ==> rows[i].stock <= rows[j].stock)
      && (s !in {"name", "price-low", "price-high", "stock"} ==>
            forall i, j :: 0 <= i < j < |rows| ==> rows[i].createdAt >= rows[j].createdAt)
  {
    var o := AdminOrdering(OrDefault(q.sort, "newest"));
    ArrangeSpec(AdminMatching(ps, q), o);
    var rows := AdminListProducts(session, ps, q).products;
    forall i, j | 0 <= i < j < |rows|
      ensures InOrder(KeyOf(o.column, rows[i]), KeyOf(o.column, rows[j]), o.dir)
    {
      assert InOrder(ProductKey(o.column)(rows[i]), ProductKey(o.column)(rows[j]), o.dir);
    }
  }

  // ---- POST /api/admin/products ----

  /** The request body. `price` None stands for a missing or non-numeric
      value, `stock` None for one that `parseInt` cannot read; `images` is
      the array already serialised to JSON text. */
  datatype ProductRequest = ProductRequest(
    name: Option<string>,
    description: Option<string>,
    price: Option<real>,
    stock: Option<int>,
    sku: Option<string>,
    featured: Option<bool>,
    categoryId: Option<string>,
    image: Option<string>,
    images: Option<string>)

  datatype CreateResult = Created(product: Product) | CreateRejected(status: int, error: string)

  /** `!price` holds for a missing price and for 0. */
  predicate PriceGiven(price: Option<real>) {
    price.Some? && price.value != 0.0
  }

  predicate SkuTaken(ps: seq<Product>, sku: string) {
    exists k :: 0 <= k < |ps| && ps[k].sku == Some(sku)
  }

  predicate CategoryExists(cs: seq<Category>, id: string) {
    exists k :: 0 <= k < |cs| && cs[k].id == id
  }

  /** The row inserted: stock 0 unless an integer was given, featured false
      unless given. */
  function NewProduct(req: ProductRequest, id: string, now: int): Product
    requires Filled(req.name) && PriceGiven(req.price) && Filled(req.categoryId)
  {
    Product(id, req.name.value, req.description, req.price.value, req.stock.GetOr(0), req.sku,
            req.featured.GetOr(false), req.categoryId.value, req.image, req.images, now)
  }

  /** The handler's answer when it does not insert, in the order it tests:
      none exactly when the session is an admin's, name, price and category
      are given, the SKU is not taken, the category exists and the insert
      would not repeat an empty SKU. */
  function CreateRejection(session: Option<SessionUser>, req: ProductRequest, ps: seq<Product>, cs: seq<Category>): (r: Option<CreateResult>)
    ensures r.Some? ==> r.value.CreateRejected? && r.value.status in {403, 400, 404, 500}
    ensures r.None? <==>
      && IsAdminSession(session)
      && Filled(req.name) && PriceGiven(req.price) && Filled(req.categoryId)
      && !(Filled(req.sku) && SkuTaken(ps, req.sku.value))
      && CategoryExists(cs, req.categoryId.value)
      && !(req.sku == Some("") && SkuTaken(ps, ""))
  {
    if !IsAdminSession(session) then Some(CreateRejected(403, "Admin access required"))
    else if !Filled(req.name) || !PriceGiven(req.price) || !Filled(req.categoryId) then
      Some(CreateRejected(400, "Name, price, and category are required"))
    else if Filled(req.sku) && SkuTaken(ps, req.sku.value) then
      Some(CreateRejected(400, "Product with this SKU already exists"))
    else if !CategoryExists(cs, req.categoryId.value) then Some(CreateRejected(404, "Category not found"))
    // The SKU column is unique: an empty SKU skips the lookup above, but a
    // second empty SKU makes the insert itself fail.
    else if req.sku == Some("") && SkuTaken(ps, "") then Some(CreateRejected(500, "Failed to create product"))
    else None
  }

  function FindSku(ps: seq<Product>, sku: string): (r: bool)
    ensures r <==> SkuTaken(ps, sku)
  {
    if ps == [] then false
    else if ps[0].sku == Some(sku) then true
    else
      assert forall k :: 1 <= k < |ps| ==> ps[k] == ps[1..][k - 1];
      FindSku(ps[1..], sku)
  }

  function FindCategory(cs: seq<Category>, id: string): (r: bool)
    ensures r <==> CategoryExists(cs, id)
  {
    if cs == [] then false
    else if cs[0].id == id then true
    else
      assert forall k :: 1 <= k < |cs| ==> cs[k] == cs[1..][k - 1];
      FindCategory(cs[1..], id)
  }

  class ProductStore {
    var products: seq<Product>
    var categories: seq<Category>

    constructor (products: seq<Product>, categories: seq<Category>)
      ensures this.products == products && this.categories == categories
    {
      this.products, this.categories := products, categories;
    }

    /** `POST /api/admin/products`; `id` and `now` are what the database
        assigns to the new row. */
    method CreateProduct(session: Option<SessionUser>, req: ProductRequest, id: string, now: int) returns (res: CreateResult)
      modifies this`products
      ensures CreateRejection(session, req, old(products), categories).Some? ==>
        res == CreateRejection(session, req, old(products), categories).value && products == old(products)
      ensures CreateRejection(session, req, old(products), categories).None? ==>
        res == Created(NewProduct(req, id, now)) && products == old(products) + [NewProduct(req, id, now)]
    {
      if !IsAdminSession(session) {
        return CreateRejected(403, "Admin access required");
      }
      if !Filled(req.name) || !PriceGiven(req.price) || !Filled(req.categoryId) {
        return CreateRejected(400, "Name, price, and category are required");
      }
      if Filled(req.sku) {
        if FindSku(products, req.sku.value) {
          return CreateRejected(400, "Product with this SKU already exists");
        }
      }
      if !FindCategory(categories, req.categoryId.value) {
        return CreateRejected(404, "Category not found");
      }
      if req.sku == Some("") && FindSku(products, "") {
        return CreateRejected(500, "Failed to create product");
      }
      var product := NewProduct(req, id, now);
      products := products + [product];
      res := Created(product);
    }
  }

  /** A product created with a non-empty SKU blocks a second product with
      the same SKU. */
  lemma SecondSameSkuRejected(session: Option<SessionUser>, first: ProductRequest, second: ProductRequest,
                              ps: seq<Product>, cs: seq<Category>, id: string, now: int)
    requires CreateRejection(session, first, ps, cs).None?
    requires Filled(first.sku) && second.sku == first.sku
    requires Filled(second.name) && PriceGiven(second.price) && Filled(second.categoryId)
    ensures CreateRejection(session, second, ps + [NewProduct(first, id, now)], cs) ==
      Some(CreateRejected(400, "Product with this SKU already exists"))
  {
    var ps' := ps + [NewProduct(first, id, now)];
    assert ps'[|ps|].sku == Some(first.sku.value);
  }

  /** Inserting keeps SKUs unique when the guards pass. */
  lemma CreateKeepsSkusUnique(session: Option<SessionUser>, req: ProductRequest, ps: seq<Product>, cs: seq<Category>, id: string, now: int)
    requires forall i, j :: 0 <= i < j < |ps| && ps[i].sku.Some? ==> ps[i].sku != ps[j].sku
    requires CreateRejection(session, req, ps, cs).None?
    ensures var ps' := ps + [NewProduct(req, id, now)];
      forall i, j :: 0 <= i < j < |ps'| && ps'[i].sku.Some? ==> ps'[i].sku != ps'[j].sku
  {
    var ps' := ps + [NewProduct(req, id, now)];
    forall i, j | 0 <= i < j < |ps'| && ps'[i].sku.Some?
      ensures ps'[i].sku != ps'[j].sku
    {
      if j == |ps| {
        assert ps'[i] == ps[i];
        if ps'[i].sku == req.sku {
          assert SkuTaken(ps, req.sku.value);
        }
      }
    }
  }
}
