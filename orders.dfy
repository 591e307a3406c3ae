/** The buyer's order endpoint. `POST` validates the request, checks each
    line against the product table and then, as one atomic unit, records
    the order, its lines and a pending payment and takes the ordered
    quantities out of stock. `GET` lists the caller's own orders a page at
    a time. The session is a parameter; the tables are fields of a store. */
module Orders {
  import opened Common
  import opened Text
  import opened Query
  import opened Schema

  /** One line of the request body: the client states the price. */
  datatype RequestItem = RequestItem(productId: string, quantity: int, price: real)

  /** The request body. `items` is None when it is missing or not an array;
      the money fields are stored as the client sent them. */
  datatype OrderRequest = OrderRequest(
    items: Option<seq<RequestItem>>,
    shippingAddress: Option<string>,
    paymentMethod: Option<string>,
    subtotal: real,
    tax: real,
    shipping: real,
    total: real,
    notes: Option<string>)

  datatype PlaceResult = Placed(orderId: string, order: Order) | Rejected(status: int, error: string)

  /** `products.find(p => p.id === id)`: the first row with that id. */
  function FindProduct(ps: seq<Product>, id: string): (r: Option<Product>)
    ensures r.None? <==> forall k :: 0 <= k < |ps| ==> ps[k].id != id
    ensures r.Some? ==> exists k :: 0 <= k < |ps| && ps[k] == r.value && r.value.id == id
  {
    if ps == [] then None
    else if ps[0].id == id then Some(ps[0])
    else FindProduct(ps[1..], id)
  }

  /** A line passes the availability check: its product exists and holds
      at least the requested quantity. */
  predicate LineAvailable(ps: seq<Product>, line: RequestItem) {
    FindProduct(ps, line.productId).Some? && FindProduct(ps, line.productId).value.stock >= line.quantity
  }

  /** The answer of the availability loop: the rejection for the first line,
      in list order, whose product is missing (404) or short (400). */
  function StockRejection(ps: seq<Product>, items: seq<RequestItem>): (r: Option<PlaceResult>)
    ensures r.None? <==> forall k :: 0 <= k < |items| ==> LineAvailable(ps, items[k])
    ensures r.Some? ==> r.value.Rejected? && (r.value.status == 404 || r.value.status == 400)
  {
    if items == [] then None
    else
      assert forall k :: 1 <= k < |items| ==> items[k] == items[1..][k - 1];
      match FindProduct(ps, items[0].productId)
      case None => Some(Rejected(404, "Product " + items[0].productId + " not found"))
      case Some(p) =>
        if p.stock < items[0].quantity then Some(Rejected(400, "Insufficient stock for product " + p.name))
        else StockRejection(ps, items[1..])
  }

  /** Every rejection the handler can give before it writes, in the order
      the handler tests them; None when the transaction runs to the end. */
  function Rejection(session: Option<SessionUser>, req: OrderRequest, ps: seq<Product>): (r: Option<PlaceResult>)
    ensures r.Some? ==> r.value.Rejected? && r.value.status in {401, 400, 404, 500}
    ensures r.None? <==>
      && Authenticated(session)
      && req.items.Some? && |req.items.value| > 0
      && Filled(req.shippingAddress) && Filled(req.paymentMethod)
      && (forall k :: 0 <= k < |req.items.value| ==> LineAvailable(ps, req.items.value[k]))
      && ParsePaymentMethod(Upper(req.paymentMethod.value)).Some?
  {
    if !Authenticated(session) then Some(Rejected(401, "Authentication required"))
    else if req.items.None? || |req.items.value| == 0 then Some(Rejected(400, "Order items are required"))
    else if !Filled(req.shippingAddress) || !Filled(req.paymentMethod) then
      Some(Rejected(400, "Shipping address and payment method are required"))
    else if StockRejection(ps, req.items.value).Some? then StockRejection(ps, req.items.value)
    // The payment row is written with the upper-cased method; a value outside
    // the enum makes the database throw inside the transaction.
    else if ParsePaymentMethod(Upper(req.paymentMethod.value)).None? then Some(Rejected(500, "Failed to create order"))
    else None
  }

  /** The order row: status PENDING, billing address copied from shipping,
      an empty note stored as null. */
  function NewOrder(userId: string, orderId: string, req: OrderRequest, now: int): Order
    requires Filled(req.shippingAddress)
  {
    Order(orderId, userId, Pending, req.subtotal, req.tax, req.shipping, req.total,
          req.shippingAddress.value, req.shippingAddress.value,
          if Filled(req.notes) then Some(req.notes.value) else None, now)
  }

  /** One order-item row per request line, with the client's price. */
  function LineItems(orderId: string, items: seq<RequestItem>): (r: seq<OrderItem>)
    ensures |r| == |items|
    ensures forall k :: 0 <= k < |r| ==> r[k] == OrderItem(orderId, items[k].productId, items[k].quantity, items[k].price)
  {
    seq(|items|, k requires 0 <= k < |items| => OrderItem(orderId, items[k].productId, items[k].quantity, items[k].price))
  }

  /** Total quantity that the lines of `items` order of product `id`. */
  function Ordered(items: seq<RequestItem>, id: string): int
    decreases |items|
  {
    if items == [] then 0
    else Ordered(items[..|items| - 1], id) + (if items[|items| - 1].productId == id then items[|items| - 1].quantity else 0)
  }

  /** Every product row after the decrements: stock less all that was ordered of it. */
  function StockAfter(ps: seq<Product>, items: seq<RequestItem>): (r: seq<Product>)
    ensures |r| == |ps|
    ensures forall j :: 0 <= j < |r| ==> r[j].(stock := ps[j].stock) == ps[j]
  {
    seq(|ps|, j requires 0 <= j < |ps| => ps[j].(stock := ps[j].stock - Ordered(items, ps[j].id)))
  }

  /** `stock: { decrement: quantity }` on the row with that id. */
  function Decrement(ps: seq<Product>, id: string, quantity: int): seq<Product> {
    seq(|ps|, j requires 0 <= j < |ps| => if ps[j].id == id then ps[j].(stock := ps[j].stock - quantity) else ps[j])
  }

  class OrderStore {
    var products: seq<Product>
    var orders: seq<Order>
    var orderItems: seq<OrderItem>
    var payments: seq<Payment>

    constructor (products: seq<Product>)
      ensures this.products == products && orders == [] && orderItems == [] && payments == []
    {
      this.products := products;
      orders, orderItems, payments := [], [], [];
    }

    /** The availability loop: looks each line's product up and stops at the
        first that is missing or short. Reads the table, writes nothing. */
    method CheckStock(items: seq<RequestItem>) returns (rejection: Option<PlaceResult>)
      ensures rejection == StockRejection(products, items)
      ensures rejection.None? <==> forall k :: 0 <= k < |items| ==> LineAvailable(products, items[k])
    {
      var i := 0;
      while i < |items|
        invariant 0 <= i <= |items|
        invariant StockRejection(products, items) == StockRejection(products, items[i..])
      {
        assert items[i..][1..] == items[i + 1..];
        var found := FindProduct(products, items[i].productId);
        if found.None? {
          return Some(Rejected(404, "Product " + items[i].productId + " not found"));
        }
        if found.value.stock < items[i].quantity {
          return Some(Rejected(400, "Insufficient stock for product " + found.value.name));
        }
        i := i + 1;
      }
      return None;
    }

    /** The stock updates of the transaction, one line at a time. */
    method DecrementStock(items: seq<RequestItem>)
      modifies this`products
      ensures products == StockAfter(old(products), items)
    {
      var j := 0;
      while j < |items|
        invariant 0 <= j <= |items|
        invariant products == StockAfter(old(products), items[..j])
      {
        StockAfterStep(old(products), items, j);
        products := Decrement(products, items[j].productId, items[j].quantity);
        j := j + 1;
      }
      assert items[..|items|] == items;
    }

    /** `POST /api/orders`. `orderId` and `now` are the identifier and
        timestamp the database assigns to the new order. */
    method PlaceOrder(session: Option<SessionUser>, req: OrderRequest, orderId: string, now: int) returns (res: PlaceResult)
      modifies this
      ensures Rejection(session, req, old(products)).Some? ==>
        res == Rejection(session, req, old(products)).value &&
        products == old(products) && orders == old(orders) &&
        orderItems == old(orderItems) && payments == old(payments)
      ensures Rejection(session, req, old(products)).None? ==>
        res == Placed(orderId, NewOrder(session.value.id, orderId, req, now)) &&
        orders == old(orders) + [NewOrder(session.value.id, orderId, req, now)] &&
        orderItems == old(orderItems) + LineItems(orderId, req.items.value) &&
        payments == old(payments) + [Payment(orderId, req.total, ParsePaymentMethod(Upper(req.paymentMethod.value)).value, PaymentPending)] &&
        products == StockAfter(old(products), req.items.value)
    {
      if !Authenticated(session) {
        return Rejected(401, "Authentication required");
      }
      if req.items.None? || |req.items.value| == 0 {
        return Rejected(400, "Order items are required");
      }
      if !Filled(req.shippingAddress) || !Filled(req.paymentMethod) {
        return Rejected(400, "Shipping address and payment method are required");
      }
      var items := req.items.value;

      // Availability: one line at a time, first failure answers.
      var rejection := CheckStock(items);
      if rejection.Some? {
        return rejection.value;
      }

      // The transaction: every write below is undone if one of them fails.
      var products0, orders0, orderItems0, payments0 := products, orders, orderItems, payments;
      var order := NewOrder(session.value.id, orderId, req, now);
      orders := orders + [order];
      orderItems := orderItems + LineItems(orderId, items);
      var pm := ParsePaymentMethod(Upper(req.paymentMethod.value));
      if pm.None? {
        products, orders, orderItems, payments := products0, orders0, orderItems0, payments0;
        return Rejected(500, "Failed to create order");
      }
      payments := payments + [Payment(orderId, req.total, pm.value, PaymentPending)];

      DecrementStock(items);
      res := Placed(orderId, order);
    }
  }

  /** Applying one more line's decrement extends the running totals by that line. */
  lemma StockAfterStep(ps: seq<Product>, items: seq<RequestItem>, j: nat)
    requires j < |items|
    ensures StockAfter(ps, items[..j + 1]) == Decrement(StockAfter(ps, items[..j]), items[j].productId, items[j].quantity)
  {
    assert items[..j + 1][..j] == items[..j];
  }

  /** The check answers for the first unavailable line, 404 when its product
      is missing and 400 when its stock is short, whatever the later lines are. */
  lemma {:induction false} StockRejectionFirst(ps: seq<Product>, items: seq<RequestItem>, k: nat)
    requires k < |items| && !LineAvailable(ps, items[k])
    requires forall j :: 0 <= j < k ==> LineAvailable(ps, items[j])
    ensures StockRejection(ps, items) ==
      Some(if FindProduct(ps, items[k].productId).None? then Rejected(404, "Product " + items[k].productId + " not found")
           else Rejected(400, "Insufficient stock for product " + FindProduct(ps, items[k].productId).value.name))
  {
    if k > 0 {
      StockRejectionFirst(ps, items[1..], k - 1);
    }
  }

  /** Lines that name other products leave a product's ordered total alone. */
  lemma {:induction false} OrderedAppend(a: seq<RequestItem>, b: seq<RequestItem>, id: string)
    ensures Ordered(a + b, id) == Ordered(a, id) + Ordered(b, id)
    decreases |b|
  {
    if b == [] {
      assert a + b == a;
    } else {
      var b' := b[..|b| - 1];
      assert (a + b)[..|a + b| - 1] == a + b';
      OrderedAppend(a, b', id);
    }
  }

  /** When the request names a product on exactly one line, that line's
      quantity is what leaves its stock. */
  lemma {:induction false} OrderedSingleLine(items: seq<RequestItem>, k: nat)
    requires k < |items|
    requires forall j :: 0 <= j < |items| && j != k ==> items[j].productId != items[k].productId
    ensures Ordered(items, items[k].productId) == items[k].quantity
  {
    var id := items[k].productId;
    OrderedNone(items[..k], id);
    OrderedNone(items[k + 1..], id);
    assert items == items[..k] + [items[k]] + items[k + 1..];
    OrderedAppend(items[..k] + [items[k]], items[k + 1..], id);
    OrderedAppend(items[..k], [items[k]], id);
    assert [items[k]][..0] == [];
  }

  lemma {:induction false} OrderedNone(items: seq<RequestItem>, id: string)
    requires forall j :: 0 <= j < |items| ==> items[j].productId != id
    ensures Ordered(items, id) == 0
    decreases |items|
  {
    if items != [] {
      OrderedNone(items[..|items| - 1], id);
    }
  }

  predicate DistinctProducts(items: seq<RequestItem>) {
    forall i, j :: 0 <= i < j < |items| ==> items[i].productId != items[j].productId
  }

  predicate UniqueIds(ps: seq<Product>) {
    forall i, j :: 0 <= i < j < |ps| ==> ps[i].id != ps[j].id
  }

  /** With no product named twice, a request that passes the per-line check
      leaves every stock at least zero (given none was negative before). */
  lemma StockStaysNonNegativeWhenDistinct(ps: seq<Product>, items: seq<RequestItem>)
    requires UniqueIds(ps) && DistinctProducts(items)
    requires forall j :: 0 <= j < |ps| ==> ps[j].stock >= 0
    requires forall k :: 0 <= k < |items| ==> items[k].quantity >= 0
    requires StockRejection(ps, items).None?
    ensures forall j :: 0 <= j < |StockAfter(ps, items)| ==> StockAfter(ps, items)[j].stock >= 0
  {
    forall j | 0 <= j < |ps|
      ensures StockAfter(ps, items)[j].stock >= 0
    {
      var id := ps[j].id;
      if k :| 0 <= k < |items| && items[k].productId == id {
        OrderedSingleLine(items, k);
        assert LineAvailable(ps, items[k]);
        FindUnique(ps, j);
      } else {
        OrderedNone(items, id);
      }
    }
  }

  lemma {:induction false} FindUnique(ps: seq<Product>, j: nat)
    requires j < |ps| && UniqueIds(ps)
    ensures FindProduct(ps, ps[j].id) == Some(ps[j])
  {
    if j > 0 {
      assert UniqueIds(ps[1..]) by {
        forall a, b | 0 <= a < b < |ps[1..]| ensures ps[1..][a].id != ps[1..][b].id {
          assert ps[1..][a] == ps[a + 1] && ps[1..][b] == ps[b + 1];
        }
      }
      FindUnique(ps[1..], j - 1);
    }
  }

  /** The per-line check does not add up lines of the same product: two
      lines of one unit each pass against a stock of one, and the
      transaction then leaves that stock at minus one. */
  lemma DuplicateLinesDriveStockNegative(p: Product)
    requires p.stock == 1
    ensures StockRejection([p], [RequestItem(p.id, 1, p.price), RequestItem(p.id, 1, p.price)]).None?
    ensures StockAfter([p], [RequestItem(p.id, 1, p.price), RequestItem(p.id, 1, p.price)])[0].stock == -1
  {
    var items := [RequestItem(p.id, 1, p.price), RequestItem(p.id, 1, p.price)];
    assert FindProduct([p], p.id) == Some(p);
    assert items[1..] == [items[1]];
    assert [items[1]][1..] == [];
    assert StockRejection([p], items[1..]) == None;
    assert items[..1] == [items[0]];
    assert [items[0]][..0] == [];
    assert Ordered(items[..1], p.id) == 1;
    assert Ordered(items, p.id) == 2;
  }

  /** Quantities are not checked to be positive: a negative line passes the
      check and the decrement then raises the product's stock. */
  lemma NegativeQuantityRaisesStock(p: Product, q: int)
    requires p.stock >= 0 && q < 0
    ensures StockRejection([p], [RequestItem(p.id, q, p.price)]).None?
    ensures StockAfter([p], [RequestItem(p.id, q, p.price)])[0].stock == p.stock - q > p.stock
  {
    var items := [RequestItem(p.id, q, p.price)];
    assert FindProduct([p], p.id) == Some(p);
    assert items[1..] == [];
    assert items[..0] == [];
    assert Ordered(items, p.id) == q;
  }

  /** An accepted order stores the client's per-line price and total,
      whatever the product table says the price is. */
  lemma ClientPricesAreStored(orderId: string, items: seq<RequestItem>, k: nat)
    requires k < |items|
    ensures LineItems(orderId, items)[k].price == items[k].price
    ensures LineItems(orderId, items)[k].quantity == items[k].quantity
  {
  }

  // ---- GET /api/orders ----

  datatype ListResult =
    | Listed(rows: seq<Order>, page: int, limit: int, totalCount: nat, totalPages: nat)
    | ListRejected(status: int, error: string)
    | PagingOutsideModel

  function CreatedAtKey(o: Order): Key {
    Num(o.createdAt as real)
  }

  /** The rows of the caller's orders, in table order. */
  function OwnOrders(orders: seq<Order>, uid: string): seq<Order> {
    Where(orders, (o: Order) => o.userId == uid)
  }

  /** The caller's orders, newest first, one page at a time (page 1 and
      10 per page unless the query says otherwise). */
  function ListOrders(orders: seq<Order>, session: Option<SessionUser>, page: Option<int>, limit: Option<int>): (r: ListResult)
    ensures !Authenticated(session) <==> r == ListRejected(401, "Authentication required")
  {
    if !Authenticated(session) then ListRejected(401, "Authentication required")
    else
      match Paginate(SortBy(OwnOrders(orders, session.value.id), CreatedAtKey, Desc), page.GetOr(1), limit.GetOr(10))
      case PageOf(rows, pg, lm, count, pages) => Listed(rows, pg, lm, count, pages)
      case NegativeSkip => ListRejected(500, "Failed to fetch orders")
      case NonPositiveLimit => PagingOutsideModel
  }

  /** A listed result is the page `Paginate` cuts from the caller's orders,
      newest first. */
  lemma ListOrdersIsPage(orders: seq<Order>, session: Option<SessionUser>, page: Option<int>, limit: Option<int>)
    requires ListOrders(orders, session, page, limit).Listed?
    ensures Authenticated(session)
    ensures var pg := Paginate(SortBy(OwnOrders(orders, session.value.id), CreatedAtKey, Desc), page.GetOr(1), limit.GetOr(10));
      pg.PageOf? && ListOrders(orders, session, page, limit) == Listed(pg.rows, pg.page, pg.limit, pg.totalCount, pg.totalPages)
  {
  }

  /** A listed page is cut from the caller's orders sorted newest first:
      it is the requested page of that listing, so it holds at most `limit`
      orders and keeps their order. */
  lemma ListOrdersWindow(orders: seq<Order>, session: Option<SessionUser>, page: Option<int>, limit: Option<int>, r: ListResult)
    requires r == ListOrders(orders, session, page, limit) && r.Listed?
    ensures |r.rows| <= r.limit
    ensures r.rows == Window(SortBy(OwnOrders(orders, session.value.id), CreatedAtKey, Desc), (r.page - 1) * r.limit, r.limit)
    ensures SortedBy(r.rows, CreatedAtKey, Desc)
  {
    ListOrdersIsPage(orders, session, page, limit);
    var mine := OwnOrders(orders, session.value.id);
    var sorted := SortBy(mine, CreatedAtKey, Desc);
    var skip: nat := (r.page - 1) * r.limit;
    assert r.rows == Window(sorted, skip, r.limit);
    SortBySpec(mine, CreatedAtKey, Desc);
    WindowOfSorted(sorted, skip, r.limit, CreatedAtKey, Desc);
  }

  /** Sorting the caller's orders brings in no one else's. */
  lemma SortedOwnOrders(orders: seq<Order>, uid: string)
    ensures forall o :: o in SortBy(OwnOrders(orders, uid), CreatedAtKey, Desc) ==> o in orders && o.userId == uid
  {
    var mine := OwnOrders(orders, uid);
    SortBySpec(mine, CreatedAtKey, Desc);
    forall o | o in SortBy(mine, CreatedAtKey, Desc)
      ensures o in mine
    {
      assert o in multiset(SortBy(mine, CreatedAtKey, Desc));
    }
  }

  /** A listed page holds only the caller's own orders. */
  lemma ListOrdersOwn(orders: seq<Order>, session: Option<SessionUser>, page: Option<int>, limit: Option<int>, r: ListResult)
    requires r == ListOrders(orders, session, page, limit) && r.Listed?
    ensures Authenticated(session)
    ensures forall o :: o in r.rows ==> o in orders && o.userId == session.value.id
  {
    ListOrdersWindow(orders, session, page, limit, r);
    var sorted := SortBy(OwnOrders(orders, session.value.id), CreatedAtKey, Desc);
    WindowRowsFrom(sorted, (r.page - 1) * r.limit, r.limit);
    SortedOwnOrders(orders, session.value.id);
  }

  /** A listed page reports the requested page and size (1 and 10 by
      default), counts all of the caller's orders, and gives the ceiling of
      that count over the page size as the page count. */
  lemma ListOrdersCounts(orders: seq<Order>, session: Option<SessionUser>, page: Option<int>, limit: Option<int>, r: ListResult)
    requires r == ListOrders(orders, session, page, limit) && r.Listed?
    ensures r.page == page.GetOr(1) >= 1 && r.limit == limit.GetOr(10) >= 1
    ensures r.totalCount == |OwnOrders(orders, session.value.id)|
    ensures (r.totalPages - 1) * r.limit < r.totalCount <= r.totalPages * r.limit || (r.totalCount == 0 && r.totalPages == 0)
  {
    ListOrdersIsPage(orders, session, page, limit);
    var mine := OwnOrders(orders, session.value.id);
    assert |SortBy(mine, CreatedAtKey, Desc)| == |mine| by {
      SortByLength(mine, CreatedAtKey, Desc);
    }
  }
}
