/** The admin dashboard: table sizes, revenue from orders that have
    shipped or been delivered, the ten newest orders and the ten products
    lowest in stock below ten units. Reads only. */
module Dashboard {
  import opened Common
  import opened Query
  import opened Schema
  import opened Catalog
  import opened AdminOrders

  /** The orders that count as revenue. */
  predicate Completed(o: Order) {
    o.status == Shipped || o.status == Delivered
  }

  /** `_sum.total` over the completed orders, with `|| 0` for an empty sum. */
  function Revenue(orders: seq<Order>): (r: real)
    ensures (forall k :: 0 <= k < |orders| ==> orders[k].total >= 0.0) ==> r >= 0.0
  {
    if orders == [] then 0.0
    else (if Completed(orders[0]) then orders[0].total else 0.0) + Revenue(orders[1..])
  }

  predicate LowStock(p: Product) {
    p.stock < 10
  }

  datatype DashboardStats =
    | DashboardStats(totalProducts: nat, totalOrders: nat, totalUsers: nat, totalRevenue: real,
                     recentOrders: seq<Order>, lowStockProducts: seq<Product>)
    | DashboardDenied(status: int, error: string)

  function RecentOrders(orders: seq<Order>): seq<Order> {
    Take(SortBy(orders, OrderKey(OrderCreatedAt), Desc), 10)
  }

  /** Every element of a prefix of a permutation of `s` is in `s`. */
  lemma FrontMembers<T>(s: seq<T>, sorted: seq<T>, n: nat)
    requires multiset(sorted) == multiset(s) && n <= |sorted|
    ensures forall x :: x in sorted[..n] ==> x in s
  {
    forall x | x in sorted[..n]
      ensures x in s
    {
      assert x in multiset(sorted);
    }
  }

  /** Ten products at most, as many as there are low-stock products up to
      ten, each a low-stock product of the table. */
  function LowStockProducts(ps: seq<Product>): (r: seq<Product>)
    ensures |r| == Min(10, |Where(ps, LowStock)|)
    ensures forall p :: p in r ==> p in ps && LowStock(p)
  {
    var low := Where(ps, LowStock);
    ArrangeSpec(low, Ordering(ByStock, Asc));
    FrontMembers(low, Arrange(low, Ordering(ByStock, Asc)), Min(10, |low|));
    Take(Arrange(low, Ordering(ByStock, Asc)), 10)
  }

  /** Denied exactly without an admin session; otherwise the counts are the
      table sizes and both lists hold at most ten entries. */
  function Stats(session: Option<SessionUser>, ps: seq<Product>, orders: seq<Order>, users: seq<User>): (r: DashboardStats)
    ensures r.DashboardDenied? <==> !IsAdminSession(session)
    ensures r.DashboardDenied? ==> r.status == 403
    ensures r.DashboardStats? ==>
      && r.totalProducts == |ps| && r.totalOrders == |orders| && r.totalUsers == |users|
      && |r.recentOrders| <= 10 && |r.lowStockProducts| <= 10
  {
    if !IsAdminSession(session) then DashboardDenied(403, "Admin access required")
    else DashboardStats(|ps|, |orders|, |users|, Revenue(orders), RecentOrders(orders), LowStockProducts(ps))
  }

  /** Revenue adds an order's total exactly when it is shipped or delivered. */
  lemma {:induction false} RevenueAppend(orders: seq<Order>, o: Order)
    ensures Revenue(orders + [o]) == Revenue(orders) + (if Completed(o) then o.total else 0.0)
  {
    if orders != [] {
      assert (orders + [o])[1..] == orders[1..] + [o];
      RevenueAppend(orders[1..], o);
    }
  }

  /** With no shipped or delivered order the revenue is zero, whatever the
      other orders' totals are. */
  lemma {:induction false} RevenueWithoutCompleted(orders: seq<Order>)
    requires forall k :: 0 <= k < |orders| ==> !Completed(orders[k])
    ensures Revenue(orders) == 0.0
  {
    if orders != [] {
      RevenueWithoutCompleted(orders[1..]);
    }
  }

  /** Revenue is the sum over the completed orders alone: dropping the
      others changes nothing. */
  lemma {:induction false} RevenueIsSumOfCompleted(orders: seq<Order>)
    ensures Revenue(orders) == Revenue(Where(orders, Completed))
    ensures forall o :: o in Where(orders, Completed) ==> o.status in {Shipped, Delivered}
  {
    if orders != [] {
      RevenueIsSumOfCompleted(orders[1..]);
      var rest := Where(orders[1..], Completed);
      if Completed(orders[0]) {
        assert Where(orders, Completed) == [orders[0]] + rest;
        assert ([orders[0]] + rest)[1..] == rest;
      } else {
        assert Where(orders, Completed) == rest;
      }
    }
  }

  /** Without an admin session the answer is 403; otherwise the counts are
      the table sizes, the recent list holds at most ten orders newest
      first, and no order left out of it is newer than one in it. */
  lemma StatsSpec(session: Option<SessionUser>, ps: seq<Product>, orders: seq<Order>, users: seq<User>)
    ensures !IsAdminSession(session) <==> Stats(session, ps, orders, users) == DashboardDenied(403, "Admin access required")
    ensures var r := Stats(session, ps, orders, users);
      r.DashboardStats? ==>
        && r.totalProducts == |ps| && r.totalOrders == |orders| && r.totalUsers == |users|
        && r.totalRevenue == Revenue(orders)
        && |r.recentOrders| == Min(10, |orders|)
        && (forall o :: o in r.recentOrders ==> o in orders)
        && (forall i, j :: 0 <= i < j < |r.recentOrders| ==> r.recentOrders[i].createdAt >= r.recentOrders[j].createdAt)
        && (forall o, i :: o in orders && o !in r.recentOrders && 0 <= i < |r.recentOrders| && |r.recentOrders| == 10 ==>
              o.createdAt <= r.recentOrders[i].createdAt)
  {
    var sorted := SortBy(orders, OrderKey(OrderCreatedAt), Desc);
    SortBySpec(orders, OrderKey(OrderCreatedAt), Desc);
    SortByLength(orders, OrderKey(OrderCreatedAt), Desc);
    var recent := RecentOrders(orders);
    assert recent == sorted[..|recent|];
    forall o | o in recent
      ensures o in orders
    {
      assert o in multiset(sorted);
    }
    forall i, j | 0 <= i < j < |recent|
      ensures recent[i].createdAt >= recent[j].createdAt
    {
      assert InOrder(OrderKey(OrderCreatedAt)(sorted[i]), OrderKey(OrderCreatedAt)(sorted[j]), Desc);
    }
    forall o, i | o in orders && o !in recent && 0 <= i < |recent| && |recent| == 10
      ensures o.createdAt <= recent[i].createdAt
    {
      assert o in multiset(sorted);
      var k :| 0 <= k < |sorted| && sorted[k] == o;
      assert k >= 10;
      assert InOrder(OrderKey(OrderCreatedAt)(sorted[i]), OrderKey(OrderCreatedAt)(sorted[k]), Desc);
    }
  }

  /** The low-stock list holds at most ten products, all from the table with
      stock below ten, in ascending stock order, and no low-stock product
      left out has less stock than one that is shown. */
  lemma LowStockSpec(ps: seq<Product>)
    ensures var r := LowStockProducts(ps);
      && |r| == Min(10, |Where(ps, LowStock)|)
      && (forall p :: p in r ==> p in ps && p.stock < 10)
      && (forall i, j :: 0 <= i < j < |r| ==> r[i].stock <= r[j].stock)
      && (forall p, i :: p in ps && LowStock(p) && p !in r && 0 <= i < |r| ==> r[i].stock <= p.stock)
  {
    var low := Where(ps, LowStock);
    var sorted := Arrange(low, Ordering(ByStock, Asc));
    ArrangeSpec(low, Ordering(ByStock, Asc));
    var r := LowStockProducts(ps);
    assert r == sorted[..|r|];
    forall i, j | 0 <= i < j < |r|
      ensures r[i].stock <= r[j].stock
    {
      assert InOrder(ProductKey(ByStock)(sorted[i]), ProductKey(ByStock)(sorted[j]), Asc);
    }
    forall p, i | p in ps && LowStock(p) && p !in r && 0 <= i < |r|
      ensures r[i].stock <= p.stock
    {
      assert p in low;
      assert p in multiset(sorted);
      var k :| 0 <= k < |sorted| && sorted[k] == p;
      assert k >= |r|;
      assert InOrder(ProductKey(ByStock)(sorted[i]), ProductKey(ByStock)(sorted[k]), Asc);
    }
  }
}
