/** The admin order list: every order matching a search over the order id
    and the buyer's name and email, and an exact status, in the requested
    order. No paging. */
module AdminOrders {
  import opened Common
  import opened Text
  import opened Query
  import opened Schema

  datatype AdminOrderQuery = AdminOrderQuery(search: Option<string>, status: Option<string>, sort: Option<string>)

  /** The user row an order belongs to (the relation the search follows). */
  function FindUser(users: seq<User>, id: string): (r: Option<User>)
    ensures r.Some? ==> r.value in users && r.value.id == id
    ensures r.None? ==> forall u :: u in users ==> u.id != id
  {
    if users == [] then None
    else if users[0].id == id then Some(users[0])
    else FindUser(users[1..], id)
  }

  /** The search text occurs, ignoring case, in the order id, the buyer's
      name or the buyer's email. */
  predicate OrderSearchHit(o: Order, users: seq<User>, search: string) {
    ContainsInsensitive(o.id, search) ||
    (FindUser(users, o.userId).Some? &&
      ((FindUser(users, o.userId).value.name.Some? && ContainsInsensitive(FindUser(users, o.userId).value.name.value, search)) ||
       ContainsInsensitive(FindUser(users, o.userId).value.email, search)))
  }

  predicate AdminOrderMatches(q: AdminOrderQuery, users: seq<User>, o: Order) {
    && (Filled(q.search) ==> OrderSearchHit(o, users, q.search.value))
    && (Filled(q.status) ==> StatusName(o.status) == q.status.value)
  }

  function AdminOrderMatching(orders: seq<Order>, users: seq<User>, q: AdminOrderQuery): seq<Order> {
    Where(orders, (o: Order) => AdminOrderMatches(q, users, o))
  }

  datatype OrderColumn = OrderCreatedAt | OrderTotal

  function OrderKeyOf(c: OrderColumn, o: Order): Key {
    match c
    case OrderCreatedAt => Num(o.createdAt as real)
    case OrderTotal => Num(o.total)
  }

  function OrderKey(c: OrderColumn): Order -> Key {
    (o: Order) => OrderKeyOf(c, o)
  }

  /** The `sort` switch; anything unrecognised sorts newest first. */
  function AdminOrderOrdering(sort: string): (OrderColumn, Direction) {
    if sort == "oldest" then (OrderCreatedAt, Asc)
    else if sort == "total-high" then (OrderTotal, Desc)
    else if sort == "total-low" then (OrderTotal, Asc)
    else (OrderCreatedAt, Desc)
  }

  datatype AdminOrderList = AdminOrderList(orders: seq<Order>) | AdminOrdersError(status: int, error: string)

  /** 403 without an admin session, else 500 for a status outside the enum,
      else as many orders as match. */
  function AdminListOrders(session: Option<SessionUser>, orders: seq<Order>, users: seq<User>, q: AdminOrderQuery): (r: AdminOrderList)
    ensures r.AdminOrdersError? <==> !IsAdminSession(session) || (Filled(q.status) && ParseStatus(q.status.value).None?)
    ensures r.AdminOrdersError? ==> (r.status == 403 <==> !IsAdminSession(session)) && r.status in {403, 500}
    ensures r.AdminOrderList? ==> |r.orders| == |AdminOrderMatching(orders, users, q)|
  {
    var o := AdminOrderOrdering(OrDefault(q.sort, "newest"));
    SortByLength(AdminOrderMatching(orders, users, q), OrderKey(o.0), o.1);
    if !IsAdminSession(session) then AdminOrdersError(403, "Admin access required")
    // `where.status` takes the text as given: a value outside the enum makes
    // the query itself fail.
    else if Filled(q.status) && ParseStatus(q.status.value).None? then AdminOrdersError(500, "Failed to fetch orders")
    else
      var o := AdminOrderOrdering(OrDefault(q.sort, "newest"));
      AdminOrderList(SortBy(AdminOrderMatching(orders, users, q), OrderKey(o.0), o.1))
  }

  /** Without an admin session the answer is 403; with a status that is not
      one of the enum's spellings it is 500. Otherwise every matching order
      is returned, each once, and no other (there is no paging), with an
      exact status test when a status is given. */
  lemma AdminListOrdersSpec(session: Option<SessionUser>, orders: seq<Order>, users: seq<User>, q: AdminOrderQuery)
    ensures !IsAdminSession(session) <==> AdminListOrders(session, orders, users, q) == AdminOrdersError(403, "Admin access required")
    ensures IsAdminSession(session) ==>
      (AdminListOrders(session, orders, users, q) == AdminOrdersError(500, "Failed to fetch orders") <==>
        Filled(q.status) && forall t: OrderStatus :: StatusName(t) != q.status.value)
    ensures var r := AdminListOrders(session, orders, users, q);
      r.AdminOrderList? ==>
        && multiset(r.orders) == multiset(AdminOrderMatching(orders, users, q))
        && |r.orders| == |AdminOrderMatching(orders, users, q)|
        && (forall o :: o in r.orders <==> o in orders && AdminOrderMatches(q, users, o))
        && (forall o :: o in r.orders && Filled(q.status) ==> StatusName(o.status) == q.status.value)
  {
    if IsAdminSession(session) && Filled(q.status) && ParseStatus(q.status.value).Some? {
      assert StatusName(ParseStatus(q.status.value).value) == q.status.value;
    }
    if AdminListOrders(session, orders, users, q).AdminOrderList? {
      var matching := AdminOrderMatching(orders, users, q);
      var o := AdminOrderOrdering(OrDefault(q.sort, "newest"));
      SortBySpec(matching, OrderKey(o.0), o.1);
      SortByLength(matching, OrderKey(o.0), o.1);
      var r := AdminListOrders(session, orders, users, q);
      forall x
        ensures x in r.orders <==> x in matching
      {
        assert x in r.orders <==> x in multiset(r.orders);
        assert x in matching <==> x in multiset(matching);
      }
    }
  }

  /** The sort mapping read off the list: oldest first, total-high with
      totals downwards, total-low upwards, anything else newest first. */
  lemma AdminOrderSortMapping(session: Option<SessionUser>, orders: seq<Order>, users: seq<User>, q: AdminOrderQuery)
    requires AdminListOrders(session, orders, users, q).AdminOrderList?
    ensures var rows := AdminListOrders(session, orders, users, q).orders; var s := OrDefault(q.sort, "newest");
      && (s == "oldest" ==> forall i, j :: 0 <= i < j < |rows| ==> rows[i].createdAt <= rows[j].createdAt)
      && (s == "total-high" ==> forall i, j :: 0 <= i < j < |rows| ==> rows[i].total >= rows[j].total)
      && (s == "total-low" ==> forall i, j :: 0 <= i < j < |rows| ==> rows[i].total <= rows[j].total)
      && (s !in {"oldest", "total-high", "total-low"} ==>
            forall i, j :: 0 <= i < j < |rows| ==> rows[i].createdAt >= rows[j].createdAt)
  {
    var o := AdminOrderOrdering(OrDefault(q.sort, "newest"));
    SortBySpec(AdminOrderMatching(orders, users, q), OrderKey(o.0), o.1);
    var rows := AdminListOrders(session, orders, users, q).orders;
    forall i, j | 0 <= i < j < |rows|
      ensures InOrder(OrderKeyOf(o.0, rows[i]), OrderKeyOf(o.0, rows[j]), o.1)
    {
      assert InOrder(OrderKey(o.0)(rows[i]), OrderKey(o.0)(rows[j]), o.1);
    }
  }
}
