/** The client-side cart store: a list of cart lines that the actions
    replace as a whole, and three getters that fold over it. The line id
    that the store stamps on a new line (the current time as a string) is
    a parameter. */
module Cart {
  import opened Common

  datatype CartItem = CartItem(
    id: string,
    productId: string,
    name: string,
    price: real,
    image: Option<string>,
    quantity: int,
    stock: int)

  /** What a caller passes to `addItem`: a line without its id. */
  datatype NewItem = NewItem(
    productId: string,
    name: string,
    price: real,
    image: Option<string>,
    quantity: int,
    stock: int)

  function WithId(item: NewItem, id: string): CartItem {
    CartItem(id, item.productId, item.name, item.price, item.image, item.quantity, item.stock)
  }

  /** Some line of `items` is for product `pid`. */
  predicate InCart(items: seq<CartItem>, pid: string) {
    exists k :: 0 <= k < |items| && items[k].productId == pid
  }

  /** No two lines are for the same product. */
  predicate UniqueProducts(items: seq<CartItem>) {
    forall i, j :: 0 <= i < j < |items| ==> items[i].productId != items[j].productId
  }

  /** `items.some(item => item.productId === pid)`. */
  function HasLine(items: seq<CartItem>, pid: string): (r: bool)
    ensures r <==> InCart(items, pid)
  {
    if items == [] then false
    else if items[0].productId == pid then true
    else
      assert forall k :: 1 <= k < |items| ==> items[k] == items[1..][k - 1];
      HasLine(items[1..], pid)
  }

  /** The re-add of a product already in the cart: its line goes up by one,
      capped at the line's stock. */
  function Bumped(items: seq<CartItem>, pid: string): seq<CartItem> {
    seq(|items|, k requires 0 <= k < |items| =>
      if items[k].productId == pid then items[k].(quantity := Min(items[k].quantity + 1, items[k].stock)) else items[k])
  }

  /** The list after `addItem(item)` with `id` as the new line's id. */
  function Added(items: seq<CartItem>, item: NewItem, id: string): seq<CartItem> {
    if InCart(items, item.productId) then Bumped(items, item.productId) else items + [WithId(item, id)]
  }

  /** `items.filter(item => item.id !== id)`. */
  function WithoutId(items: seq<CartItem>, id: string): (r: seq<CartItem>)
    ensures |r| <= |items|
  {
    if items == [] then []
    else (if items[0].id != id then [items[0]] else []) + WithoutId(items[1..], id)
  }

  /** `updateQuantity` with a positive quantity: lines with that id get the
      quantity, capped at their stock. */
  function Requantified(items: seq<CartItem>, id: string, quantity: int): seq<CartItem> {
    seq(|items|, k requires 0 <= k < |items| =>
      if items[k].id == id then items[k].(quantity := Min(quantity, items[k].stock)) else items[k])
  }

  /** `reduce((total, item) => total + item.quantity, 0)`; never negative
      while no line is. */
  function SumQuantities(items: seq<CartItem>): (r: int)
    ensures (forall k :: 0 <= k < |items| ==> items[k].quantity >= 0) ==> r >= 0
  {
    if items == [] then 0 else items[0].quantity + SumQuantities(items[1..])
  }

  /** `reduce((total, item) => total + item.price * item.quantity, 0)`;
      `SumPricesNonNegative` bounds it. */
  function SumPrices(items: seq<CartItem>): real {
    if items == [] then 0.0 else items[0].price * items[0].quantity as real + SumPrices(items[1..])
  }

  class CartStore {
    var items: seq<CartItem>

    constructor ()
      ensures items == []
    {
      items := [];
    }

    /** `addItem`: merge into the product's line, or append a new line with
        the quantity as given. */
    method AddItem(item: NewItem, now: string)
      modifies this
      ensures items == Added(old(items), item, now)
    {
      if HasLine(items, item.productId) {
        items := Bumped(items, item.productId);
      } else {
        items := items + [WithId(item, now)];
      }
    }

    method RemoveItem(itemId: string)
      modifies this
      ensures items == WithoutId(old(items), itemId)
    {
      items := WithoutId(items, itemId);
    }

    /** A quantity of zero or less removes the line; otherwise it is set,
        capped at the line's stock. */
    method UpdateQuantity(itemId: string, quantity: int)
      modifies this
      ensures quantity <= 0 ==> items == WithoutId(old(items), itemId)
      ensures quantity > 0 ==> items == Requantified(old(items), itemId, quantity)
    {
      if quantity <= 0 {
        RemoveItem(itemId);
        return;
      }
      items := Requantified(items, itemId, quantity);
    }

    method ClearCart()
      modifies this
      ensures items == []
      ensures TotalItems() == 0 && TotalPrice() == 0.0
    {
      items := [];
    }

    /** `getTotalItems`. */
    function TotalItems(): (r: int)
      reads this
      ensures r == SumQuantities(items)
      ensures (forall k :: 0 <= k < |items| ==> items[k].quantity >= 0) ==> r >= 0
    {
      SumQuantities(items)
    }

    /** `getTotalPrice`. */
    function TotalPrice(): (r: real)
      reads this
      ensures r == SumPrices(items)
      ensures (forall k :: 0 <= k < |items| ==> items[k].price >= 0.0 && items[k].quantity >= 0) ==> r >= 0.0
    {
      SumPricesNonNegative(items);
      SumPrices(items)
    }

    function IsInCart(productId: string): (r: bool)
      reads this
      ensures r <==> exists k :: 0 <= k < |items| && items[k].productId == productId
    {
      HasLine(items, productId)
    }
  }

  // ---- Properties of the actions ----

  /** Adding a product that is not in the cart appends exactly one line,
      carrying the quantity as passed, and leaves the others as they were. */
  lemma AddNewAppendsOneLine(items: seq<CartItem>, item: NewItem, id: string)
    requires !InCart(items, item.productId)
    ensures |Added(items, item, id)| == |items| + 1
    ensures Added(items, item, id)[..|items|] == items
    ensures Added(items, item, id)[|items|] == WithId(item, id)
    ensures Added(items, item, id)[|items|].quantity == item.quantity
  {
  }

  /** Adding a product already in the cart adds no line; that product's
      line becomes min(old + 1, stock), whatever quantity was passed, and
      every other line is unchanged. */
  lemma AddExistingMerges(items: seq<CartItem>, item: NewItem, id: string, k: nat)
    requires k < |items| && items[k].productId == item.productId
    ensures |Added(items, item, id)| == |items|
    ensures Added(items, item, id)[k].quantity == Min(items[k].quantity + 1, items[k].stock)
    ensures forall j :: 0 <= j < |items| && items[j].productId != item.productId ==> Added(items, item, id)[j] == items[j]
  {
  }

  lemma AddedKeepsUnique(items: seq<CartItem>, item: NewItem, id: string)
    requires UniqueProducts(items)
    ensures UniqueProducts(Added(items, item, id))
  {
    var r := Added(items, item, id);
    if InCart(items, item.productId) {
      assert forall k :: 0 <= k < |r| ==> r[k].productId == items[k].productId;
    } else {
      forall i, j | 0 <= i < j < |r|
        ensures r[i].productId != r[j].productId
      {
        if j == |items| {
          assert r[i] == items[i];
        }
      }
    }
  }

  /** The cart after a run of `addItem` calls, each with its line id. */
  function AddAll(items: seq<CartItem>, adds: seq<(NewItem, string)>): seq<CartItem>
    decreases |adds|
  {
    if adds == [] then items else AddAll(Added(items, adds[0].0, adds[0].1), adds[1..])
  }

  /** If only `addItem` is used, starting from a cart without duplicates
      (the empty cart among them), no two lines share a product. */
  lemma {:induction false} AddOnlyKeepsProductsUnique(items: seq<CartItem>, adds: seq<(NewItem, string)>)
    requires UniqueProducts(items)
    ensures UniqueProducts(AddAll(items, adds))
    decreases |adds|
  {
    if adds != [] {
      AddedKeepsUnique(items, adds[0].0, adds[0].1);
      AddOnlyKeepsProductsUnique(Added(items, adds[0].0, adds[0].1), adds[1..]);
    }
  }

  /** `removeItem` keeps the other lines in their order: removing from a
      concatenation removes from each part. */
  lemma {:induction false} WithoutIdAppend(a: seq<CartItem>, b: seq<CartItem>, id: string)
    ensures WithoutId(a + b, id) == WithoutId(a, id) + WithoutId(b, id)
  {
    if a == [] {
      assert a + b == b;
    } else {
      var head: seq<CartItem> := if a[0].id != id then [a[0]] else [];
      assert (a + b)[0] == a[0];
      assert (a + b)[1..] == a[1..] + b;
      assert WithoutId(a + b, id) == head + WithoutId(a[1..] + b, id);
      assert WithoutId(a, id) == head + WithoutId(a[1..], id);
      WithoutIdAppend(a[1..], b, id);
      assert head + (WithoutId(a[1..], id) + WithoutId(b, id)) == (head + WithoutId(a[1..], id)) + WithoutId(b, id);
    }
  }

  /** `removeItem` drops exactly the lines with that id: a line is kept if
      and only if its id differs. */
  lemma {:induction false} WithoutIdMembers(items: seq<CartItem>, id: string)
    ensures forall x :: x in WithoutId(items, id) <==> x in items && x.id != id
  {
    if items != [] {
      var head: seq<CartItem> := if items[0].id != id then [items[0]] else [];
      WithoutIdMembers(items[1..], id);
      assert WithoutId(items, id) == head + WithoutId(items[1..], id);
      assert forall x :: x in items <==> x == items[0] || x in items[1..];
    }
  }

  /** A line whose id differs survives removal, and a list with no line of
      that id is left as it is. */
  lemma {:induction false} WithoutIdAbsent(items: seq<CartItem>, id: string)
    requires forall k :: 0 <= k < |items| ==> items[k].id != id
    ensures WithoutId(items, id) == items
  {
    if items != [] {
      WithoutIdAbsent(items[1..], id);
    }
  }

  /** A line whose product no later line has can go in front. */
  lemma ConsKeepsUnique(x: CartItem, r: seq<CartItem>)
    requires UniqueProducts(r)
    requires forall k :: 0 <= k < |r| ==> r[k].productId != x.productId
    ensures UniqueProducts([x] + r)
  {
    var s := [x] + r;
    forall i, j | 0 <= i < j < |s|
      ensures s[i].productId != s[j].productId
    {
      assert s[j] == r[j - 1];
      if i > 0 {
        assert s[i] == r[i - 1];
      }
    }
  }

  lemma UniqueTail(items: seq<CartItem>)
    requires UniqueProducts(items) && |items| >= 1
    ensures UniqueProducts(items[1..])
    ensures forall k :: 1 <= k < |items| ==> items[k].productId != items[0].productId
  {
    var rest := items[1..];
    forall i, j | 0 <= i < j < |rest|
      ensures rest[i].productId != rest[j].productId
    {
      assert rest[i] == items[i + 1] && rest[j] == items[j + 1];
    }
  }

  /** Removing lines never creates a duplicate product. */
  lemma {:induction false} WithoutIdKeepsUnique(items: seq<CartItem>, id: string)
    requires UniqueProducts(items)
    ensures UniqueProducts(WithoutId(items, id))
  {
    if items != [] {
      var rest := items[1..];
      UniqueTail(items);
      WithoutIdKeepsUnique(rest, id);
      var tail := WithoutId(rest, id);
      WithoutIdMembers(rest, id);
      if items[0].id != id {
        forall k | 0 <= k < |tail|
          ensures tail[k].productId != items[0].productId
        {
          assert tail[k] in rest;
          var m :| 0 <= m < |rest| && rest[m] == tail[k];
          assert items[m + 1] == tail[k];
        }
        ConsKeepsUnique(items[0], tail);
        assert WithoutId(items, id) == [items[0]] + tail;
      } else {
        assert WithoutId(items, id) == [] + tail;
        assert [] + tail == tail;
      }
    }
  }

  /** Changing quantities never creates a duplicate product. */
  lemma RequantifiedKeepsUnique(items: seq<CartItem>, id: string, quantity: int)
    requires UniqueProducts(items)
    ensures UniqueProducts(Requantified(items, id, quantity))
  {
    var r := Requantified(items, id, quantity);
    assert forall k :: 0 <= k < |r| ==> r[k].productId == items[k].productId;
  }

  /** `getTotalItems` after appending a line grows by that line's quantity. */
  lemma {:induction false} SumQuantitiesAppend(items: seq<CartItem>, x: CartItem)
    ensures SumQuantities(items + [x]) == SumQuantities(items) + x.quantity
  {
    if items != [] {
      assert (items + [x])[1..] == items[1..] + [x];
      SumQuantitiesAppend(items[1..], x);
    }
  }

  /** `getTotalPrice` after appending a line grows by price × quantity. */
  lemma {:induction false} SumPricesAppend(items: seq<CartItem>, x: CartItem)
    ensures SumPrices(items + [x]) == SumPrices(items) + x.price * x.quantity as real
  {
    if items != [] {
      assert (items + [x])[1..] == items[1..] + [x];
      SumPricesAppend(items[1..], x);
    }
  }

  /** No negative price and no negative quantity: the price total is not
      negative. */
  lemma {:induction false} SumPricesNonNegative(items: seq<CartItem>)
    ensures (forall k :: 0 <= k < |items| ==> items[k].price >= 0.0 && items[k].quantity >= 0) ==> SumPrices(items) >= 0.0
  {
    if items != [] && forall k :: 0 <= k < |items| ==> items[k].price >= 0.0 && items[k].quantity >= 0 {
      assert forall k :: 0 <= k < |items[1..]| ==> items[1..][k] == items[k + 1];
      SumPricesNonNegative(items[1..]);
      assert items[0].price * items[0].quantity as real >= 0.0;
    }
  }

  /** The totals split over a concatenation. */
  lemma {:induction false} SumQuantitiesConcat(a: seq<CartItem>, b: seq<CartItem>)
    ensures SumQuantities(a + b) == SumQuantities(a) + SumQuantities(b)
  {
    if a == [] {
      assert a + b == b;
    } else {
      assert (a + b)[1..] == a[1..] + b;
      SumQuantitiesConcat(a[1..], b);
    }
  }

  /** Re-adding a product that is already in a cart without duplicates
      raises the item count by at most one. */
  lemma {:induction false} BumpedTotalAtMostOneMore(items: seq<CartItem>, pid: string)
    requires UniqueProducts(items)
    ensures SumQuantities(Bumped(items, pid)) <= SumQuantities(items) + 1
  {
    if items != [] {
      var rest := items[1..];
      var b := Bumped(items, pid);
      assert b[1..] == Bumped(rest, pid);
      UniqueTail(items);
      if items[0].productId == pid {
        assert Bumped(rest, pid) == rest by {
          forall k | 0 <= k < |rest| ensures rest[k].productId != pid {
            assert rest[k] == items[k + 1];
          }
        }
      } else {
        BumpedTotalAtMostOneMore(rest, pid);
      }
    }
  }

  /** Quantities are not capped when a line is created, only when it is
      merged: a product with no stock enters the cart with quantity 1, and
      adding it again brings the line down to 0. */
  lemma ReAddOutOfStockDropsToZero(item: NewItem, id1: string, id2: string)
    requires item.quantity == 1 && item.stock == 0
    ensures Added([], item, id1) == [WithId(item, id1)]
    ensures Added(Added([], item, id1), item, id2) == [WithId(item, id1).(quantity := 0)]
  {
    var once := [WithId(item, id1)];
    assert once[0].productId == item.productId;
    assert InCart(once, item.productId);
  }
}
