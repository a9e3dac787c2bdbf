/**
 * The first, self-contained ordering system: an in-memory stand-in for the
 * database holding orders and the menu, and a till that numbers orders by
 * counting them and takes ordered units off the stock without a lower bound.
 */
module OldOrdering {
  import opened Common
  import opened Cart

  /** A stored order: the till's fields plus the id, time stamp and status the store adds. */
  datatype MockOrder = MockOrder(items: seq<Entry>, total: int, station: int, customerNumber: int,
                                 id: int, timestamp: int, status: string)

  /** The order object the till hands to the store. */
  datatype OrderRequest = OrderRequest(items: seq<Entry>, total: int, station: int, customerNumber: int)

  /** `s.find(x => key(x) === k)`, as a position: the first element with that key. */
  function FirstIndex<T, K(==)>(s: seq<T>, key: T -> K, k: K): (r: Option<nat>)
    ensures r.None? <==> forall i :: 0 <= i < |s| ==> key(s[i]) != k
    ensures r.Some? ==> r.value < |s| && key(s[r.value]) == k && forall i :: 0 <= i < r.value ==> key(s[i]) != k
  {
    if s == [] then None
    else if key(s[0]) == k then Some(0)
    else
      var j := FirstIndex(s[1..], key, k);
      if j.Some? then Some(j.value + 1) else None
  }

  /** Two sequences whose keys agree position by position have the same first index for every key. */
  lemma FirstIndexSameKeys<T, K>(a: seq<T>, b: seq<T>, key: T -> K, k: K)
    requires |a| == |b| && forall i :: 0 <= i < |a| ==> key(a[i]) == key(b[i])
    ensures FirstIndex(a, key, k) == FirstIndex(b, key, k)
  {
    var x, y := FirstIndex(a, key, k), FirstIndex(b, key, k);
    if x.Some? && y.Some? {
      assert !(x.value < y.value) && !(y.value < x.value);
    }
  }

  function OrderId(o: MockOrder): int {
    o.id
  }

  function ItemId(item: Item): string {
    item.id
  }

  /** `orders.find(o => o.id === orderId)`, as a position. */
  function OrderIndex(orders: seq<MockOrder>, id: int): Option<nat> {
    FirstIndex(orders, OrderId, id)
  }

  /** `menu.find(i => i.id === itemId)`, as a position. */
  function ItemIndex(menu: seq<Item>, id: string): Option<nat> {
    FirstIndex(menu, ItemId, id)
  }

  /** The store. Its menu objects are the ones the till's menu shows, so one list stands for both. */
  class MockFirebase {
    var orders: seq<MockOrder>
    var menu: seq<Item>

    constructor (menu: seq<Item>)
      ensures this.menu == menu && orders == []
    {
      this.menu := menu;
      orders := [];
    }

    /** `addOrder`: the order is stored last, with id and time `now` and status "pending". */
    method AddOrder(order: OrderRequest, now: int) returns (newOrder: MockOrder)
      modifies this
      ensures newOrder == MockOrder(order.items, order.total, order.station, order.customerNumber,
                                    now, now, "pending")
      ensures orders == old(orders) + [newOrder] && menu == old(menu)
    {
      newOrder := MockOrder(order.items, order.total, order.station, order.customerNumber, now, now, "pending");
      orders := orders + [newOrder];
    }

    /** `updateOrderStatus`: the first order with the id takes the status; an unknown id changes nothing. */
    method UpdateOrderStatus(orderId: int, status: string)
      modifies this
      ensures OrderIndex(old(orders), orderId).None? ==> orders == old(orders)
      ensures OrderIndex(old(orders), orderId).Some? ==>
        var k := OrderIndex(old(orders), orderId).value;
        orders == old(orders)[k := old(orders)[k].(status := status)]
      ensures menu == old(menu)
    {
      var k := OrderIndex(orders, orderId);
      if k.Some? {
        orders := orders[k.value := orders[k.value].(status := status)];
      }
    }

    /** `updateItemAvailability`: the first item with the id takes the quantity; an unknown id changes nothing. */
    method UpdateItemAvailability(itemId: string, newQty: int)
      modifies this
      ensures ItemIndex(old(menu), itemId).None? ==> menu == old(menu)
      ensures ItemIndex(old(menu), itemId).Some? ==>
        var k := ItemIndex(old(menu), itemId).value;
        menu == old(menu)[k := old(menu)[k].(available := newQty)]
      ensures orders == old(orders)
    {
      var k := ItemIndex(menu, itemId);
      if k.Some? {
        menu := menu[k.value := menu[k.value].(available := newQty)];
      }
    }
  }

  /** The menu after one entry's units are taken off its item, with no lower bound. */
  function TakeOff(menu: seq<Item>, e: Entry): (r: seq<Item>)
    ensures |r| == |menu|
  {
    var k := ItemIndex(menu, e.item.id);
    if k.Some? then menu[k.value := menu[k.value].(available := menu[k.value].available - e.quantity)]
    else menu
  }

  /** The menu after the loop over the cart. */
  function MenuAfter(menu: seq<Item>, cart: seq<Entry>): (r: seq<Item>)
    ensures |r| == |menu|
    decreases |cart|
  {
    if cart == [] then menu else TakeOff(MenuAfter(menu, cart[..|cart| - 1]), cart[|cart| - 1])
  }

  /** Taking off stock touches only `available`: ids, names, prices and lines stay. */
  lemma {:induction false} MenuAfterKeepsItems(menu: seq<Item>, cart: seq<Entry>)
    ensures forall i :: 0 <= i < |menu| ==>
      MenuAfter(menu, cart)[i] == menu[i].(available := MenuAfter(menu, cart)[i].available)
    decreases |cart|
  {
    if cart != [] {
      MenuAfterKeepsItems(menu, cart[..|cart| - 1]);
    }
  }

  /** One entry's units come off the first item with its id and off nothing else. */
  lemma TakeOffEffect(menu: seq<Item>, e: Entry, id: string)
    requires ItemIndex(menu, id).Some?
    ensures ItemIndex(TakeOff(menu, e), id) == ItemIndex(menu, id)
    ensures var k := ItemIndex(menu, id).value;
      TakeOff(menu, e)[k].available == menu[k].available - (if e.item.id == id then e.quantity else 0)
  {
    var k := ItemIndex(menu, id).value;
    var j := ItemIndex(menu, e.item.id);
    if j.Some? {
      ItemIndexOnSameIds(menu, TakeOff(menu, e), id);
      if e.item.id != id {
        assert menu[j.value].id != menu[k].id;
      }
    }
  }

  /**
   * The first menu item with an id loses exactly the units of that id in the
   * cart, even below zero; its position does not move.
   */
  lemma {:induction false} StockDecremented(menu: seq<Item>, cart: seq<Entry>, id: string)
    requires ItemIndex(menu, id).Some?
    ensures ItemIndex(MenuAfter(menu, cart), id) == ItemIndex(menu, id)
    ensures MenuAfter(menu, cart)[ItemIndex(menu, id).value].available ==
      menu[ItemIndex(menu, id).value].available - Quantity(cart, id)
    decreases |cart|
  {
    if cart != [] {
      var init := cart[..|cart| - 1];
      var last := cart[|cart| - 1];
      assert cart == init + [last];
      QuantityAppend(init, [last], id);
      assert [last][1..] == [];
      StockDecremented(menu, init, id);
      TakeOffEffect(MenuAfter(menu, init), last, id);
    }
  }

  lemma ItemIndexOnSameIds(a: seq<Item>, b: seq<Item>, id: string)
    requires |a| == |b| && forall i :: 0 <= i < |a| ==> a[i].id == b[i].id
    ensures ItemIndex(a, id) == ItemIndex(b, id)
  {
    FirstIndexSameKeys(a, b, ItemId, id);
  }

  /** Ordered numbers: the i-th stored order carries customer number i + 1. */
  predicate Numbered(orders: seq<MockOrder>) {
    forall i :: 0 <= i < |orders| ==> orders[i].customerNumber == i + 1
  }

  lemma MenuAfterStep(menu: seq<Item>, cart: seq<Entry>, i: nat)
    requires i < |cart|
    ensures MenuAfter(menu, cart[..i + 1]) == TakeOff(MenuAfter(menu, cart[..i]), cart[i])
  {
    assert cart[..i + 1][..i] == cart[..i];
  }

  lemma NumberedAppend(orders: seq<MockOrder>, o: MockOrder)
    requires o.customerNumber == |orders| + 1
    ensures Numbered(orders) ==> Numbered(orders + [o])
  {
  }

  /** The till of the old system, sharing the store's menu objects. */
  class OrderingApp {
    const db: MockFirebase
    const station: int
    var cart: seq<Entry>

    constructor (db: MockFirebase, station: int)
      ensures this.db == db && this.station == station && cart == []
    {
      this.db := db;
      this.station := station;
      cart := [];
    }

    method AddToCart(item: Item)
      modifies this
      ensures cart == Cart.AddToCart(old(cart), item)
    {
      cart := Cart.AddToCart(cart, item);
    }

    method RemoveFromCart(id: string)
      modifies this
      ensures cart == Cart.RemoveFromCart(old(cart), id)
    {
      cart := Cart.RemoveFromCart(cart, id);
    }

    /**
     * `processOrder`. An empty cart does nothing. Otherwise the order is
     * numbered one past the count of stored orders, each cart entry's units
     * are taken off its menu item, the order is stored as pending at time
     * `now` and the cart is emptied. Orders placed only this way stay
     * numbered 1, 2, 3, ...
     */
    method ProcessOrder(now: int) returns (placed: Option<MockOrder>)
      modifies this, db
      ensures old(cart) == [] ==>
        (placed.None? && cart == old(cart) && db.orders == old(db.orders) && db.menu == old(db.menu))
      ensures old(cart) != [] ==>
        placed.Some?
        && placed.value == MockOrder(old(cart), Total(old(cart)), station, |old(db.orders)| + 1,
                                     now, now, "pending")
        && db.orders == old(db.orders) + [placed.value]
        && db.menu == MenuAfter(old(db.menu), old(cart))
        && cart == []
      ensures Numbered(old(db.orders)) ==> Numbered(db.orders)
    {
      if cart == [] {
        return None;
      }
      var order := OrderRequest(cart, Total(cart), station, |db.orders| + 1);
      var i := 0;
      while i < |cart|
        invariant 0 <= i <= |cart|
        invariant db.menu == MenuAfter(old(db.menu), cart[..i])
        invariant cart == old(cart) && db.orders == old(db.orders)
      {
        TakeOffStock(cart[i]);
        MenuAfterStep(old(db.menu), cart, i);
        i := i + 1;
      }
      assert cart[..i] == cart;
      var newOrder := db.AddOrder(order, now);
      placed := Some(newOrder);
      cart := [];
      NumberedAppend(old(db.orders), newOrder);
    }

    /** One pass of the stock loop: the entry's units come off its menu item, when there is one. */
    method TakeOffStock(entry: Entry)
      modifies db
      ensures db.menu == TakeOff(old(db.menu), entry) && db.orders == old(db.orders)
    {
      var k := ItemIndex(db.menu, entry.item.id);
      if k.Some? {
        db.UpdateItemAvailability(entry.item.id, db.menu[k.value].available - entry.quantity);
      }
    }

    /** `completeOrder`: the order's status becomes "completed". */
    method CompleteOrder(orderId: int)
      modifies db
      ensures OrderIndex(old(db.orders), orderId).None? ==> db.orders == old(db.orders)
      ensures OrderIndex(old(db.orders), orderId).Some? ==>
        var k := OrderIndex(old(db.orders), orderId).value;
        db.orders == old(db.orders)[k := old(db.orders)[k].(status := "completed")]
      ensures db.menu == old(db.menu)
    {
      db.UpdateOrderStatus(orderId, "completed");
    }
  }

  /** Unlike the newer till, nothing stops stock going negative: two units ordered of one left. */
  lemma StockCanGoNegative()
    ensures var item := Item("1", "Pasta al pomodoro", 850, 1, "salato");
      var cart := AddToCart(AddToCart([], item), item);
      MenuAfter([item], cart)[0].available == -1
  {
    var item := Item("1", "Pasta al pomodoro", 850, 1, "salato");
    var once := AddToCart([], item);
    assert once == [Entry(item, 1)];
    var cart := AddToCart(once, item);
    assert cart == [Entry(item, 2)];
    assert cart[..0] == [];
    assert ItemIndex([item], "1") == Some(0);
  }

  // ---------------------------------------------------------------------
  // The kitchen screen

  /** `order.status === 'pending' && order.items.some(item => item.line === lineId)`. */
  predicate Queued(o: MockOrder, lineId: string) {
    o.status == "pending" && exists i :: 0 <= i < |o.items| && o.items[i].item.line == lineId
  }

  function KitchenOrders(orders: seq<MockOrder>, lineId: string): (r: seq<MockOrder>)
    ensures |r| <= |orders|
    ensures forall o :: o in r <==> o in orders && Queued(o, lineId)
  {
    if orders == [] then []
    else (if Queued(orders[0], lineId) then [orders[0]] else []) + KitchenOrders(orders[1..], lineId)
  }

  /** A completed order is on no kitchen screen. */
  lemma CompletedLeavesKitchen(orders: seq<MockOrder>, k: nat, lineId: string)
    requires k < |orders|
    ensures orders[k].(status := "completed") !in KitchenOrders(orders[k := orders[k].(status := "completed")], lineId)
  {
  }
}
