/**
 * The till of the web app: customer numbering from the order feed, the menu
 * view of the stock documents, placing an order (stock write-back, cart reset
 * and the next number) and the kitchen screen of one preparation line.
 */
module App {
  import opened Common
  import opened Cart

  // ---------------------------------------------------------------------
  // Orders as the order feed delivers them

  /** An order line: the five fields copied from a cart entry. */
  datatype OrderItem = OrderItem(id: string, name: string, quantity: int, price: int, preparationLine: string)

  /**
   * An order document. `items` is absent on malformed documents and
   * `customerNumber` on those written without one.
   */
  datatype Order = Order(items: Option<seq<OrderItem>>, station: int, customerNumber: Option<int>, status: string)

  /** `order.customerNumber || 0`. */
  function NumberOf(o: Order): int {
    if o.customerNumber.Some? then o.customerNumber.value else 0
  }

  /** `orders.reduce((max, o) => Math.max(max, o.customerNumber || 0), from)`. */
  function MaxNumber(from: int, orders: seq<Order>): (m: int)
    ensures m >= from
    ensures forall i :: 0 <= i < |orders| ==> NumberOf(orders[i]) <= m
    ensures m == from || exists i :: 0 <= i < |orders| && NumberOf(orders[i]) == m
    decreases |orders|
  {
    if orders == [] then from
    else MaxNumber(if NumberOf(orders[0]) > from then NumberOf(orders[0]) else from, orders[1..])
  }

  /**
   * The number the till offers next after an order snapshot: one more than
   * every number already used, and the least such value that is at least 1.
   */
  function NextCustomerNumber(orders: seq<Order>): (n: int)
    ensures n >= 1
    ensures forall i :: 0 <= i < |orders| ==> NumberOf(orders[i]) < n
    ensures n == 1 || exists i :: 0 <= i < |orders| && NumberOf(orders[i]) == n - 1
  {
    MaxNumber(0, orders) + 1
  }

  /** A new order raises the next number past its own. */
  lemma NextAfterNewOrder(orders: seq<Order>, o: Order)
    ensures NextCustomerNumber(orders + [o]) > NumberOf(o)
    ensures NextCustomerNumber(orders + [o]) >= NextCustomerNumber(orders)
  {
    var n := NextCustomerNumber(orders + [o]);
    assert (orders + [o])[|orders|] == o;
    forall i | 0 <= i < |orders|
      ensures NumberOf(orders[i]) < n
    {
      assert (orders + [o])[i] == orders[i];
    }
    if NextCustomerNumber(orders) > 1 {
      var i :| 0 <= i < |orders| && NumberOf(orders[i]) == NextCustomerNumber(orders) - 1;
    }
  }

  // ---------------------------------------------------------------------
  // The menu view of the stock

  /** A menu document; `currentQuantity` may be missing. */
  datatype MenuDoc = MenuDoc(id: string, name: string, price: int, currentQuantity: Option<int>, line: string)

  /** `{...doc, available: doc.currentQuantity || 0}`. */
  function MenuItemOf(d: MenuDoc): (item: Item)
    ensures item.id == d.id && item.name == d.name && item.price == d.price && item.line == d.line
    ensures d.currentQuantity.Some? ==> item.available == d.currentQuantity.value
    ensures d.currentQuantity.None? ==> item.available == 0
  {
    Item(d.id, d.name, d.price, if d.currentQuantity.Some? then d.currentQuantity.value else 0, d.line)
  }

  /** `menu.find(m => m.id === id)`. */
  function FindMenu(menu: seq<Item>, id: string): (r: Option<Item>)
    ensures r.None? <==> forall i :: 0 <= i < |menu| ==> menu[i].id != id
    ensures r.Some? ==> r.value in menu && r.value.id == id
  {
    if menu == [] then None
    else if menu[0].id == id then Some(menu[0])
    else FindMenu(menu[1..], id)
  }

  /** `Math.max(0, available - quantity)`. */
  function Remaining(available: int, quantity: int): (q: int)
    ensures q >= 0 && q >= available - quantity
    ensures q == 0 || q == available - quantity
  {
    if available - quantity > 0 then available - quantity else 0
  }

  // ---------------------------------------------------------------------
  // Placing an order

  /** The order document `processOrder` asks the store to create. */
  datatype OrderData = OrderData(items: seq<OrderItem>, total: int, station: int, customerNumber: int, status: string)

  function OrderItemOf(e: Entry): OrderItem {
    OrderItem(e.item.id, e.item.name, e.quantity, e.item.price, e.item.line)
  }

  function OrderItems(cart: seq<Entry>): (items: seq<OrderItem>)
    ensures |items| == |cart|
    ensures forall i :: 0 <= i < |cart| ==> items[i] == OrderItemOf(cart[i])
  {
    if cart == [] then [] else [OrderItemOf(cart[0])] + OrderItems(cart[1..])
  }

  /** The order built from the cart: its lines, their total, the station and number, pending. */
  function OrderOf(cart: seq<Entry>, station: int, customerNumber: int): (d: OrderData)
    ensures |d.items| == |cart|
    ensures forall i :: 0 <= i < |cart| ==>
      d.items[i].id == cart[i].item.id && d.items[i].quantity == cart[i].quantity
      && d.items[i].price == cart[i].item.price && d.items[i].preparationLine == cart[i].item.line
    ensures d.total == Total(cart) && d.status == "pending"
    ensures d.station == station && d.customerNumber == customerNumber
  {
    OrderData(OrderItems(cart), Total(cart), station, customerNumber, "pending")
  }

  /**
   * The stock documents after the loop over `cart`: for each entry whose id the
   * menu knows, `updateMenuItem` writes the clamped remainder. A write to a
   * document that does not exist fails and is swallowed.
   */
  function StockAfter(stock: map<string, int>, menu: seq<Item>, cart: seq<Entry>): (r: map<string, int>)
    ensures r.Keys == stock.Keys
    decreases |cart|
  {
    if cart == [] then stock
    else StockWrite(StockAfter(stock, menu, cart[..|cart| - 1]), menu, cart[|cart| - 1])
  }

  /** One pass of the stock loop: the entry's document takes the clamped remainder, if the menu and the stock know it. */
  function StockWrite(before: map<string, int>, menu: seq<Item>, e: Entry): (r: map<string, int>)
    ensures r.Keys == before.Keys
  {
    var found := FindMenu(menu, e.item.id);
    if found.Some? && e.item.id in before then before[e.item.id := Remaining(found.value.available, e.quantity)]
    else before
  }

  lemma StockAfterStep(stock: map<string, int>, menu: seq<Item>, cart: seq<Entry>, i: nat)
    requires i < |cart|
    ensures StockAfter(stock, menu, cart[..i + 1]) == StockWrite(StockAfter(stock, menu, cart[..i]), menu, cart[i])
  {
    assert cart[..i + 1][..i] == cart[..i];
  }

  /** No stock document is ever written below zero; documents the cart does not name keep their value. */
  lemma {:induction false} StockNeverNegative(stock: map<string, int>, menu: seq<Item>, cart: seq<Entry>, id: string)
    requires id in stock
    ensures StockAfter(stock, menu, cart)[id] >= 0 || StockAfter(stock, menu, cart)[id] == stock[id]
    ensures Find(cart, id).None? ==> StockAfter(stock, menu, cart)[id] == stock[id]
    decreases |cart|
  {
    if cart != [] {
      var init := cart[..|cart| - 1];
      StockNeverNegative(stock, menu, init, id);
      if Find(cart, id).None? {
        assert Find(init, id).None? by {
          forall i | 0 <= i < |init| ensures init[i].item.id != id {
            assert init[i] == cart[i];
          }
        }
        assert cart[|cart| - 1].item.id != id;
      }
    }
  }

  /**
   * For a well-formed cart, an ordered item the menu knows ends at its menu
   * availability less the ordered units, clamped at zero.
   */
  lemma {:induction false} StockOfOrderedItem(stock: map<string, int>, menu: seq<Item>, cart: seq<Entry>, id: string)
    requires WellFormed(cart) && id in stock
    requires Find(cart, id).Some? && FindMenu(menu, id).Some?
    ensures StockAfter(stock, menu, cart)[id] ==
      Remaining(FindMenu(menu, id).value.available, Quantity(cart, id))
    decreases |cart|
  {
    var init := cart[..|cart| - 1];
    var last := cart[|cart| - 1];
    WellFormedSnoc(cart, id);
    StockLast(stock, menu, cart, id);
    if last.item.id == id {
      QuantityAbsent(init, id);
    } else {
      StockOfOrderedItem(stock, menu, init, id);
    }
  }

  lemma StockLast(stock: map<string, int>, menu: seq<Item>, cart: seq<Entry>, id: string)
    requires cart != [] && id in stock && FindMenu(menu, id).Some?
    ensures var last := cart[|cart| - 1];
      StockAfter(stock, menu, cart)[id] ==
        if last.item.id == id then Remaining(FindMenu(menu, id).value.available, last.quantity)
        else StockAfter(stock, menu, cart[..|cart| - 1])[id]
  {
    var before := StockAfter(stock, menu, cart[..|cart| - 1]);
    assert id in before;
  }

  /** After the store's snapshot comes back, the menu shows the written stock. */
  lemma MenuShowsStock(d: MenuDoc, q: int)
    requires q >= 0
    ensures MenuItemOf(d.(currentQuantity := Some(q))).available == q
  {
  }

  /** The till's state: the cart, the number to use next and the stock documents. */
  class Till {
    const station: int
    var cart: seq<Entry>
    var customerNumber: int
    var menu: seq<Item>
    var stock: map<string, int>

    constructor (station: int, menu: seq<Item>, stock: map<string, int>)
      ensures this.station == station && this.menu == menu && this.stock == stock
      ensures cart == [] && customerNumber == 1
    {
      this.station := station;
      this.menu := menu;
      this.stock := stock;
      cart := [];
      customerNumber := 1;
    }

    /** A new order snapshot moves the number on past every number in it. */
    method OnOrders(orders: seq<Order>)
      modifies this
      ensures customerNumber == NextCustomerNumber(orders)
      ensures cart == old(cart) && menu == old(menu) && stock == old(stock)
    {
      customerNumber := MaxNumber(0, orders) + 1;
    }

    /** A new menu snapshot replaces the menu with the documents' view. */
    method OnMenu(docs: seq<MenuDoc>)
      modifies this
      ensures |menu| == |docs| && forall i :: 0 <= i < |docs| ==> menu[i] == MenuItemOf(docs[i])
      ensures cart == old(cart) && customerNumber == old(customerNumber) && stock == old(stock)
    {
      menu := seq(|docs|, i requires 0 <= i < |docs| => MenuItemOf(docs[i]));
    }

    method AddToCart(item: Item)
      modifies this
      ensures cart == Cart.AddToCart(old(cart), item)
      ensures customerNumber == old(customerNumber) && menu == old(menu) && stock == old(stock)
    {
      cart := Cart.AddToCart(cart, item);
    }

    method RemoveFromCart(id: string)
      modifies this
      ensures cart == Cart.RemoveFromCart(old(cart), id)
      ensures customerNumber == old(customerNumber) && menu == old(menu) && stock == old(stock)
    {
      cart := Cart.RemoveFromCart(cart, id);
    }

    /**
     * `processOrder`. An empty cart does nothing. Otherwise the order is sent
     * to `createOrder`; when it answers with an id, every cart entry the menu
     * knows has its stock written back as the clamped remainder, the cart is
     * emptied and the number advances by one. Without an id nothing changes.
     */
    method ProcessOrder(createOrder: OrderData -> Option<string>) returns (sent: Option<OrderData>)
      modifies this
      ensures old(cart) == [] ==>
        (sent.None? && cart == old(cart) && customerNumber == old(customerNumber) && stock == old(stock))
      ensures old(cart) != [] ==> sent == Some(OrderOf(old(cart), station, old(customerNumber)))
      ensures (sent.Some? && createOrder(sent.value).Some? && createOrder(sent.value).value != "") ==>
        cart == [] && customerNumber == old(customerNumber) + 1
        && stock == StockAfter(old(stock), old(menu), old(cart))
      ensures (sent.Some? && (createOrder(sent.value).None? || createOrder(sent.value).value == "")) ==>
        cart == old(cart) && customerNumber == old(customerNumber) && stock == old(stock)
      ensures menu == old(menu)
    {
      if cart == [] {
        return None;
      }
      var data := OrderOf(cart, station, customerNumber);
      sent := Some(data);
      var orderId := createOrder(data);
      if orderId.Some? && orderId.value != "" {
        var i := 0;
        while i < |cart|
          invariant 0 <= i <= |cart|
          invariant stock == StockAfter(old(stock), menu, cart[..i])
          invariant cart == old(cart) && menu == old(menu) && customerNumber == old(customerNumber)
        {
          var entry := cart[i];
          var menuItem := FindMenu(menu, entry.item.id);
          if menuItem.Some? && entry.item.id in stock {
            stock := stock[entry.item.id := Remaining(menuItem.value.available, entry.quantity)];
          }
          StockAfterStep(old(stock), menu, cart, i);
          i := i + 1;
        }
        assert cart[..i] == cart;
        cart := [];
        customerNumber := customerNumber + 1;
      }
    }
  }

  // ---------------------------------------------------------------------
  // The kitchen screen

  /** An item of the order prepared on the line. */
  predicate OnLine(item: OrderItem, lineId: string) {
    item.preparationLine == lineId
  }

  /** `order.status === 'pending' && order.items && order.items.some(onLine)`. */
  predicate Queued(o: Order, lineId: string) {
    o.status == "pending" && o.items.Some?
    && exists i :: 0 <= i < |o.items.value| && OnLine(o.items.value[i], lineId)
  }

  /** A card of the kitchen screen: the order and the items prepared on the line. */
  datatype Card = Card(order: Order, items: seq<OrderItem>)

  function LineItems(items: seq<OrderItem>, lineId: string): (r: seq<OrderItem>)
    ensures forall x :: x in r <==> x in items && OnLine(x, lineId)
  {
    if items == [] then []
    else (if OnLine(items[0], lineId) then [items[0]] else []) + LineItems(items[1..], lineId)
  }

  function Cards(orders: seq<Order>, lineId: string): (r: seq<Card>)
    ensures forall c :: c in r ==> Queued(c.order, lineId)
    ensures forall c :: c in r ==> c.order in orders && c.order.items.Some? && c.items == LineItems(c.order.items.value, lineId)
    ensures forall o :: o in orders && Queued(o, lineId) ==> exists c :: c in r && c.order == o
  {
    if orders == [] then []
    else
      var o := orders[0];
      var rest := Cards(orders[1..], lineId);
      if Queued(o, lineId) then [Card(o, LineItems(o.items.value, lineId))] + rest else rest
  }

  /**
   * The kitchen view of a line: "line not found" for an unknown line id,
   * otherwise one card per queued order, in feed order.
   */
  function KitchenView(lines: seq<string>, orders: seq<Order>, lineId: string): (r: Option<seq<Card>>)
    ensures r.None? <==> lineId !in lines
    ensures r.Some? ==> forall c :: c in r.value ==> c.order in orders && Queued(c.order, lineId)
  {
    if lineId in lines then Some(Cards(orders, lineId)) else None
  }

  /**
   * The screen lists exactly the pending orders with an item on the line, and
   * each card shows exactly that order's items for the line, none lost.
   */
  lemma KitchenShowsQueue(lines: seq<string>, orders: seq<Order>, lineId: string, o: Order)
    requires lineId in lines
    ensures (exists c :: c in KitchenView(lines, orders, lineId).value && c.order == o)
      <==> o in orders && Queued(o, lineId)
    ensures forall c :: c in KitchenView(lines, orders, lineId).value ==>
      forall x :: x in c.items <==> x in c.order.items.value && x.preparationLine == lineId
  {
    var r := KitchenView(lines, orders, lineId).value;
    if o in orders && Queued(o, lineId) {
      var c :| c in r && c.order == o;
    }
  }

  /** The cards follow the feed: splitting the feed splits the screen. */
  lemma {:induction false} CardsAppend(a: seq<Order>, b: seq<Order>, lineId: string)
    ensures Cards(a + b, lineId) == Cards(a, lineId) + Cards(b, lineId)
  {
    if a == [] {
      assert a + b == b;
    } else {
      assert (a + b)[1..] == a[1..] + b;
      CardsAppend(a[1..], b, lineId);
    }
  }
}
