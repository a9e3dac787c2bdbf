/**
 * The web app's FirestoreService (src/services/firestoreService.js): the
 * order document it creates, the query its order monitor builds, and the
 * registry of listeners it keeps (a JavaScript Map, so in insertion order).
 * Firestore's answers (new document ids, generated item ids, the clock,
 * write failures, the listeners' unsubscribe functions) are parameters.
 */
module FirestoreService {
  import opened Common
  import PrintStation

  /** An item as the app hands it over; `preparationLine` is one of the fields that is not stored. */
  datatype NewItem = NewItem(id: Option<string>, name: string, quantity: int, price: int, preparationLine: Option<string>)

  datatype StoredItem = StoredItem(id: string, name: string, quantity: int, price: int)

  datatype OrderData = OrderData(customerNumber: int, station: string, items: seq<NewItem>, total: int)

  /** The document `addOrder` writes. */
  datatype StoredOrder = StoredOrder(
    customerNumber: int,
    station: string,
    items: seq<StoredItem>,
    total: int,
    timestamp: int,
    printStatus: PrintStation.PrintStatus,
    createdBy: string,
    createdAt: int,
    updatedAt: int)

  /** The print status of a new order: not printed, no attempts, nothing recorded. */
  function InitialPrintStatus(): (s: PrintStation.PrintStatus)
    ensures !s.printed && s.attempts == Some(0)
    ensures s.printedAt.None? && s.printedBy.None? && s.lastAttempt.None? && s.error.None?
  {
    PrintStation.PrintStatus(false, None, None, Some(0), None, None)
  }

  /** `item.id || generated`. */
  function ItemId(item: NewItem, generated: string): (id: string)
    ensures item.id.Some? && item.id.value != [] ==> id == item.id.value
    ensures item.id.None? || item.id.value == [] ==> id == generated
  {
    if item.id.Some? && item.id.value != [] then item.id.value else generated
  }

  /** The stored items: id, name, quantity and price of each, in order; `generated[i]` is the id made for item i. */
  function StoredItems(items: seq<NewItem>, generated: seq<string>): (r: seq<StoredItem>)
    requires |generated| == |items|
    ensures |r| == |items|
    ensures forall i :: 0 <= i < |items| ==>
      r[i] == StoredItem(ItemId(items[i], generated[i]), items[i].name, items[i].quantity, items[i].price)
  {
    if items == [] then []
    else [StoredItem(ItemId(items[0], generated[0]), items[0].name, items[0].quantity, items[0].price)]
         + StoredItems(items[1..], generated[1..])
  }

  /** The document of `addOrder(orderData)`, written at server time `now`. */
  function FirestoreOrder(data: OrderData, generated: seq<string>, now: int): (o: StoredOrder)
    requires |generated| == |data.items|
    ensures o.customerNumber == data.customerNumber && o.station == data.station && o.total == data.total
    ensures o.items == StoredItems(data.items, generated)
    ensures o.printStatus == InitialPrintStatus() && o.createdBy == "web-app"
    ensures o.timestamp == now && o.createdAt == now && o.updatedAt == now
  {
    StoredOrder(data.customerNumber, data.station, StoredItems(data.items, generated), data.total,
                now, InitialPrintStatus(), "web-app", now, now)
  }

  /** The order document as the print station reads it. */
  function AsStationDoc(o: StoredOrder): PrintStation.OrderDoc {
    PrintStation.OrderDoc(None, o.customerNumber, o.station, o.total, Some(o.printStatus), Some(o.updatedAt))
  }

  /** A new order is picked up by the print station when it arrives, and its first attempt is recorded as attempt 1. */
  lemma NewOrderIsPrinted(data: OrderData, generated: seq<string>, now: int, docId: string,
                          success: bool, error: Option<string>, stationId: string, later: int)
    requires |generated| == |data.items|
    ensures var doc := AsStationDoc(FirestoreOrder(data, generated, now));
      && PrintStation.Selected(PrintStation.Change(PrintStation.Added, docId, doc))
      && PrintStation.OrderAttempts(Some(Some(doc))) == 0
      && PrintStation.WithAttempt(doc, success, error, stationId, later).printStatus.value.attempts == Some(1)
  {
  }

  /** What `addOrder` resolves with. */
  datatype AddResult = AddedOrder(orderId: string, order: StoredOrder) | AddFailed(error: string)

  /** `addOrder`: `write` is Firestore's answer, the new document id or the error message. */
  function AddOrder(data: OrderData, generated: seq<string>, now: int, write: Result<string, string>): (r: AddResult)
    requires |generated| == |data.items|
    ensures r.AddedOrder? <==> write.Ok?
    ensures write.Ok? ==> r == AddedOrder(write.value, FirestoreOrder(data, generated, now))
    ensures write.Err? ==> r.error == write.error
  {
    match write
    case Ok(id) => AddedOrder(id, FirestoreOrder(data, generated, now))
    case Err(message) => AddFailed(message)
  }

  // ---------------------------------------------------------------------
  // monitorOrders

  /** The `filters` of `monitorOrders`; None is an absent property. */
  datatype Filters = Filters(station: Option<string>, printed: Option<bool>, orderDirection: Option<string>)

  datatype Clause = WhereStation(station: string) | WherePrinted(printed: bool) | OrderByTimestamp(direction: string)

  /** The query clauses, in the order `monitorOrders` adds them. */
  function QueryClauses(f: Filters): (q: seq<Clause>)
    ensures |q| >= 1 && q[|q| - 1].OrderByTimestamp?
    ensures q[|q| - 1].direction == (if f.orderDirection.Some? && f.orderDirection.value != [] then f.orderDirection.value else "desc")
  {
    (if f.station.Some? && f.station.value != [] then [WhereStation(f.station.value)] else [])
    + (if f.printed.Some? then [WherePrinted(f.printed.value)] else [])
    + [OrderByTimestamp(if f.orderDirection.Some? && f.orderDirection.value != [] then f.orderDirection.value else "desc")]
  }

  /** An order passes a clause; ordering clauses pass everything. */
  predicate Passes(c: Clause, o: StoredOrder) {
    match c
    case WhereStation(s) => o.station == s
    case WherePrinted(b) => o.printStatus.printed == b
    case OrderByTimestamp(_) => true
  }

  predicate PassesAll(q: seq<Clause>, o: StoredOrder) {
    forall i :: 0 <= i < |q| ==> Passes(q[i], o)
  }

  /** The query selects exactly the orders of the station asked for (when one is given) with the printed flag asked for (when given). */
  lemma QuerySelects(f: Filters, o: StoredOrder)
    ensures PassesAll(QueryClauses(f), o) <==>
      && (f.station.Some? && f.station.value != [] ==> o.station == f.station.value)
      && (f.printed.Some? ==> o.printStatus.printed == f.printed.value)
  {
    var q := QueryClauses(f);
    var a := if f.station.Some? && f.station.value != [] then [WhereStation(f.station.value)] else [];
    var b := if f.printed.Some? then [WherePrinted(f.printed.value)] else [];
    assert q == a + b + [q[|q| - 1]];
    if f.station.Some? && f.station.value != [] {
      assert q[0] == WhereStation(f.station.value);
    }
    if f.printed.Some? {
      assert q[|a|] == WherePrinted(f.printed.value);
    }
    if !(PassesAll(q, o)) {
      var i :| 0 <= i < |q| && !Passes(q[i], o);
    }
  }

  // ---------------------------------------------------------------------
  // The listener registry

  /** One entry of `unsubscribeCallbacks`: its key and the unsubscribe function (by identity). */
  datatype Entry = Entry(key: string, listener: nat)

  predicate DistinctKeys(entries: seq<Entry>) {
    forall i, j :: 0 <= i < j < |entries| ==> entries[i].key != entries[j].key
  }

  function Find(entries: seq<Entry>, key: string): (r: Option<nat>)
    ensures r.Some? <==> exists i :: 0 <= i < |entries| && entries[i].key == key
  {
    if entries == [] then None
    else if entries[0].key == key then Some(entries[0].listener)
    else Find(entries[1..], key)
  }

  /** `map.set(key, listener)`: a new key goes last, an existing one keeps its place. */
  function Put(entries: seq<Entry>, key: string, listener: nat): (r: seq<Entry>)
    requires DistinctKeys(entries)
    ensures DistinctKeys(r)
    ensures Find(r, key) == Some(listener)
    ensures forall k :: k != key ==> Find(r, k) == Find(entries, k)
    ensures |r| == |entries| + (if Find(entries, key).Some? then 0 else 1)
  {
    if entries == [] then [Entry(key, listener)]
    else if entries[0].key == key then
      assert forall k :: k != key ==> Find(entries, k) == Find(entries[1..], k);
      [Entry(key, listener)] + entries[1..]
    else
      var rest := Put(entries[1..], key, listener);
      assert Find(entries[1..], entries[0].key).None?;
      assert Find(rest, entries[0].key).None?;
      assert ([entries[0]] + rest)[1..] == rest;
      [entries[0]] + rest
  }

  /** `map.delete(key)`. */
  function Remove(entries: seq<Entry>, key: string): (r: seq<Entry>)
    requires DistinctKeys(entries)
    ensures DistinctKeys(r)
    ensures Find(r, key).None?
    ensures forall k :: k != key ==> Find(r, k) == Find(entries, k)
  {
    if entries == [] then []
    else if entries[0].key == key then
      assert forall k :: Find(entries[1..], k).Some? ==> k != entries[0].key;
      entries[1..]
    else
      var rest := Remove(entries[1..], key);
      assert Find(entries[1..], entries[0].key).None?;
      assert Find(rest, entries[0].key).None?;
      assert ([entries[0]] + rest)[1..] == rest;
      [entries[0]] + rest
  }

  /** The listeners of the registry, in insertion order. */
  function Listeners(entries: seq<Entry>): (ls: seq<nat>)
    ensures |ls| == |entries|
    ensures forall i :: 0 <= i < |entries| ==> ls[i] == entries[i].listener
  {
    if entries == [] then [] else [entries[0].listener] + Listeners(entries[1..])
  }

  /** Registering a listener under a key that is already used forgets the earlier listener without cancelling it. */
  lemma OverwriteForgets(entries: seq<Entry>, key: string, earlier: nat, listener: nat)
    requires DistinctKeys(entries) && Find(entries, key) == Some(earlier) && earlier != listener
    requires forall i :: 0 <= i < |entries| && entries[i].key != key ==> entries[i].listener != earlier
    ensures earlier !in Listeners(Put(entries, key, listener))
  {
    var r := Put(entries, key, listener);
    if earlier in Listeners(r) {
      var i :| 0 <= i < |r| && Listeners(r)[i] == earlier;
      if r[i].key == key {
        assert exists j :: 0 <= j < |r| && r[j].key == key;
        FindUnique(r, key, i);
      } else {
        FindUnique(r, r[i].key, i);
        assert Find(entries, r[i].key) == Some(earlier);
        FindIndex(entries, r[i].key);
      }
    }
  }

  lemma {:induction false} FindUnique(entries: seq<Entry>, key: string, i: nat)
    requires DistinctKeys(entries) && i < |entries| && entries[i].key == key
    ensures Find(entries, key) == Some(entries[i].listener)
  {
    if i > 0 {
      FindUnique(entries[1..], key, i - 1);
    }
  }

  lemma {:induction false} FindIndex(entries: seq<Entry>, key: string)
    requires Find(entries, key).Some?
    ensures exists i :: 0 <= i < |entries| && entries[i].key == key && entries[i].listener == Find(entries, key).value
  {
    if entries[0].key != key {
      FindIndex(entries[1..], key);
      var i :| 0 <= i < |entries[1..]| && entries[1..][i].key == key && entries[1..][i].listener == Find(entries, key).value;
      assert entries[i + 1] == entries[1..][i];
    }
  }

  /** The key of `monitorOrderPrintStatus(orderId)`. */
  function OrderKey(orderId: string): string {
    "order_" + orderId
  }

  /** The key of `monitorOrders(filters)`, from the JSON text of the filters. */
  function OrdersKey(filtersJson: string): string {
    "orders_" + filtersJson
  }

  const STATIONS_KEY := "printStations"

  /** Keys of different kinds never collide, and order keys of different orders differ. */
  lemma KeysApart(orderId: string, other: string, filtersJson: string)
    ensures OrderKey(orderId) != OrdersKey(filtersJson)
    ensures OrderKey(orderId) != STATIONS_KEY && OrdersKey(filtersJson) != STATIONS_KEY
    ensures OrderKey(orderId) == OrderKey(other) ==> orderId == other
  {
    assert OrderKey(orderId)[5] == '_' && OrdersKey(filtersJson)[5] == 's';
    assert OrderKey(orderId)[..6] == "order_";
    assert OrdersKey(filtersJson)[..6] == "orders";
    if OrderKey(orderId) == OrderKey(other) {
      assert orderId == OrderKey(orderId)[6..];
      assert other == OrderKey(other)[6..];
    }
  }

  class Service {
    var entries: seq<Entry>       // `unsubscribeCallbacks`
    var cancelled: seq<nat>       // the unsubscribe functions called, in order

    predicate Valid()
      reads this
    {
      DistinctKeys(entries)
    }

    constructor ()
      ensures Valid() && entries == [] && cancelled == []
    {
      entries := [];
      cancelled := [];
    }

    /** `monitorOrderPrintStatus(orderId, ...)`: `listener` is the unsubscribe function Firestore returned. */
    method MonitorOrderPrintStatus(orderId: string, listener: nat) returns (unsubscribe: nat)
      requires Valid()
      modifies this
      ensures Valid() && unsubscribe == listener
      ensures entries == Put(old(entries), OrderKey(orderId), listener) && cancelled == old(cancelled)
    {
      entries := Put(entries, OrderKey(orderId), listener);
      unsubscribe := listener;
    }

    /** `monitorOrders(filters, ...)`, registered under the JSON text of the filters. */
    method MonitorOrders(filtersJson: string, listener: nat) returns (unsubscribe: nat)
      requires Valid()
      modifies this
      ensures Valid() && unsubscribe == listener
      ensures entries == Put(old(entries), OrdersKey(filtersJson), listener) && cancelled == old(cancelled)
    {
      entries := Put(entries, OrdersKey(filtersJson), listener);
      unsubscribe := listener;
    }

    /** `monitorPrintStations(...)`. */
    method MonitorPrintStations(listener: nat) returns (unsubscribe: nat)
      requires Valid()
      modifies this
      ensures Valid() && unsubscribe == listener
      ensures entries == Put(old(entries), STATIONS_KEY, listener) && cancelled == old(cancelled)
    {
      entries := Put(entries, STATIONS_KEY, listener);
      unsubscribe := listener;
    }

    /** `unsubscribe(key)`: calls and drops that entry only; nothing for an unknown key. */
    method Unsubscribe(key: string)
      requires Valid()
      modifies this
      ensures Valid()
      ensures Find(old(entries), key).None? ==> entries == old(entries) && cancelled == old(cancelled)
      ensures Find(old(entries), key).Some? ==>
        entries == Remove(old(entries), key) && cancelled == old(cancelled) + [Find(old(entries), key).value]
    {
      var unsubscribe := Find(entries, key);
      if unsubscribe.Some? {
        cancelled := cancelled + [unsubscribe.value];
        entries := Remove(entries, key);
      }
    }

    /** `unsubscribeAll()`: calls every entry in insertion order, then clears the map. */
    method UnsubscribeAll()
      requires Valid()
      modifies this
      ensures Valid() && entries == []
      ensures cancelled == old(cancelled) + Listeners(old(entries))
    {
      var i := 0;
      while i < |entries|
        invariant 0 <= i <= |entries|
        invariant entries == old(entries)
        invariant cancelled == old(cancelled) + Listeners(entries[..i])
      {
        assert Listeners(entries[..i + 1]) == Listeners(entries[..i]) + [entries[i].listener] by {
          ListenersAppend(entries[..i], entries[i]);
          assert entries[..i + 1] == entries[..i] + [entries[i]];
        }
        cancelled := cancelled + [entries[i].listener];
        i := i + 1;
      }
      assert entries[..i] == entries;
      entries := [];
    }
  }

  lemma ListenersAppend(entries: seq<Entry>, e: Entry)
    ensures Listeners(entries + [e]) == Listeners(entries) + [e.listener]
  {
  }

  /** The module-level `firestoreServiceInstance`. */
  class Singleton {
    var instance: Service?

    constructor ()
      ensures instance == null
    {
      instance := null;
    }

    /** `getFirestoreService()`: creates the service on the first call and returns that same object ever after. */
    method GetFirestoreService() returns (s: Service)
      modifies this
      ensures old(instance) != null ==> s == old(instance)
      ensures old(instance) == null ==> fresh(s) && s.Valid() && s.entries == [] && s.cancelled == []
      ensures instance == s
    {
      if instance == null {
        instance := new Service();
      }
      s := instance;
    }
  }
}
