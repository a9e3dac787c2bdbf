/**
 * The print station of print-station/src/print-station.js: a listener on the
 * orders of one station that prints every new, not yet printed order and
 * writes the outcome back. Firestore is two maps held by the station object
 * (the `orders` and `printStations` collections as this station sees them);
 * the printer's answer and the server clock are parameters.
 */
module PrintStation {
  import opened Common
  import PrintManager

  /** The `printStatus` record of an order; a missing field is None. */
  datatype PrintStatus = PrintStatus(
    printed: bool,
    printedAt: Option<int>,
    printedBy: Option<string>,
    attempts: Option<int>,
    lastAttempt: Option<int>,
    error: Option<string>)

  /** An order document; `idField` is an `id` stored inside the document itself. */
  datatype OrderDoc = OrderDoc(
    idField: Option<string>,
    customerNumber: int,
    station: string,
    total: int,
    printStatus: Option<PrintStatus>,
    updatedAt: Option<int>)

  datatype Stats = Stats(totalPrinted: Option<int>, todayPrinted: Option<int>, lastPrintedAt: Option<int>)

  /** A `printStations` document; upserts with `merge` may create one with few fields. */
  datatype StationDoc = StationDoc(
    id: Option<string>,
    name: Option<string>,
    printerName: Option<string>,
    tempDir: Option<string>,
    online: Option<bool>,
    lastPing: Option<int>,
    stats: Option<Stats>)

  datatype ChangeKind = Added | Modified | Removed

  /** One entry of `snapshot.docChanges()`. */
  datatype Change = Change(kind: ChangeKind, docId: string, data: OrderDoc)

  /** What `printRawContent` answered for one order. */
  datatype PrintOutcome = Printed | NotPrinted(error: Option<string>)

  /** The database as the station sees it, and the ids it sent to the printer, in order. */
  datatype Db = Db(orders: map<string, OrderDoc>, stations: map<string, StationDoc>, printJobs: seq<string>)

  /** The station's lifecycle actions, in the order they happen. */
  datatype Step =
    | Registered
    | Subscribed
    | HeartbeatStarted
    | Activated
    | Deactivated
    | Unsubscribed
    | HeartbeatStopped
    | MarkedOffline
    | RetryScheduled

  /** `value || fallback` for an optional string. */
  function OrDefault(value: Option<string>, fallback: string): (r: string)
    ensures r == fallback <==> value.None? || value.value == [] || value.value == fallback
  {
    if value.Some? && value.value != [] then value.value else fallback
  }

  /** `value || 0` for an optional number. */
  function OrZero(value: Option<int>): (r: int)
    ensures r == 0 <==> value.None? || value.value == 0
    ensures value.Some? ==> r == value.value
  {
    if value.Some? then value.value else 0
  }

  // ---------------------------------------------------------------------
  // The snapshot filter

  /** `{ id: change.doc.id, ...change.doc.data() }`: an `id` in the data wins over the document id. */
  function OrderId(change: Change): string {
    match change.data.idField
    case Some(id) => id
    case None => change.docId
  }

  predicate AlreadyPrinted(order: OrderDoc) {
    order.printStatus.Some? && order.printStatus.value.printed
  }

  /** Only additions whose order is not marked printed are processed. */
  predicate Selected(change: Change) {
    change.kind == Added && !AlreadyPrinted(change.data)
  }

  /** The ids the handler sends to the printer, in delivery order. */
  function SelectedIds(changes: seq<Change>): (ids: seq<string>)
    ensures |ids| <= |changes|
  {
    if changes == [] then []
    else
      var last := changes[|changes| - 1];
      SelectedIds(changes[..|changes| - 1]) + (if Selected(last) then [OrderId(last)] else [])
  }

  // ---------------------------------------------------------------------
  // The completion writer

  /** The message `processOrder` records: `result.error || 'Stampa fallita'`, none on success. */
  function ErrorOf(outcome: PrintOutcome): (e: Option<string>)
    ensures e.None? <==> outcome.Printed?
    ensures e.Some? ==> e.value != []
  {
    match outcome
    case Printed => None
    case NotPrinted(error) => Some(OrDefault(error, "Stampa fallita"))
  }

  /** `getOrderAttempts`: the read is None when it failed, Some(None) when the document is missing. */
  function OrderAttempts(read: Option<Option<OrderDoc>>): (n: int)
    ensures read.None? || read.value.None? ==> n == 0
    ensures read.Some? && read.value.Some? && read.value.value.printStatus.None? ==> n == 0
  {
    match read
    case Some(Some(order)) => if order.printStatus.Some? then OrZero(order.printStatus.value.attempts) else 0
    case _ => 0
  }

  /** The update `updateOrderPrintStatus` applies to an existing order document. */
  function WithAttempt(order: OrderDoc, success: bool, error: Option<string>, stationId: string, now: int): (r: OrderDoc)
    ensures r.(printStatus := order.printStatus, updatedAt := order.updatedAt) == order
    ensures r.printStatus.Some? && r.printStatus.value.printed == success
    ensures r.printStatus.value.printedAt.Some? <==> success
    ensures r.printStatus.value.printedBy == (if success then Some(stationId) else None)
    ensures r.printStatus.value.attempts == Some(OrderAttempts(Some(Some(order))) + 1)
    ensures r.printStatus.value.lastAttempt == Some(now) && r.printStatus.value.error == error
    ensures r.updatedAt == Some(now)
  {
    var status := PrintStatus(
      success,
      if success then Some(now) else None,
      if success then Some(stationId) else None,
      Some(OrderAttempts(Some(Some(order))) + 1),
      Some(now),
      error);
    order.(printStatus := Some(status), updatedAt := Some(now))
  }

  /** `updateDoc` fails on a missing document, and the failure is swallowed. */
  function RecordAttempt(orders: map<string, OrderDoc>, id: string, success: bool, error: Option<string>,
                         stationId: string, now: int): (r: map<string, OrderDoc>)
    ensures r.Keys == orders.Keys
    ensures forall k :: k in orders && k != id ==> r[k] == orders[k]
    ensures id in orders ==> r[id] == WithAttempt(orders[id], success, error, stationId, now)
  {
    if id in orders then orders[id := WithAttempt(orders[id], success, error, stationId, now)] else orders
  }

  /** `updatePrintStats`: both counters up by one, missing ones read as 0; nothing without a station document. */
  function CountPrint(stations: map<string, StationDoc>, stationId: string, now: int): (r: map<string, StationDoc>)
    ensures r.Keys == stations.Keys
    ensures forall k :: k in stations && k != stationId ==> r[k] == stations[k]
    ensures stationId in stations ==>
      var before := if stations[stationId].stats.Some? then stations[stationId].stats.value else Stats(None, None, None);
      && r[stationId].(stats := stations[stationId].stats) == stations[stationId]
      && r[stationId].stats == Some(Stats(Some(OrZero(before.totalPrinted) + 1), Some(OrZero(before.todayPrinted) + 1), Some(now)))
  {
    if stationId in stations then
      var station := stations[stationId];
      var current := if station.stats.Some? then station.stats.value else Stats(None, None, None);
      stations[stationId := station.(stats := Some(Stats(Some(OrZero(current.totalPrinted) + 1),
                                                         Some(OrZero(current.todayPrinted) + 1),
                                                         Some(now))))]
    else stations
  }

  /** `processOrder`: one print, the statistics on success, then exactly one status update. */
  function ProcessOrderDb(db: Db, id: string, outcome: PrintOutcome, stationId: string, now: int): Db {
    var stations := if outcome.Printed? then CountPrint(db.stations, stationId, now) else db.stations;
    Db(RecordAttempt(db.orders, id, outcome.Printed?, ErrorOf(outcome), stationId, now), stations, db.printJobs + [id])
  }

  /** `handleOrdersSnapshot`: the selected changes, one after the other, in delivery order. */
  function HandleAll(db: Db, changes: seq<Change>, outcomes: seq<PrintOutcome>, stationId: string, now: int): Db
    requires |outcomes| == |changes|
  {
    if changes == [] then db
    else
      var n := |changes| - 1;
      var before := HandleAll(db, changes[..n], outcomes[..n], stationId, now);
      if Selected(changes[n]) then ProcessOrderDb(before, OrderId(changes[n]), outcomes[n], stationId, now)
      else before
  }

  /** Every selected change, and no other, is sent to the printer once, in delivery order; no document appears or disappears. */
  lemma {:induction false} HandleAllJobs(db: Db, changes: seq<Change>, outcomes: seq<PrintOutcome>, stationId: string, now: int)
    requires |outcomes| == |changes|
    ensures HandleAll(db, changes, outcomes, stationId, now).printJobs == db.printJobs + SelectedIds(changes)
    ensures HandleAll(db, changes, outcomes, stationId, now).orders.Keys == db.orders.Keys
    ensures HandleAll(db, changes, outcomes, stationId, now).stations.Keys == db.stations.Keys
  {
    if changes != [] {
      var n := |changes| - 1;
      HandleAllJobs(db, changes[..n], outcomes[..n], stationId, now);
    }
  }

  /** Changes that are not selected (updates, removals, printed orders) change nothing. */
  lemma {:induction false} IgnoredChangesDoNothing(db: Db, changes: seq<Change>, outcomes: seq<PrintOutcome>, stationId: string, now: int)
    requires |outcomes| == |changes|
    requires forall i :: 0 <= i < |changes| ==> !Selected(changes[i])
    ensures HandleAll(db, changes, outcomes, stationId, now) == db
  {
    if changes != [] {
      var n := |changes| - 1;
      IgnoredChangesDoNothing(db, changes[..n], outcomes[..n], stationId, now);
    }
  }

  /** Each attempt adds one to the stored count of attempts (from a non-negative count). */
  lemma AttemptsCountUp(order: OrderDoc, success: bool, error: Option<string>, stationId: string, now: int)
    requires OrderAttempts(Some(Some(order))) >= 0
    ensures OrderAttempts(Some(Some(WithAttempt(order, success, error, stationId, now))))
         == OrderAttempts(Some(Some(order))) + 1
  {
  }

  /** A successful attempt makes a later addition of the order be ignored; a failed one leaves it eligible. */
  lemma PrintedOnce(change: Change, success: bool, error: Option<string>, stationId: string, now: int)
    requires change.kind == Added
    ensures Selected(change.(data := WithAttempt(change.data, success, error, stationId, now))) <==> !success
  {
  }

  /** A failed raw print is recorded with the message of the print manager, which names the failure. */
  lemma RawFailureRecorded(result: Result<PrintManager.RawPrint, string>)
    requires result.Err? && PrintManager.StartsWith(result.error, PrintManager.RAW_FAILED)
    ensures ErrorOf(OutcomeOf(result)) == Some(result.error)
  {
  }

  /** The outcome `processOrder` sees from the station's `printRawContent`. */
  function OutcomeOf(result: Result<PrintManager.RawPrint, string>): (o: PrintOutcome)
    ensures o.Printed? <==> result.Ok?
  {
    match result
    case Ok(_) => Printed
    case Err(message) => NotPrinted(Some(message))
  }

  // ---------------------------------------------------------------------
  // Registration

  /** The document `registerStation` upserts: online, with the statistics reset. */
  function Registration(stationId: string, stationName: string, printerName: Option<string>, tempDir: string, now: int): (d: StationDoc)
    ensures d.online == Some(true) && d.lastPing == Some(now)
    ensures d.stats == Some(Stats(Some(0), Some(0), None))
    ensures OrZero(d.stats.value.totalPrinted) == 0 && OrZero(d.stats.value.todayPrinted) == 0
  {
    StationDoc(Some(stationId), Some(stationName), printerName, Some(tempDir), Some(true), Some(now), Some(Stats(Some(0), Some(0), None)))
  }

  /** An upsert with `merge` of `online` and `lastPing`: creates a bare document when none exists. */
  function Ping(stations: map<string, StationDoc>, stationId: string, online: bool, now: int): (r: map<string, StationDoc>)
    ensures stationId in r && r[stationId].online == Some(online) && r[stationId].lastPing == Some(now)
    ensures r.Keys == stations.Keys + {stationId}
    ensures forall k :: k in stations && k != stationId ==> r[k] == stations[k]
    ensures stationId in stations ==> r[stationId].(online := stations[stationId].online, lastPing := stations[stationId].lastPing) == stations[stationId]
  {
    var before := if stationId in stations then stations[stationId] else StationDoc(None, None, None, None, None, None, None);
    stations[stationId := before.(online := Some(online), lastPing := Some(now))]
  }

  /** After a print, the statistics read back one more than right after registration. */
  lemma FirstPrintCounted(stations: map<string, StationDoc>, stationId: string, stationName: string,
                          printerName: Option<string>, tempDir: string, registered: int, now: int)
    ensures var r := CountPrint(stations[stationId := Registration(stationId, stationName, printerName, tempDir, registered)], stationId, now);
      r[stationId].stats == Some(Stats(Some(1), Some(1), Some(now))) && r[stationId].online == Some(true)
  {
  }

  // ---------------------------------------------------------------------
  // The station object

  class Station {
    const stationId: string
    const stationName: string
    const printerName: Option<string>
    const tempDir: string
    var isActive: bool
    var listening: bool        // `unsubscribe` is set
    var beating: bool          // `heartbeatInterval` holds a live timer
    var pendingRetries: nat    // resubscriptions scheduled by listener errors
    var steps: seq<Step>
    var orders: map<string, OrderDoc>
    var stations: map<string, StationDoc>
    var printJobs: seq<string>

    function State(): Db
      reads this
    {
      Db(orders, stations, printJobs)
    }

    /** The constructor: `STATION_ID || 'cassa1'`, `STATION_NAME || 'Cassa 1'`, `tempDir || './temp'`; inactive. */
    constructor (stationIdEnv: Option<string>, stationNameEnv: Option<string>, printerName: Option<string>,
                 tempDirConfig: Option<string>, orders: map<string, OrderDoc>, stations: map<string, StationDoc>)
      ensures stationId == OrDefault(stationIdEnv, "cassa1") && stationName == OrDefault(stationNameEnv, "Cassa 1")
      ensures this.printerName == printerName && tempDir == OrDefault(tempDirConfig, "./temp")
      ensures !isActive && !listening && !beating && pendingRetries == 0 && steps == []
      ensures State() == Db(orders, stations, [])
    {
      stationId := OrDefault(stationIdEnv, "cassa1");
      stationName := OrDefault(stationNameEnv, "Cassa 1");
      this.printerName := printerName;
      tempDir := OrDefault(tempDirConfig, "./temp");
      isActive := false;
      listening := false;
      beating := false;
      pendingRetries := 0;
      steps := [];
      this.orders := orders;
      this.stations := stations;
      printJobs := [];
    }

    /** `registerStation`. */
    method RegisterStation(now: int)
      modifies this
      ensures stations == old(stations)[stationId := Registration(stationId, stationName, printerName, tempDir, now)]
      ensures steps == old(steps) + [Registered]
      ensures orders == old(orders) && printJobs == old(printJobs)
      ensures isActive == old(isActive) && listening == old(listening) && beating == old(beating)
      ensures pendingRetries == old(pendingRetries)
    {
      stations := stations[stationId := Registration(stationId, stationName, printerName, tempDir, now)];
      steps := steps + [Registered];
    }

    /** `startOrderMonitoring`: subscribe to this station's orders. */
    method StartOrderMonitoring()
      modifies this
      ensures listening && steps == old(steps) + [Subscribed]
      ensures State() == old(State()) && isActive == old(isActive) && beating == old(beating)
      ensures pendingRetries == old(pendingRetries)
    {
      listening := true;
      steps := steps + [Subscribed];
    }

    /** `startHeartbeat`. */
    method StartHeartbeat()
      modifies this
      ensures beating && steps == old(steps) + [HeartbeatStarted]
      ensures State() == old(State()) && isActive == old(isActive) && listening == old(listening)
      ensures pendingRetries == old(pendingRetries)
    {
      beating := true;
      steps := steps + [HeartbeatStarted];
    }

    /** `start`: register, then listen, then beat, and only then active. */
    method Start(now: int)
      modifies this
      ensures isActive && listening && beating
      ensures steps == old(steps) + [Registered, Subscribed, HeartbeatStarted, Activated]
      ensures stations == old(stations)[stationId := Registration(stationId, stationName, printerName, tempDir, now)]
      ensures orders == old(orders) && printJobs == old(printJobs) && pendingRetries == old(pendingRetries)
    {
      RegisterStation(now);
      StartOrderMonitoring();
      StartHeartbeat();
      isActive := true;
      steps := steps + [Activated];
    }

    /** The listener's error callback: every error schedules one more resubscription, with no limit. */
    method OnMonitoringError()
      modifies this
      ensures pendingRetries == old(pendingRetries) + 1
      ensures steps == old(steps) + [RetryScheduled]
      ensures State() == old(State()) && isActive == old(isActive) && beating == old(beating)
      ensures listening == old(listening)
    {
      pendingRetries := pendingRetries + 1;
      steps := steps + [RetryScheduled];
    }

    /** A scheduled resubscription fires five seconds later. */
    method OnRetryTimer()
      requires pendingRetries > 0
      modifies this
      ensures listening && pendingRetries == old(pendingRetries) - 1
      ensures steps == old(steps) + [Subscribed]
      ensures State() == old(State()) && isActive == old(isActive) && beating == old(beating)
    {
      pendingRetries := pendingRetries - 1;
      StartOrderMonitoring();
    }

    /** A heartbeat tick: upsert `online` and `lastPing`. */
    method OnHeartbeat(now: int)
      requires beating
      modifies this
      ensures stations == Ping(old(stations), stationId, true, now)
      ensures orders == old(orders) && printJobs == old(printJobs) && steps == old(steps)
      ensures isActive == old(isActive) && listening == old(listening) && beating && pendingRetries == old(pendingRetries)
    {
      stations := Ping(stations, stationId, true, now);
    }

    /** `updateOrderPrintStatus`. */
    method UpdateOrderPrintStatus(orderId: string, success: bool, error: Option<string>, now: int)
      modifies this
      ensures orders == RecordAttempt(old(orders), orderId, success, error, stationId, now)
      ensures stations == old(stations) && printJobs == old(printJobs) && steps == old(steps)
      ensures isActive == old(isActive) && listening == old(listening) && beating == old(beating)
      ensures pendingRetries == old(pendingRetries)
    {
      var read := if orderId in orders then Some(Some(orders[orderId])) else Some(None);
      var attempts := OrderAttempts(read);
      if orderId in orders {
        var order := orders[orderId];
        var status := PrintStatus(
          success,
          if success then Some(now) else None,
          if success then Some(stationId) else None,
          Some(attempts + 1),
          Some(now),
          error);
        orders := orders[orderId := order.(printStatus := Some(status), updatedAt := Some(now))];
      }
    }

    /** `updatePrintStats`. */
    method UpdatePrintStats(now: int)
      modifies this
      ensures stations == CountPrint(old(stations), stationId, now)
      ensures orders == old(orders) && printJobs == old(printJobs) && steps == old(steps)
      ensures isActive == old(isActive) && listening == old(listening) && beating == old(beating)
      ensures pendingRetries == old(pendingRetries)
    {
      if stationId in stations {
        var station := stations[stationId];
        var current := if station.stats.Some? then station.stats.value else Stats(None, None, None);
        var stats := Stats(Some(OrZero(current.totalPrinted) + 1), Some(OrZero(current.todayPrinted) + 1), Some(now));
        stations := stations[stationId := station.(stats := Some(stats))];
      }
    }

    /** `processOrder`. */
    method ProcessOrder(orderId: string, outcome: PrintOutcome, now: int)
      modifies this
      ensures State() == ProcessOrderDb(old(State()), orderId, outcome, stationId, now)
      ensures steps == old(steps) && isActive == old(isActive) && listening == old(listening)
      ensures beating == old(beating) && pendingRetries == old(pendingRetries)
    {
      printJobs := printJobs + [orderId];
      var success := false;
      var error: Option<string> := None;
      if outcome.Printed? {
        success := true;
        UpdatePrintStats(now);
      } else {
        error := Some(OrDefault(outcome.error, "Stampa fallita"));
      }
      UpdateOrderPrintStatus(orderId, success, error, now);
    }

    /** `handleOrdersSnapshot`: `outcomes[i]` is the printer's answer should change i be printed. */
    method HandleOrdersSnapshot(changes: seq<Change>, outcomes: seq<PrintOutcome>, now: int)
      requires |outcomes| == |changes|
      modifies this
      ensures State() == HandleAll(old(State()), changes, outcomes, stationId, now)
      ensures steps == old(steps) && isActive == old(isActive) && listening == old(listening)
      ensures beating == old(beating) && pendingRetries == old(pendingRetries)
    {
      var i := 0;
      while i < |changes|
        invariant 0 <= i <= |changes|
        invariant State() == HandleAll(old(State()), changes[..i], outcomes[..i], stationId, now)
        invariant steps == old(steps) && isActive == old(isActive) && listening == old(listening)
        invariant beating == old(beating) && pendingRetries == old(pendingRetries)
      {
        var change := changes[i];
        if change.kind == Added {
          var orderId := OrderId(change);
          if !AlreadyPrinted(change.data) {
            ProcessOrder(orderId, outcomes[i], now);
          }
        }
        assert changes[..i + 1][..i] == changes[..i];
        assert outcomes[..i + 1][..i] == outcomes[..i];
        i := i + 1;
      }
      assert changes[..|changes|] == changes;
      assert outcomes[..|outcomes|] == outcomes;
    }

    /** `stop`: inactive, listener and heartbeat cancelled when present, then marked offline. */
    method Stop(now: int)
      modifies this
      ensures !isActive && !listening && !beating
      ensures steps == old(steps) + [Deactivated] + (if old(listening) then [Unsubscribed] else [])
                       + (if old(beating) then [HeartbeatStopped] else []) + [MarkedOffline]
      ensures stations == Ping(old(stations), stationId, false, now)
      ensures orders == old(orders) && printJobs == old(printJobs) && pendingRetries == old(pendingRetries)
    {
      isActive := false;
      steps := steps + [Deactivated];
      if listening {
        listening := false;
        steps := steps + [Unsubscribed];
      }
      if beating {
        beating := false;
        steps := steps + [HeartbeatStopped];
      }
      stations := Ping(stations, stationId, false, now);
      steps := steps + [MarkedOffline];
    }
  }
}
