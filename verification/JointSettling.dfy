/**
 * The joint machine's other steps: settlement receives an event and the engines
 * read the rows it advanced, admission places an order, a day's settlement runs.
 */
module JointSettling {
  import opened Common
  import opened Sums
  import opened Futures
  import opened FuturesLaws
  import opened Bank
  import opened BankLaws
  import opened Settlement
  import opened SettlementHolds
  import opened SettlementProgress
  import opened SettlementConfluence
  import opened SettlementForecast
  import opened OrderAdmission
  import opened EngineToSettlement
  import opened JointMachine
  import opened JointSafety
  import DailySettlement
  import SettlementFunding
  import OrderBook
  import OrderBookLaws
  import Engine
  import EngineSafety
  import EngineNames

  // ---------------------------------------------------------------- what a delivery does to one order row

  predicate NamedIn(ev: Event, o: OrderId) {
    Names(ev, o) || Ends(ev, o)
  }

  /** A row before and after a delivery, with the fills still to come to it. */
  predicate Moves(x: OrderRow, pending: int, y: OrderRow, pendingAfter: int, ev: Event, o: OrderId) {
    && y.filledQty + pendingAfter == x.filledQty + pending && x.filledQty <= y.filledQty
    && (!NamedIn(ev, o) || !IsActive(x.status) ==> y == x)
    && (IsActive(x.status) && !IsActive(y.status) ==> y.filledQty == y.qty || Ends(ev, o))
  }

  ghost predicate RowMoves(db: Db, after: Db, events: seq<Event>, ev: Event, o: OrderId) {
    o in db.orders && o in after.orders &&
    Moves(db.orders[o], PendingQty(events, db.processed, o), after.orders[o], PendingQty(events, after.processed, o), ev, o)
  }

  lemma FillMoves(db: Db, events: seq<Event>, k: nat, o: OrderId)
    requires Consistent(db, events) && k < |events| && events[k].Traded? && WellFormed(events[k]) && Applies(db, events[k])
    requires o in db.orders
    ensures RowMoves(db, SettleTrade(db, events[k]).value, events, events[k], o)
  {
    assert Ready(db, events[k]);
    TradeSettlesRows(db, events[k]);
    TradeRow(db, events[k], o);
    PendingShrinks(events, db.processed, k, o);
  }

  lemma CloseMoves(db: Db, events: seq<Event>, k: nat, o: OrderId)
    requires Consistent(db, events) && k < |events| && events[k].Ended? && WellFormed(events[k]) && IsPending(db, events[k])
    requires CloseOrder(db, events[k]).Ok? && o in db.orders && forall i :: i in db.orders ==> RowOk(db.orders[i])
    ensures RowMoves(db, CloseOrder(db, events[k]).value, events, events[k], o)
  {
    var ev := events[k];
    assert Ready(db, ev);
    CloseRows(db, ev);
    PendingShrinks(events, db.processed, k, o);
    if ev.orderId == o {
      CloseWaitsIff(db, events, k);
      assert CloseTells(db, events, ev);
    }
  }

  lemma DeliveryMoves(db: Db, events: seq<Event>, k: nat, o: OrderId, n: nat)
    requires Consistent(db, events) && HoldsExact(db, n) && k < |events| && WellFormed(events[k]) && o in db.orders
    ensures RowMoves(db, Attempt(db, events[k]), events, events[k], o)
  {
    if Deliver(db, events[k]).Ok? && IsPending(db, events[k]) {
      if events[k].Traded? {
        FillMoves(db, events, k, o);
      } else {
        CloseMoves(db, events, k, o);
      }
    }
  }

  // ---------------------------------------------------------------- settlement only books what was recorded

  /** Reading the row settlement left is a step the engine's own model allows. */
  ghost predicate Readable(d: Engine.Durable, orders: Orders, o: OrderId) {
    o in d.orders && o in orders && orders[o].filledQty >= 0 &&
    Engine.SettlesRecorded(d, o, orders[o].filledQty, StatusOf(orders[o].status))
  }

  lemma EndedIsMarked(engines: Engines, db: Db, after: Db, events: seq<Event>, k: nat, o: OrderId)
    requires EnginesOk(engines, db) && EventsRecorded(engines, events) && k < |events|
    requires o in db.orders && db.orders[o].symbol in engines
    requires RowMoves(db, after, events, events[k], o) && SameTerms(db.orders[o], after.orders[o])
    requires after.orders[o].filledQty <= OrderBookLaws.FilledQty(engines[db.orders[o].symbol].d.trades, o)
    ensures !IsActive(after.orders[o].status) ==> o in engines[db.orders[o].symbol].d.markers
  {
    var d := engines[db.orders[o].symbol].d;
    assert Healthy(engines[db.orders[o].symbol]) && RowsAgree(db, d, db.orders[o].symbol);
    assert Agrees(db, d.orders[o], db.orders[o]);
    if IsActive(db.orders[o].status) && !IsActive(after.orders[o].status) && Ends(events[k], o) {
      assert EventRecorded(engines, events[k], k);
      CloseOnStream(engines, db, events[k], k);
    }
  }

  /** Whatever settlement does to a row, it books recorded trades only, and ends the order only after its close. */
  lemma SettlesWhatIsRecorded(engines: Engines, db: Db, after: Db, events: seq<Event>, k: nat, o: OrderId)
    requires EnginesOk(engines, db) && EventsRecorded(engines, events) && k < |events| && AllWellFormed(events)
    requires o in db.orders && db.orders[o].symbol in engines && Accounted(engines, db, events, o)
    requires RowMoves(db, after, events, events[k], o) && SameTerms(db.orders[o], after.orders[o]) && RowOk(after.orders[o])
    ensures Readable(engines[db.orders[o].symbol].d, after.orders, o)
  {
    var d := engines[db.orders[o].symbol].d;
    assert RowsAgree(db, d, db.orders[o].symbol);
    assert Agrees(db, d.orders[o], db.orders[o]);
    PendingQtyNonNegative(events, after.processed, o);
    EndedIsMarked(engines, db, after, events, k, o);
  }

  // ---------------------------------------------------------------- the engine reads the rows

  predicate SameRecord(x: Engine.Durable, y: Engine.Durable) {
    y.trades == x.trades && y.markers == x.markers && y.outbox == x.outbox && y.orders.Keys == x.orders.Keys
  }

  predicate Read(row: Engine.OrderRow, after: Engine.OrderRow, o: OrderRow) {
    o.filledQty >= 0 && after == row.(filledQty := o.filledQty, status := StatusOf(o.status))
  }

  lemma SyncedHealthy(s: Engine.State, orders: Orders, o: OrderId)
    requires Healthy(s) && Readable(s.d, orders, o)
    ensures Healthy(Synced(s, orders, o))
  {
    var filled: nat, status := orders[o].filledQty, StatusOf(orders[o].status);
    EngineSafety.SettleKeepsInv(s, o, filled, status);
    EngineNames.NamesStay(s.d, Synced(s, orders, o).d);
    assert Synced(s, orders, o) == Engine.Next(s, Engine.SettleRow(o, filled, status));
  }

  lemma SyncedRows(s: Engine.State, orders: Orders, o: OrderId, other: OrderId)
    requires Readable(s.d, orders, o) && other in s.d.orders
    ensures SameRecord(s.d, Synced(s, orders, o).d)
    ensures
      var after := Synced(s, orders, o).d.orders;
      other in after && if other == o then Read(s.d.orders[o], after[o], orders[o]) else after[other] == s.d.orders[other]
  {
  }

  /** All orders an event names. */
  ghost predicate NamesReadable(d: Engine.Durable, orders: Orders, ev: Event) {
    if ev.Traded? then ev.buyOrder != ev.sellOrder && Readable(d, orders, ev.buyOrder) && Readable(d, orders, ev.sellOrder)
    else Readable(d, orders, ev.orderId)
  }

  lemma SyncedWithHealthy(s: Engine.State, orders: Orders, ev: Event)
    requires Healthy(s) && NamesReadable(s.d, orders, ev)
    ensures Healthy(SyncedWith(s, orders, ev)) && SameRecord(s.d, SyncedWith(s, orders, ev).d)
  {
    if ev.Traded? {
      SyncedHealthy(s, orders, ev.buyOrder);
      SyncedRows(s, orders, ev.buyOrder, ev.sellOrder);
      SyncedHealthy(Synced(s, orders, ev.buyOrder), orders, ev.sellOrder);
      SyncedRows(Synced(s, orders, ev.buyOrder), orders, ev.sellOrder, ev.buyOrder);
    } else {
      SyncedHealthy(s, orders, ev.orderId);
      SyncedRows(s, orders, ev.orderId, ev.orderId);
    }
  }

  lemma SyncedWithRows(s: Engine.State, orders: Orders, ev: Event, o: OrderId)
    requires NamesReadable(s.d, orders, ev) && o in s.d.orders
    ensures
      var after := SyncedWith(s, orders, ev).d.orders;
      o in after && if NamedIn(ev, o) then o in orders && Read(s.d.orders[o], after[o], orders[o]) else after[o] == s.d.orders[o]
  {
    if ev.Traded? {
      SyncedRows(s, orders, ev.buyOrder, o);
      SyncedRows(s, orders, ev.buyOrder, ev.sellOrder);
      SyncedRows(Synced(s, orders, ev.buyOrder), orders, ev.sellOrder, o);
    } else {
      SyncedRows(s, orders, ev.orderId, o);
    }
  }

  // ---------------------------------------------------------------- the machine after a delivery

  /** What every order row owes a delivery, and the terms no delivery changes. */
  ghost predicate Delivered(db: Db, after: Db, events: seq<Event>, ev: Event) {
    && SameTermsAll(db, after)
    && forall o :: o in db.orders ==> RowMoves(db, after, events, ev, o)
  }

  lemma AgreesAfter(engines: Engines, db: Db, after: Db, events: seq<Event>, ev: Event, s: Engine.State, row: Engine.OrderRow, symbol: Symbol, o: OrderId)
    requires Delivered(db, after, events, ev) && RowsAgree(db, s.d, symbol) && o in s.d.orders
    requires if NamedIn(ev, o) then o in after.orders && Read(s.d.orders[o], row, after.orders[o]) else row == s.d.orders[o]
    ensures o in after.orders && after.orders[o].symbol == symbol && Agrees(after, row, after.orders[o])
  {
    assert Agrees(db, s.d.orders[o], db.orders[o]);
    assert RowMoves(db, after, events, ev, o);
    assert SameTerms(db.orders[o], after.orders[o]);
  }

  lemma NamedAreReadable(engines: Engines, db: Db, after: Db, events: seq<Event>, k: nat)
    requires Joined(engines, db, events) && PositionsAllowed(db.positions) && k < |events|
    requires Delivered(db, after, events, events[k]) && forall o :: o in after.orders ==> RowOk(after.orders[o])
    ensures events[k].symbol in engines && NamesReadable(engines[events[k].symbol].d, after.orders, events[k])
  {
    var ev := events[k];
    JoinedIsConsistent(engines, db, events);
    assert EventRecorded(engines, ev, k);
    assert Ready(db, ev);
    if ev.Traded? {
      assert DescribesBuy(ev, db.orders[ev.buyOrder]) && DescribesSell(ev, db.orders[ev.sellOrder]);
      NamedIsReadable(engines, db, after, events, k, ev.buyOrder);
      NamedIsReadable(engines, db, after, events, k, ev.sellOrder);
    } else {
      CloseOnStream(engines, db, ev, k);
      NamedIsReadable(engines, db, after, events, k, ev.orderId);
    }
  }

  lemma NamedIsReadable(engines: Engines, db: Db, after: Db, events: seq<Event>, k: nat, o: OrderId)
    requires Joined(engines, db, events) && k < |events| && AllWellFormed(events) && o in db.orders
    requires Delivered(db, after, events, events[k]) && o in after.orders && RowOk(after.orders[o])
    ensures db.orders[o].symbol in engines && Readable(engines[db.orders[o].symbol].d, after.orders, o)
  {
    assert RowMoves(db, after, events, events[k], o) && SameTerms(db.orders[o], after.orders[o]);
    assert Accounted(engines, db, events, o);
    SettlesWhatIsRecorded(engines, db, after, events, k, o);
  }

  lemma EngineReads(engines: Engines, db: Db, after: Db, events: seq<Event>, ev: Event)
    requires EnginesOk(engines, db) && Delivered(db, after, events, ev) && ev.symbol in engines
    requires NamesReadable(engines[ev.symbol].d, after.orders, ev)
    ensures
      var t := SyncedWith(engines[ev.symbol], after.orders, ev);
      Healthy(t) && RowsAgree(after, t.d, ev.symbol) && SameRecord(engines[ev.symbol].d, t.d)
  {
    var s := engines[ev.symbol];
    var t := SyncedWith(s, after.orders, ev);
    assert Healthy(s) && RowsAgree(db, s.d, ev.symbol);
    SyncedWithHealthy(s, after.orders, ev);
    forall o | o in t.d.orders
      ensures o in after.orders && after.orders[o].symbol == ev.symbol && Agrees(after, t.d.orders[o], after.orders[o])
    {
      assert o in s.d.orders.Keys;
      SyncedWithRows(s, after.orders, ev, o);
      AgreesAfter(engines, db, after, events, ev, s, t.d.orders[o], ev.symbol, o);
    }
    ListedStay(db, after, s.d, t.d, ev.symbol);
  }

  lemma ListedStay(db: Db, after: Db, d: Engine.Durable, t: Engine.Durable, symbol: Symbol)
    requires SameTermsAll(db, after) && RowsAgree(db, d, symbol) && SameRecord(d, t)
    ensures forall o :: o in after.orders && after.orders[o].symbol == symbol ==> o in t.orders
  {
    forall o | o in after.orders && after.orders[o].symbol == symbol
      ensures o in t.orders
    {
      assert o in db.orders.Keys;
      assert SameTerms(db.orders[o], after.orders[o]);
      assert o in d.orders.Keys;
    }
  }

  /** An engine whose orders the event does not name. */
  lemma EngineIdles(engines: Engines, db: Db, after: Db, events: seq<Event>, ev: Event, symbol: Symbol)
    requires EnginesOk(engines, db) && Delivered(db, after, events, ev) && symbol in engines && symbol != ev.symbol
    requires Ready(db, ev) && (ev.Ended? ==> ev.orderId in db.orders)
    ensures RowsAgree(after, engines[symbol].d, symbol)
  {
    var d := engines[symbol].d;
    assert RowsAgree(db, d, symbol);
    forall o | o in d.orders
      ensures o in after.orders && after.orders[o].symbol == symbol && Agrees(after, d.orders[o], after.orders[o])
    {
      assert !NamedIn(ev, o);
      AgreesAfter(engines, db, after, events, ev, engines[symbol], d.orders[o], symbol, o);
    }
    ListedStay(db, after, d, d, symbol);
  }

  lemma EnginesRead(engines: Engines, db: Db, after: Db, events: seq<Event>, ev: Event)
    requires EnginesOk(engines, db) && Delivered(db, after, events, ev) && ev.symbol in engines
    requires Ready(db, ev) && (ev.Ended? ==> ev.orderId in db.orders) && NamesReadable(engines[ev.symbol].d, after.orders, ev)
    ensures EnginesOk(SyncedIn(engines, after.orders, ev), after)
  {
    var now := SyncedIn(engines, after.orders, ev);
    EngineReads(engines, db, after, events, ev);
    forall s | s in now
      ensures Healthy(now[s]) && RowsAgree(after, now[s].d, s)
    {
      assert Healthy(engines[s]);
      if s != ev.symbol {
        EngineIdles(engines, db, after, events, ev, s);
      }
    }
  }

  /** The records the stream and the accounts refer to are those from before. */
  predicate SameRecords(engines: Engines, now: Engines) {
    now.Keys == engines.Keys && forall s :: s in engines ==> SameRecord(engines[s].d, now[s].d)
  }

  predicate SameOutboxes(engines: Engines, now: Engines) {
    now.Keys == engines.Keys && forall s :: s in engines ==> now[s].d.outbox == engines[s].d.outbox
  }

  lemma RecordsSame(engines: Engines, now: Engines, events: seq<Event>)
    requires EventsRecorded(engines, events) && Streamed(engines, events) && SameOutboxes(engines, now)
    ensures EventsRecorded(now, events) && Streamed(now, events)
  {
    forall s, r: nat | s in now && r < |now[s].d.outbox|
      ensures OnStream(s, now[s].d.outbox, r, events)
    {
      assert s in engines.Keys;
      assert OnStream(s, engines[s].d.outbox, r, events);
    }
    forall i | 0 <= i < |events|
      ensures EventRecorded(now, events[i], i)
    {
      assert EventRecorded(engines, events[i], i);
      assert events[i].symbol in engines.Keys;
    }
  }

  lemma OutboxesSame(engines: Engines, now: Engines)
    requires SameRecords(engines, now)
    ensures SameOutboxes(engines, now)
  {
  }

  lemma AccountsSame(engines: Engines, now: Engines, db: Db, after: Db, events: seq<Event>, ev: Event)
    requires AllAccounted(engines, db, events) && SameRecords(engines, now) && Delivered(db, after, events, ev)
    ensures AllAccounted(now, after, events)
  {
    forall o ensures Accounted(now, after, events, o) {
      assert Accounted(engines, db, events, o);
      if o in after.orders {
        assert o in db.orders.Keys;
        assert RowMoves(db, after, events, ev, o) && SameTerms(db.orders[o], after.orders[o]);
        assert after.orders[o].symbol in now ==> after.orders[o].symbol in engines.Keys;
      }
    }
  }

  lemma ActiveFrom(db: Db, events: seq<Event>)
    requires AllFit(db, events)
    ensures AllActive(db, events)
  {
    forall o ensures StillActive(db, events, o) {
      assert FillsFit(db, events, o);
    }
  }

  lemma DeliveryIs(engines: Engines, db: Db, events: seq<Event>, k: nat, n: nat)
    requires Consistent(db, events) && HoldsExact(db, n) && k < |events| && WellFormed(events[k])
    ensures
      var after := Attempt(db, events[k]);
      && Delivered(db, after, events, events[k]) && Consistent(after, events) && HoldsExact(after, n)
      && (after.processed == db.processed || after.processed == db.processed + {events[k].eventId})
      && (ClosesDone(db, events) && AllWellFormed(events) ==> ClosesDone(after, events))
  {
    var after := Attempt(db, events[k]);
    forall o | o in db.orders ensures RowMoves(db, after, events, events[k], o) {
      DeliveryMoves(db, events, k, o, n);
    }
    if Deliver(db, events[k]).Ok? {
      DeliverKeepsPlan(db, events, k, n);
      SettlementFunding.DeliverTerms(db, events, k, n);
      DeliveryMarks(db, events, k, n);
      forall i | 0 <= i < |events| && ClosesDone(db, events) && AllWellFormed(events) ensures CloseDone(after, events[i]) {
        assert CloseDone(db, events[i]);
        DeliveryEnds(db, events, k, i, n);
      }
    }
  }

  lemma DeliveryMarks(db: Db, events: seq<Event>, k: nat, n: nat)
    requires Consistent(db, events) && HoldsExact(db, n) && k < |events| && WellFormed(events[k]) && Deliver(db, events[k]).Ok?
    ensures var after := Deliver(db, events[k]).value;
            after.processed == db.processed || after.processed == db.processed + {events[k].eventId}
  {
    assert Ready(db, events[k]);
    if IsPending(db, events[k]) {
      if events[k].Traded? {
        TradeSettlesRows(db, events[k]);
      } else {
        CloseRows(db, events[k]);
      }
    }
  }

  /** A delivered close ends its order; an order that has ended stays ended. */
  lemma DeliveryEnds(db: Db, events: seq<Event>, k: nat, i: nat, n: nat)
    requires Consistent(db, events) && HoldsExact(db, n) && AllWellFormed(events) && k < |events| && i < |events|
    requires Deliver(db, events[k]).Ok? && CloseDone(db, events[i])
    ensures CloseDone(Deliver(db, events[k]).value, events[i])
  {
    var ev := events[i];
    if ev.Ended? && ev.orderId in db.orders {
      DeliveryMoves(db, events, k, ev.orderId, n);
      DeliveryMarks(db, events, k, n);
      assert i != k ==> events[k].eventId != ev.eventId;
      if i == k && IsPending(db, ev) {
        CloseEnds(db, events, k);
      }
    } else if ev.Ended? {
      SettlementFunding.DeliverTerms(db, events, k, n);
      assert ev.orderId !in db.orders.Keys;
    }
  }

  lemma CloseEnds(db: Db, events: seq<Event>, k: nat)
    requires Consistent(db, events) && AllWellFormed(events) && k < |events| && events[k].Ended? && IsPending(db, events[k])
    requires CloseOrder(db, events[k]).Ok? && events[k].orderId in db.orders && RowOk(db.orders[events[k].orderId])
    ensures var after := CloseOrder(db, events[k]).value.orders;
            events[k].orderId in after && !IsActive(after[events[k].orderId].status)
  {
    assert Ready(db, events[k]) && CloseTells(db, events, events[k]);
    CloseRows(db, events[k]);
    PendingQtyNonNegative(events, db.processed, events[k].orderId);
  }

  lemma SyncedRecords(engines: Engines, orders: Orders, ev: Event)
    requires ev.symbol in engines && SameRecord(engines[ev.symbol].d, SyncedWith(engines[ev.symbol], orders, ev).d)
    ensures SameRecords(engines, SyncedIn(engines, orders, ev))
  {
  }

  lemma ReceiveJoins(engines: Engines, db: Db, after: Db, events: seq<Event>, k: nat)
    requires Joined(engines, db, events) && PositionsAllowed(db.positions) && k < |events|
    requires Delivered(db, after, events, events[k]) && Consistent(after, events) && ClosesDone(after, events)
    requires forall o :: o in after.orders ==> RowOk(after.orders[o])
    requires after.processed == db.processed || after.processed == db.processed + {events[k].eventId}
    ensures Joined(SyncedIn(engines, after.orders, events[k]), after, events)
  {
    var ev := events[k];
    var now := SyncedIn(engines, after.orders, ev);
    JoinedIsConsistent(engines, db, events);
    assert EventRecorded(engines, ev, k) && Ready(db, ev);
    NamedAreReadable(engines, db, after, events, k);
    if ev.Ended? {
      CloseOnStream(engines, db, ev, k);
    }
    EnginesRead(engines, db, after, events, ev);
    EngineReads(engines, db, after, events, ev);
    SyncedRecords(engines, after.orders, ev);
    OutboxesSame(engines, now);
    RecordsSame(engines, now, events);
    AccountsSame(engines, now, db, after, events, ev);
    ActiveFrom(after, events);
    ListedAfter(engines, now, db, after);
    EventIsReady(engines, db, ev, k);
  }

  lemma ListedAfter(engines: Engines, now: Engines, db: Db, after: Db)
    requires OrdersListed(engines, db.orders) && SameTermsAll(db, after) && now.Keys == engines.Keys
    ensures OrdersListed(now, after.orders)
  {
    forall o | o in after.orders ensures after.orders[o].symbol in now {
      assert o in db.orders.Keys;
      assert SameTerms(db.orders[o], after.orders[o]);
      assert after.orders[o].symbol in now.Keys;
    }
  }

  /** Receiving any event, fresh, repeated or too early, keeps the machine's invariant. */
  lemma ReceiveKeepsInv(st: State, k: nat, n: nat)
    requires Inv(st, n) && Enabled(st, Receive(k))
    ensures Inv(Next(st, Receive(k)), n)
  {
    JoinedIsConsistent(st.engines, st.db, st.events);
    DeliveryIs(st.engines, st.db, st.events, k, n);
    ReceiveJoins(st.engines, st.db, Attempt(st.db, st.events[k]), st.events, k);
  }

  // ---------------------------------------------------------------- a new order

  ghost predicate Unnamed(db: Db, events: seq<Event>, o: OrderId) {
    o !in db.orders && AllReady(db, events) && forall i :: 0 <= i < |events| && events[i].Ended? ==> events[i].orderId in db.orders
  }

  lemma NothingPending(db: Db, events: seq<Event>, o: OrderId)
    requires Unnamed(db, events, o)
    ensures PendingQty(events, db.processed, o) == 0
  {
    forall i | 0 <= i < |events|
      ensures PendingFills(events, db.processed, o)(i) == 0
    {
      assert Ready(db, events[i]);
    }
    SumZero(PendingFills(events, db.processed, o), |events|);
  }

  lemma StreamUnnamed(engines: Engines, db: Db, events: seq<Event>, o: OrderId)
    requires EnginesOk(engines, db) && EventsRecorded(engines, events) && o !in db.orders
    ensures Unnamed(db, events, o)
  {
    AllReadyFrom(engines, db, events);
    forall i | 0 <= i < |events| && events[i].Ended?
      ensures events[i].orderId in db.orders
    {
      assert EventRecorded(engines, events[i], i);
      CloseOnStream(engines, db, events[i], i);
    }
  }

  /** The database with one more order, nothing else the engines refer to changed. */
  ghost predicate Admitted(db: Db, after: Db, o: OrderId, row: OrderRow) {
    && o !in db.orders && after.orders == db.orders[o := row] && after.market == db.market && after.bots == db.bots
    && SameAccounts(db.bank, after.bank) && after.processed == db.processed && after.positions == db.positions
  }

  predicate FreshRow(db: Db, inc: OrderBook.Incoming, row: OrderRow, symbol: Symbol) {
    && row.account == inc.accountId && row.symbol == symbol && row.side == inc.side && row.qty == inc.qty
    && row.filledQty == 0 && row.status == Open && inc.accountId in db.bank.accounts
    && Reserves(InstrumentOf(db.market, symbol), inc.side, inc.kind, row.holdPerUnit) && (inc.kind.Limit? ==> inc.kind.price > 0)
  }

  lemma AgreesStill(db: Db, after: Db, o: OrderId, row: OrderRow, d: Engine.Durable, symbol: Symbol)
    requires Admitted(db, after, o, row) && RowsAgree(db, d, symbol) && row.symbol != symbol
    ensures RowsAgree(after, d, symbol)
  {
    forall i | i in d.orders
      ensures i in after.orders && after.orders[i].symbol == symbol && Agrees(after, d.orders[i], after.orders[i])
    {
      assert Agrees(db, d.orders[i], db.orders[i]);
    }
  }

  lemma AgreesWithNew(db: Db, after: Db, inc: OrderBook.Incoming, eid: EventId, row: OrderRow, s: Engine.State, symbol: Symbol)
    requires Admitted(db, after, inc.orderId, row) && RowsAgree(db, s.d, symbol) && FreshRow(db, inc, row, symbol)
    requires Engine.Enabled(s, Engine.Admit(inc, eid))
    ensures RowsAgree(after, Engine.Next(s, Engine.Admit(inc, eid)).d, symbol)
  {
    var t := Engine.Next(s, Engine.Admit(inc, eid));
    forall i | i in t.d.orders
      ensures i in after.orders && after.orders[i].symbol == symbol && Agrees(after, t.d.orders[i], after.orders[i])
    {
      if i != inc.orderId {
        assert Agrees(db, s.d.orders[i], db.orders[i]);
      }
    }
  }

  lemma AdmitHealthy(s: Engine.State, inc: OrderBook.Incoming, eid: EventId)
    requires Healthy(s) && Engine.Enabled(s, Engine.Admit(inc, eid))
    ensures Healthy(Engine.Next(s, Engine.Admit(inc, eid)))
    ensures OrderBookLaws.FilledQty(s.d.trades, inc.orderId) == 0
  {
    EngineSafety.AdmitKeepsInv(s, inc, eid);
    EngineNames.NamesStay(s.d, Engine.Next(s, Engine.Admit(inc, eid)).d);
    EngineSafety.UnknownUntraded(s.d.trades, s.d.orders, inc.orderId);
  }

  lemma PlaceEngines(engines: Engines, db: Db, after: Db, symbol: Symbol, inc: OrderBook.Incoming, eid: EventId, row: OrderRow)
    requires EnginesOk(engines, db) && Admitted(db, after, inc.orderId, row) && FreshRow(db, inc, row, symbol)
    requires symbol in engines && Engine.Enabled(engines[symbol], Engine.Admit(inc, eid))
    ensures EnginesOk(engines[symbol := Engine.Next(engines[symbol], Engine.Admit(inc, eid))], after)
  {
    var now := engines[symbol := Engine.Next(engines[symbol], Engine.Admit(inc, eid))];
    forall s | s in now
      ensures Healthy(now[s]) && RowsAgree(after, now[s].d, s)
    {
      assert Healthy(engines[s]) && RowsAgree(db, engines[s].d, s);
      if s == symbol {
        AdmitHealthy(engines[s], inc, eid);
        AgreesWithNew(db, after, inc, eid, row, engines[s], s);
      } else {
        AgreesStill(db, after, inc.orderId, row, engines[s].d, s);
      }
    }
  }

  /** The engine's record is untouched, whatever order rows it gained. */
  predicate SameTrades(engines: Engines, now: Engines) {
    now.Keys == engines.Keys && forall s :: s in engines ==> now[s].d.trades == engines[s].d.trades && now[s].d.outbox == engines[s].d.outbox
  }

  lemma PlaceAccounts(engines: Engines, now: Engines, db: Db, after: Db, events: seq<Event>, o: OrderId, row: OrderRow, i: OrderId)
    requires Accounted(engines, db, events, i) && StillActive(db, events, i) && SameTrades(engines, now)
    requires Admitted(db, after, o, row) && Unnamed(db, events, o) && row.symbol in engines && row.filledQty == 0
    requires OrderBookLaws.FilledQty(engines[row.symbol].d.trades, o) == 0
    ensures Accounted(now, after, events, i) && StillActive(after, events, i)
  {
    NothingPending(db, events, o);
    if i in after.orders && i != o {
      assert after.orders[i].symbol in now.Keys ==> after.orders[i].symbol in engines;
    }
  }

  lemma PlaceKeepsCloses(db: Db, after: Db, events: seq<Event>, o: OrderId, row: OrderRow)
    requires ClosesDone(db, events) && Admitted(db, after, o, row) && Unnamed(db, events, o)
    ensures ClosesDone(after, events)
  {
    forall i | 0 <= i < |events| ensures CloseDone(after, events[i]) {
      assert CloseDone(db, events[i]);
    }
  }

  lemma PlaceJoins(engines: Engines, db: Db, after: Db, events: seq<Event>, symbol: Symbol, inc: OrderBook.Incoming, eid: EventId, row: OrderRow)
    requires Joined(engines, db, events) && Admitted(db, after, inc.orderId, row) && FreshRow(db, inc, row, symbol)
    requires symbol in engines && Engine.Enabled(engines[symbol], Engine.Admit(inc, eid))
    ensures Joined(engines[symbol := Engine.Next(engines[symbol], Engine.Admit(inc, eid))], after, events)
  {
    var now := engines[symbol := Engine.Next(engines[symbol], Engine.Admit(inc, eid))];
    assert Healthy(engines[symbol]);
    PlaceEngines(engines, db, after, symbol, inc, eid, row);
    AdmitHealthy(engines[symbol], inc, eid);
    assert SameTrades(engines, now);
    RecordsSame(engines, now, events);
    StreamUnnamed(engines, db, events, inc.orderId);
    PlaceKeepsCloses(db, after, events, inc.orderId, row);
    forall i ensures Accounted(now, after, events, i) && StillActive(after, events, i) {
      assert Accounted(engines, db, events, i) && StillActive(db, events, i);
      PlaceAccounts(engines, now, db, after, events, inc.orderId, row, i);
    }
  }

  lemma PlacedIs(db: Db, r: Request)
    requires Admissible(r) && r.id !in db.orders && PlaceOrder(db, r).Ok?
    ensures Admitted(db, PlaceOrder(db, r).value, r.id, NewRow(r)) && r.account in db.bank.accounts
  {
    AdmitEffect(db, r);
  }

  lemma PlaceKeepsInv(st: State, symbol: Symbol, inc: OrderBook.Incoming, eid: EventId, terms: OrderTerms, n: nat)
    requires Inv(st, n) && Enabled(st, Place(symbol, inc, eid, terms)) && 0 <= inc.orderId < n
    ensures Inv(Placed(st, symbol, inc, eid, terms), n)
  {
    var r := RequestOf(symbol, inc, terms);
    if PlaceOrder(st.db, r).Ok? {
      PlacedIs(st.db, r);
      AdmitKeepsHolds(st.db, r, n);
      PlaceJoins(st.engines, st.db, PlaceOrder(st.db, r).value, st.events, symbol, inc, eid, NewRow(r));
    }
  }

  // ---------------------------------------------------------------- a day's settlement

  /** A position settled for the day: no order row, account or stream event is touched. */
  ghost predicate DaySettled(db: Db, after: Db, claim: ClaimId) {
    && claim.Daily? && after.orders == db.orders && after.market == db.market && after.bots == db.bots
    && SameAccounts(db.bank, after.bank) && (after.processed == db.processed || after.processed == db.processed + {claim})
  }

  lemma DailyIs(db: Db, symbol: Symbol, day: int, price: int, account: AccountId, row: RowSide, n: nat)
    requires HoldsExact(db, n) && PositionsAllowed(db.positions)
    requires DailySettlement.SettlePosition(db, symbol, day, price, account, row).Ok?
    ensures
      var after := DailySettlement.SettlePosition(db, symbol, day, price, account, row).value.db;
      DaySettled(db, after, Daily(symbol, day, account, row)) && PositionsAllowed(after.positions)
  {
    DailySettlement.SettlePositionEffect(db, symbol, day, price, account, row);
  }

  lemma DailyKeepsHolds(db: Db, symbol: Symbol, day: int, price: int, account: AccountId, row: RowSide, n: nat)
    requires HoldsExact(db, n) && DailySettlement.SettlePosition(db, symbol, day, price, account, row).Ok?
    ensures HoldsExact(DailySettlement.SettlePosition(db, symbol, day, price, account, row).value.db, n)
  {
    DailySettlement.SettlementKeepsHolds(db, symbol, day, price, account, row, n);
  }

  lemma DailyPending(events: seq<Event>, done: set<ClaimId>, claim: ClaimId, o: OrderId)
    requires claim.Daily? && forall i :: 0 <= i < |events| ==> events[i].eventId.Stream?
    ensures PendingQty(events, done + {claim}, o) == PendingQty(events, done, o)
  {
    SumSame(PendingFills(events, done + {claim}, o), PendingFills(events, done, o), |events|);
  }

  lemma DailyJoins(engines: Engines, db: Db, after: Db, events: seq<Event>, claim: ClaimId)
    requires Joined(engines, db, events) && DaySettled(db, after, claim)
    ensures Joined(engines, after, events)
  {
    forall s | s in engines ensures RowsAgree(after, engines[s].d, s) {
      assert RowsAgree(db, engines[s].d, s);
      forall o | o in engines[s].d.orders ensures Agrees(after, engines[s].d.orders[o], after.orders[o]) {
        assert Agrees(db, engines[s].d.orders[o], db.orders[o]);
      }
    }
    forall i | 0 <= i < |events| ensures events[i].eventId.Stream? {
      assert EventRecorded(engines, events[i], i);
      EventIsReady(engines, db, events[i], i);
    }
    forall i | 0 <= i < |events| ensures CloseDone(after, events[i]) {
      assert CloseDone(db, events[i]);
    }
    forall o ensures Accounted(engines, after, events, o) && StillActive(after, events, o) {
      assert Accounted(engines, db, events, o) && StillActive(db, events, o);
      DailyPending(events, db.processed, claim, o);
    }
  }

  lemma DailyKeepsInv(st: State, symbol: Symbol, day: int, price: int, account: AccountId, row: RowSide, n: nat)
    requires Inv(st, n) && Enabled(st, SettleDaily(symbol, day, price, account, row))
    ensures Inv(Next(st, SettleDaily(symbol, day, price, account, row)), n)
  {
    if DailySettlement.SettlePosition(st.db, symbol, day, price, account, row).Ok? {
      DailyIs(st.db, symbol, day, price, account, row, n);
      DailyKeepsHolds(st.db, symbol, day, price, account, row, n);
      DailyJoins(st.engines, st.db, DailySettlement.SettlePosition(st.db, symbol, day, price, account, row).value.db,
                 st.events, Daily(symbol, day, account, row));
    }
  }
}
