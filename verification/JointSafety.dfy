/**
 * What every step of the joint machine keeps: the engines' records, the stream
 * and the database agree, order by order, however far settlement lags.
 */
module JointSafety {
  import opened Common
  import opened Sums
  import opened Futures
  import opened Bank
  import opened BankLaws
  import opened Settlement
  import opened SettlementHolds
  import opened SettlementProgress
  import opened SettlementConfluence
  import opened SettlementForecast
  import opened OrderAdmission
  import opened EngineToSettlement
  import opened JointMachine
  import DailySettlement
  import SettlementFunding
  import OrderBook
  import OrderBookLaws
  import Engine
  import EngineSafety
  import EngineNames
  import EngineRuns

  // ---------------------------------------------------------------- the invariant

  ghost predicate Healthy(s: Engine.State) {
    EngineSafety.Inv(s) && EngineNames.NamesOk(s.d)
  }

  ghost predicate EnginesOk(engines: Engines, db: Db) {
    forall s :: s in engines ==> Healthy(engines[s]) && RowsAgree(db, engines[s].d, s)
  }

  predicate OrdersListed(engines: Engines, orders: Orders) {
    forall o :: o in orders ==> orders[o].symbol in engines
  }

  predicate Relays(ev: Event, i: nat, outbox: seq<Engine.OutEvent>, r: nat, stamp: int) {
    r < |outbox| && ev == ToEvent(outbox[r], i, ev.symbol, stamp)
  }

  /** The event is a row of the outbox. */
  ghost predicate Recorded(ev: Event, i: nat, outbox: seq<Engine.OutEvent>) {
    exists r: nat, stamp: int :: Relays(ev, i, outbox, r, stamp)
  }

  ghost predicate EventRecorded(engines: Engines, ev: Event, i: nat) {
    ev.symbol in engines && Recorded(ev, i, engines[ev.symbol].d.outbox)
  }

  ghost predicate EventsRecorded(engines: Engines, events: seq<Event>) {
    forall i :: 0 <= i < |events| ==> EventRecorded(engines, events[i], i)
  }

  ghost predicate OnStream(symbol: Symbol, outbox: seq<Engine.OutEvent>, r: nat, events: seq<Event>) {
    exists i: nat, stamp: int :: i < |events| && events[i].symbol == symbol && Relays(events[i], i, outbox, r, stamp)
  }

  /** Every row of every outbox is on the stream. */
  ghost predicate Streamed(engines: Engines, events: seq<Event>) {
    forall s, r: nat :: s in engines && r < |engines[s].d.outbox| ==> OnStream(s, engines[s].d.outbox, r, events)
  }

  /** What an order has filled and what its pending fills add is what its engine recorded for it. */
  ghost predicate Accounted(engines: Engines, db: Db, events: seq<Event>, o: OrderId) {
    o in db.orders && db.orders[o].symbol in engines ==>
      db.orders[o].filledQty + PendingQty(events, db.processed, o)
      == OrderBookLaws.FilledQty(engines[db.orders[o].symbol].d.trades, o)
  }

  ghost predicate AllAccounted(engines: Engines, db: Db, events: seq<Event>) {
    forall o :: Accounted(engines, db, events, o)
  }

  ghost predicate StillActive(db: Db, events: seq<Event>, o: OrderId) {
    o in db.orders && PendingQty(events, db.processed, o) > 0 ==> IsActive(db.orders[o].status)
  }

  ghost predicate AllActive(db: Db, events: seq<Event>) {
    forall o :: StillActive(db, events, o)
  }

  /** A close that was settled has ended its order. */
  predicate CloseDone(db: Db, ev: Event) {
    ev.Ended? && ev.eventId in db.processed && ev.orderId in db.orders ==> !IsActive(db.orders[ev.orderId].status)
  }

  ghost predicate ClosesDone(db: Db, events: seq<Event>) {
    forall i :: 0 <= i < |events| ==> CloseDone(db, events[i])
  }

  ghost predicate Unseen(events: seq<Event>, done: set<ClaimId>) {
    forall i: nat :: i >= |events| ==> Stream(i) !in done
  }

  ghost predicate Joined(engines: Engines, db: Db, events: seq<Event>) {
    && EnginesOk(engines, db) && OrdersListed(engines, db.orders) && EventsRecorded(engines, events)
    && Streamed(engines, events) && AllAccounted(engines, db, events) && AllActive(db, events) && OneClose(events)
    && ClosesDone(db, events) && Unseen(events, db.processed)
  }

  ghost predicate Inv(st: State, n: nat) {
    Joined(st.engines, st.db, st.events) && HoldsExact(st.db, n) && PositionsAllowed(st.db.positions)
  }

  lemma StartInv(st: State, n: nat)
    requires Start(st, n)
    ensures Inv(st, n)
  {
  }

  // ---------------------------------------------------------------- the invariant makes pending events consistent

  lemma EventIsReady(engines: Engines, db: Db, ev: Event, i: nat)
    requires EnginesOk(engines, db) && EventRecorded(engines, ev, i)
    ensures Ready(db, ev) && ev.eventId == Stream(i)
  {
    var d := engines[ev.symbol].d;
    var r: nat, stamp: int :| Relays(ev, i, d.outbox, r, stamp);
    assert Healthy(engines[ev.symbol]) && RowsAgree(db, d, ev.symbol);
    RowReady(db, d, ev.symbol, r, i, stamp);
  }

  /** A close on the stream tells what its engine recorded for the order. */
  lemma CloseOnStream(engines: Engines, db: Db, ev: Event, i: nat)
    requires EnginesOk(engines, db) && EventRecorded(engines, ev, i) && ev.Ended?
    ensures ev.orderId in engines[ev.symbol].d.markers && ev.orderId in engines[ev.symbol].d.orders
    ensures ev.orderId in db.orders && db.orders[ev.orderId].symbol == ev.symbol
    ensures ev.filledQty == OrderBookLaws.FilledQty(engines[ev.symbol].d.trades, ev.orderId)
  {
    var d := engines[ev.symbol].d;
    var r: nat, stamp: int :| Relays(ev, i, d.outbox, r, stamp);
    assert Healthy(engines[ev.symbol]) && RowsAgree(db, d, ev.symbol);
    RowIsRecorded(d.outbox, r);
    assert d.outbox[r].closed.orderId in OrderBookLaws.ClosedIds(Engine.Closes(d.outbox));
  }

  lemma FitsFrom(engines: Engines, db: Db, events: seq<Event>, o: OrderId)
    requires EnginesOk(engines, db) && OrdersListed(engines, db.orders)
    requires Accounted(engines, db, events, o) && StillActive(db, events, o)
    ensures FillsFit(db, events, o)
  {
    if o in db.orders {
      var s := db.orders[o].symbol;
      assert Healthy(engines[s]) && RowsAgree(db, engines[s].d, s);
      assert Agrees(db, engines[s].d.orders[o], db.orders[o]);
    }
  }

  lemma TellsFrom(engines: Engines, db: Db, events: seq<Event>, i: nat)
    requires EnginesOk(engines, db) && EventsRecorded(engines, events) && AllAccounted(engines, db, events) && i < |events|
    ensures CloseTells(db, events, events[i])
  {
    assert EventRecorded(engines, events[i], i);
    if events[i].Ended? {
      CloseOnStream(engines, db, events[i], i);
      assert Accounted(engines, db, events, events[i].orderId);
    }
  }

  lemma AllReadyFrom(engines: Engines, db: Db, events: seq<Event>)
    requires EnginesOk(engines, db) && EventsRecorded(engines, events)
    ensures AllReady(db, events) && DistinctIds(events) && AllWellFormed(events)
  {
    forall i | 0 <= i < |events|
      ensures Ready(db, events[i]) && events[i].eventId == Stream(i)
    {
      EventIsReady(engines, db, events[i], i);
    }
  }

  lemma JoinedIsConsistent(engines: Engines, db: Db, events: seq<Event>)
    requires Joined(engines, db, events) && PositionsAllowed(db.positions)
    ensures Consistent(db, events) && Plan(events)
  {
    AllReadyFrom(engines, db, events);
    forall o ensures FillsFit(db, events, o) {
      assert Accounted(engines, db, events, o) && StillActive(db, events, o);
      FitsFrom(engines, db, events, o);
    }
    forall i | 0 <= i < |events| ensures CloseTells(db, events, events[i]) {
      TellsFrom(engines, db, events, i);
    }
  }
}
