/**
 * From the engine's outbox to the settlement consumer: what the rows a delivery
 * adds to the outbox mean to settlement, given the order rows both share.
 */
module EngineToSettlement {
  import opened Common
  import opened Sums
  import OrderBook
  import OrderBookLaws
  import Engine
  import EngineSafety
  import EngineNames
  import opened Bank
  import opened Settlement
  import opened SettlementHolds
  import opened SettlementProgress
  import opened SettlementConfluence
  import opened SettlementForecast

  function BuyerOf(f: OrderBook.Fill): AccountId {
    if f.takerSide == Buy then f.takerAccountId else f.makerAccountId
  }

  function SellerOf(f: OrderBook.Fill): AccountId {
    if f.takerSide == Buy then f.makerAccountId else f.takerAccountId
  }

  /** The stream payload of an outbox row; `stamp` is when it was matched. */
  function ToEvent(e: Engine.OutEvent, id: nat, symbol: Symbol, stamp: int): Event {
    match e
    case TradeExecuted(f) =>
      Traded(Stream(id), symbol, f.price, f.qty, BuyerOf(f), SellerOf(f), Engine.BuyOrderId(f), Engine.SellOrderId(f), stamp)
    case OrderClosed(c) =>
      Ended(Stream(id), symbol, c.orderId, c.accountId, c.side, c.filledQty, if c.status == OrderBook.Filled then Filled else Canceled)
  }

  /** The events of outbox rows whose ids start at `base`. */
  function EventsAt(rows: seq<Engine.OutEvent>, base: nat, symbol: Symbol, stamp: int): seq<Event> {
    seq(|rows|, i requires 0 <= i < |rows| => ToEvent(rows[i], base + i, symbol, stamp))
  }

  lemma EventIs(rows: seq<Engine.OutEvent>, base: nat, symbol: Symbol, stamp: int, i: nat)
    requires i < |rows|
    ensures var ev := EventsAt(rows, base, symbol, stamp)[i];
            ev == ToEvent(rows[i], base + i, symbol, stamp) && ev.eventId == Stream(base + i) && ev.symbol == symbol &&
            (ev.Ended? <==> rows[i].OrderClosed?)
  {
  }

  // ---- The order rows the engine and settlement share ----

  /** The engine asks a status whether the order is active, and whether it is still as it was placed. */
  function StatusOf(status: Status): (r: Engine.RowStatus)
    ensures Engine.Active(r) <==> IsActive(status)
    ensures r == Engine.OPEN <==> status == Open
  {
    match status
    case Open => Engine.OPEN
    case Partial => Engine.PARTIAL
    case Filled => Engine.FILLED
    case Canceled => Engine.CANCELED
    case Rejected => Engine.REJECTED
  }

  /** A buyer's reservation covers any price its order may trade at; a contract's parameters are sane. */
  predicate Reserves(i: Instrument, side: Side, kind: OrderBook.Kind, hold: int) {
    match i
    case Spot => side == Buy ==> OrderBook.Bound(kind).Some? && hold >= OrderBook.Bound(kind).value
    case Future(def) => def.unitValue >= 0 && def.initialMarginBps >= 0
    case OptionSeries(unitValue, bps, strike) =>
      && unitValue >= 0 && bps >= 0 && strike.Some? && strike.value >= 0
      && (side == Buy ==> OrderBook.Bound(kind).Some? && hold >= OrderBook.Bound(kind).value * unitValue)
  }

  /** The engine's row and the database's are one order's, placed with a reservation that covers it. */
  predicate Agrees(db: Db, row: Engine.OrderRow, o: OrderRow) {
    && o.account == row.accountId && o.side == row.side && o.qty == row.qty
    && o.filledQty == row.filledQty && StatusOf(o.status) == row.status && o.account in db.bank.accounts
    && Reserves(InstrumentOf(db.market, o.symbol), row.side, row.kind, o.holdPerUnit)
    && (row.kind.Limit? ==> row.kind.price > 0)
  }

  ghost predicate RowsAgree(db: Db, d: Engine.Durable, symbol: Symbol) {
    && (forall id :: id in d.orders ==> id in db.orders && db.orders[id].symbol == symbol && Agrees(db, d.orders[id], db.orders[id]))
    && (forall id :: id in db.orders && db.orders[id].symbol == symbol ==> id in d.orders)
  }

  ghost predicate Sound(d: Engine.Durable) {
    EngineSafety.DurableOk(d) && EngineNames.NamesOk(d)
  }

  // ---- Reading the outbox ----

  lemma {:induction false} RowIsRecorded(outbox: seq<Engine.OutEvent>, i: nat)
    requires i < |outbox|
    ensures outbox[i].TradeExecuted? ==> outbox[i].fill in Engine.Trades(outbox)
    ensures outbox[i].OrderClosed? ==> outbox[i].closed in Engine.Closes(outbox)
  {
    if i > 0 {
      RowIsRecorded(outbox[1..], i - 1);
    }
  }

  lemma {:induction false} ClosedOnce(outbox: seq<Engine.OutEvent>, i: nat, j: nat)
    requires i < j < |outbox| && outbox[i].OrderClosed? && outbox[j].OrderClosed?
    requires OrderBookLaws.DistinctCloses(Engine.Closes(outbox))
    ensures outbox[i].closed.orderId != outbox[j].closed.orderId
  {
    var rest := outbox[1..];
    var closes := Engine.Closes(outbox);
    if i == 0 {
      RowIsRecorded(rest, j - 1);
      var k :| 0 <= k < |Engine.Closes(rest)| && Engine.Closes(rest)[k] == outbox[j].closed;
      assert closes[0] == outbox[0].closed && closes[k + 1] == outbox[j].closed;
    } else {
      var offset := if outbox[0].OrderClosed? then 1 else 0;
      forall k, l | 0 <= k < l < |Engine.Closes(rest)|
        ensures Engine.Closes(rest)[k].orderId != Engine.Closes(rest)[l].orderId
      {
        assert Engine.Closes(rest)[k] == closes[k + offset] && Engine.Closes(rest)[l] == closes[l + offset];
      }
      ClosedOnce(rest, i - 1, j - 1);
    }
  }

  predicate TwoOrders(rows: seq<Engine.OutEvent>) {
    forall i :: 0 <= i < |rows| && rows[i].TradeExecuted? ==> rows[i].fill.makerOrderId != rows[i].fill.takerOrderId
  }

  lemma OneEvent(events: seq<Event>, rows: seq<Engine.OutEvent>, symbol: Symbol, stamp: int, done: set<ClaimId>, o: OrderId, k: nat)
    requires k < |rows| && Stream(|events| + k) !in done && TwoOrders(rows)
    ensures PendingFills(events + EventsAt(rows, |events|, symbol, stamp), done, o)(|events| + k)
            == OrderBookLaws.FilledQty(Engine.Trades([rows[k]]), o)
  {
    var e := rows[k];
    assert [e][1..] == [];
    EventIs(rows, |events|, symbol, stamp, k);
    assert (events + EventsAt(rows, |events|, symbol, stamp))[|events| + k] == ToEvent(e, |events| + k, symbol, stamp);
    assert OrderBookLaws.FilledQty([], o) == 0;
    if e.TradeExecuted? {
      assert Engine.Trades([e]) == [e.fill];
      assert [e.fill][1..] == [];
      assert OrderBookLaws.FilledQty([e.fill], o) == OrderBookLaws.ShareOf(e.fill, o) + OrderBookLaws.FilledQty([], o);
    } else {
      assert Engine.Trades([e]) == [];
    }
  }

  lemma OneRowMore(rows: seq<Engine.OutEvent>, k: nat, o: OrderId)
    requires k < |rows|
    ensures OrderBookLaws.FilledQty(Engine.Trades(rows[..k + 1]), o)
            == OrderBookLaws.FilledQty(Engine.Trades(rows[..k]), o) + OrderBookLaws.FilledQty(Engine.Trades([rows[k]]), o)
  {
    assert rows[..k + 1] == rows[..k] + [rows[k]];
    Engine.OutboxTrades(rows[..k], [rows[k]]);
    OrderBookLaws.FilledQtyAppend(Engine.Trades(rows[..k]), Engine.Trades([rows[k]]), o);
  }

  lemma OldEventsStay(events: seq<Event>, more: seq<Event>, done: set<ClaimId>, o: OrderId)
    ensures Sum(PendingFills(events + more, done, o), |events|) == PendingQty(events, done, o)
  {
    SumSame(PendingFills(events + more, done, o), PendingFills(events, done, o), |events|);
  }

  lemma {:induction false} FillsAddUp(events: seq<Event>, rows: seq<Engine.OutEvent>, symbol: Symbol, stamp: int, done: set<ClaimId>, o: OrderId, n: nat)
    requires n <= |rows| && TwoOrders(rows) && forall i: nat :: i >= |events| ==> Stream(i) !in done
    ensures Sum(PendingFills(events + EventsAt(rows, |events|, symbol, stamp), done, o), |events| + n)
            == PendingQty(events, done, o) + OrderBookLaws.FilledQty(Engine.Trades(rows[..n]), o)
  {
    if n == 0 {
      OldEventsStay(events, EventsAt(rows, |events|, symbol, stamp), done, o);
      assert Engine.Trades(rows[..0]) == [];
    } else {
      FillsAddUp(events, rows, symbol, stamp, done, o, n - 1);
      OneRowMore(rows, n - 1, o);
      OneEvent(events, rows, symbol, stamp, done, o, n - 1);
    }
  }

  /** What new events add to an order's pending quantity is what their trades record for it. */
  lemma PendingGrows(events: seq<Event>, rows: seq<Engine.OutEvent>, symbol: Symbol, stamp: int, done: set<ClaimId>, o: OrderId)
    requires TwoOrders(rows) && forall i: nat :: i >= |events| ==> Stream(i) !in done
    ensures PendingQty(events + EventsAt(rows, |events|, symbol, stamp), done, o)
            == PendingQty(events, done, o) + OrderBookLaws.FilledQty(Engine.Trades(rows), o)
  {
    FillsAddUp(events, rows, symbol, stamp, done, o, |rows|);
    assert rows[..|rows|] == rows;
  }

  // ---- Every new event is ready ----

  lemma PricePayable(i: Instrument, row: Engine.OrderRow, hold: int, price: int)
    requires Reserves(i, row.side, row.kind, hold) && row.side == Buy && EngineNames.Within(row, price)
    ensures match i
            case Spot => hold >= price
            case Future(def) => def.unitValue >= 0 && def.initialMarginBps >= 0
            case OptionSeries(unitValue, bps, strike) =>
              unitValue >= 0 && bps >= 0 && strike.Some? && strike.value >= 0 && hold >= price * unitValue
  {
    if i.OptionSeries? {
      assert (OrderBook.Bound(row.kind).value - price) * i.unitValue >= 0;
    }
  }

  /** A fill's two columns name the orders, accounts and sides they were placed with. */
  lemma ColumnsNameOrders(f: OrderBook.Fill, orders: map<OrderId, Engine.OrderRow>)
    requires EngineSafety.FillOk(f, orders) && EngineNames.FillNames(f, orders)
    ensures f.makerOrderId != f.takerOrderId
    ensures Engine.BuyOrderId(f) in orders && Engine.SellOrderId(f) in orders
    ensures
      var buy, sell := orders[Engine.BuyOrderId(f)], orders[Engine.SellOrderId(f)];
      && buy.side == Buy && sell.side == Sell && buy.accountId == BuyerOf(f) && sell.accountId == SellerOf(f)
      && EngineNames.Within(buy, f.price)
  {
    assert f.takerSide == Buy || f.takerSide == Sell;
  }

  lemma FillReady(db: Db, d: Engine.Durable, symbol: Symbol, f: OrderBook.Fill, id: nat, stamp: int)
    requires Sound(d) && RowsAgree(db, d, symbol) && f in d.trades
    ensures Ready(db, ToEvent(Engine.TradeExecuted(f), id, symbol, stamp))
  {
    assert EngineSafety.FillOk(f, d.orders) && EngineNames.FillNames(f, d.orders);
    ColumnsNameOrders(f, d.orders);
    var buy, sell := Engine.BuyOrderId(f), Engine.SellOrderId(f);
    assert Agrees(db, d.orders[buy], db.orders[buy]) && Agrees(db, d.orders[sell], db.orders[sell]);
    PricePayable(InstrumentOf(db.market, symbol), d.orders[buy], db.orders[buy].holdPerUnit, f.price);
    assert f.price > 0 by {
      assert Agrees(db, d.orders[f.makerOrderId], db.orders[f.makerOrderId]);
    }
  }

  lemma CloseReady(db: Db, d: Engine.Durable, symbol: Symbol, c: OrderBook.Closed, id: nat, stamp: int)
    requires Sound(d) && RowsAgree(db, d, symbol) && c in Engine.Closes(d.outbox)
    ensures Ready(db, ToEvent(Engine.OrderClosed(c), id, symbol, stamp))
  {
    assert OrderBookLaws.FilledQty(d.trades, c.orderId) >= 0;
    assert EngineNames.CloseNames(c, d.orders) && OrderBookLaws.Truthful(c, d.trades, d.orders[c.orderId].qty);
    assert Agrees(db, d.orders[c.orderId], db.orders[c.orderId]);
  }

  lemma RowReady(db: Db, d: Engine.Durable, symbol: Symbol, i: nat, id: nat, stamp: int)
    requires Sound(d) && RowsAgree(db, d, symbol) && i < |d.outbox|
    ensures Ready(db, ToEvent(d.outbox[i], id, symbol, stamp))
  {
    RowIsRecorded(d.outbox, i);
    if d.outbox[i].TradeExecuted? {
      assert d.outbox[i].fill in d.trades;
      FillReady(db, d, symbol, d.outbox[i].fill, id, stamp);
    } else {
      CloseReady(db, d, symbol, d.outbox[i].closed, id, stamp);
    }
  }

  lemma OutboxTwoOrders(d: Engine.Durable, k: nat)
    requires Sound(d) && k <= |d.outbox|
    ensures TwoOrders(d.outbox[k..])
  {
    forall i | k <= i < |d.outbox| && d.outbox[i].TradeExecuted?
      ensures d.outbox[i].fill.makerOrderId != d.outbox[i].fill.takerOrderId
    {
      RowIsRecorded(d.outbox, i);
      assert EngineSafety.FillOk(d.outbox[i].fill, d.orders);
    }
    assert forall i :: 0 <= i < |d.outbox[k..]| ==> d.outbox[k..][i] == d.outbox[k + i];
  }

  // ---- What one step of the engine adds ----

  /** Rows may be added to the outbox; no order row changes. */
  predicate Extends(s: Engine.State, after: Engine.State) {
    s.d.outbox <= after.d.outbox && after.d.orders == s.d.orders
  }

  lemma CommitExtends(d: Engine.Durable, eid: EventId, result: OrderBook.MatchResult)
    ensures d.outbox <= Engine.Commit(d, eid, result).outbox && Engine.Commit(d, eid, result).orders == d.orders
  {
  }

  lemma PlacedExtends(s: Engine.State, eid: EventId, inc: OrderBook.Incoming, recovery: bool)
    ensures Extends(s, Engine.HandlePlaced(s, eid, inc, recovery))
  {
    CommitExtends(s.d, eid, OrderBook.Place(s.book, inc).result);
  }

  lemma CancelExtends(s: Engine.State, eid: EventId, id: OrderId, recovery: bool)
    ensures Extends(s, Engine.HandleCancel(s, eid, id, recovery))
  {
    var w := OrderBook.Without(s.book, id);
    var closed := if w.order.Some? then Some(OrderBook.CancelClose(w.order.value)) else Engine.CloseMissing(s.d, id);
    CommitExtends(s.d, eid, Engine.CancelResult(closed));
  }

  lemma DeliverExtends(s: Engine.State, eid: EventId, recovery: bool)
    requires eid in s.issued
    ensures Extends(s, Engine.Deliver(s, eid, recovery))
  {
    var t := Engine.Pruned(s);
    if eid !in t.seen {
      match s.issued[eid]
      case PlacedEvent(inc) => PlacedExtends(t, eid, inc, recovery);
      case CancelEvent(id) => CancelExtends(t, eid, id, recovery);
    }
  }
}
