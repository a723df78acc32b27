/**
 * What every step of the matching engine keeps, and what that means for whole
 * runs with crashes, restarts and redeliveries in any order.
 */
module EngineSafety {
  import opened Common
  import opened OrderBook
  import opened OrderBookLaws
  import opened Engine

  /** The outbox after a commit, read back. */
  lemma CommitRead(d: Durable, eid: EventId, result: MatchResult)
    ensures
      var d' := Commit(d, eid, result);
      && Trades(d'.outbox) == Trades(d.outbox) + result.fills
      && Closes(d'.outbox) == Closes(d.outbox) + result.closedOrders
  {
    OutboxAppend(d.outbox, SettlementEvents(result));
    SettlementEventsRead(result);
  }

  // ---------------------------------------------------------------- the invariant

  predicate MatchesRow(inc: Incoming, row: OrderRow) {
    inc.accountId == row.accountId && inc.side == row.side && inc.kind == row.kind && inc.qty == row.qty
  }

  predicate SamePlacement(x: OrderEvent, y: OrderEvent) {
    x.PlacedEvent? && y.PlacedEvent? && x.inc.orderId == y.inc.orderId
  }

  ghost predicate EventsOk(d: Durable, issued: map<EventId, OrderEvent>) {
    && (forall e :: e in issued ==> EventOrder(issued[e]) in d.orders)
    && (forall e :: e in issued && issued[e].PlacedEvent? ==> MatchesRow(issued[e].inc, d.orders[issued[e].inc.orderId]))
    && (forall e, g :: e in issued && g in issued && SamePlacement(issued[e], issued[g]) ==> e == g)
    && d.claims <= issued.Keys
  }

  predicate FillOk(f: Fill, orders: map<OrderId, OrderRow>) {
    && f.makerOrderId in orders && f.takerOrderId in orders
    && orders[f.takerOrderId].side == f.takerSide
    && orders[f.makerOrderId].side == Opposite(f.takerSide)
  }

  ghost predicate TradesOk(d: Durable) {
    && (forall f :: f in d.trades ==> FillOk(f, d.orders))
    && (forall id :: id in d.orders ==>
          && d.orders[id].qty > 0
          && FilledQty(d.trades, id) <= d.orders[id].qty
          && (FilledQty(d.trades, id) == d.orders[id].qty ==> id in d.markers))
  }

  predicate ClosesOk(d: Durable) {
    && DistinctCloses(Closes(d.outbox))
    && ClosedIds(Closes(d.outbox)) == d.markers <= d.orders.Keys
    && (forall c :: c in Closes(d.outbox) ==> c.orderId in d.orders && Truthful(c, d.trades, d.orders[c.orderId].qty))
    && Trades(d.outbox) == d.trades
  }

  predicate Names(f: Fill, id: OrderId) {
    f.makerOrderId == id || f.takerOrderId == id
  }

  /** No trade follows the close of an order it touches. */
  predicate ClosesLast(outbox: seq<OutEvent>) {
    forall i, j :: 0 <= i < j < |outbox| && outbox[i].OrderClosed? && outbox[j].TradeExecuted?
      ==> !Names(outbox[j].fill, outbox[i].closed.orderId)
  }

  ghost predicate RowsOk(d: Durable) {
    forall id :: id in d.orders ==>
      && d.orders[id].filledQty <= FilledQty(d.trades, id)
      && (!Active(d.orders[id].status) ==> id in d.markers)
  }

  ghost predicate DurableOk(d: Durable) {
    TradesOk(d) && ClosesOk(d) && ClosesLast(d.outbox) && RowsOk(d)
  }

  predicate RowOf(o: Resting, d: Durable) {
    && o.orderId in d.orders && o.orderId !in d.markers
    && var row := d.orders[o.orderId];
       o.accountId == row.accountId && o.side == row.side && row.kind == Limit(o.price) && o.totalQty == row.qty
  }

  ghost predicate RowsOf(b: Book, d: Durable) {
    forall o :: InBook(b, o) ==> RowOf(o, d)
  }

  ghost predicate BookOk(b: Book, d: Durable) {
    Sound(b) && Ledgered(b, d.trades) && RowsOf(b, d) && b.lastPrice == LastTradePrice(d)
  }

  ghost predicate Inv(s: State) {
    EventsOk(s.d, s.issued) && DurableOk(s.d) && (s.up ==> BookOk(s.book, s.d))
  }

  // ---------------------------------------------------------------- small consequences

  lemma BookIdsUnmarked(b: Book, d: Durable)
    requires BookOk(b, d)
    ensures BookIds(b) !! d.markers && BookIds(b) <= d.orders.Keys
  {
    forall id | id in BookIds(b) ensures id !in d.markers && id in d.orders {
      var o :| InBook(b, o) && o.orderId == id;
    }
  }

  lemma {:induction false} NothingMarked(list: seq<Resting>, markers: set<OrderId>)
    requires Ids(list) !! markers
    ensures MarkedIds(list, markers) == []
  {
    if list != [] {
      IdsCons(list);
      NothingMarked(list[1..], markers);
    }
  }

  /** With one engine there is nothing to prune. */
  lemma PruneIdle(s: State)
    requires Inv(s) && s.up
    ensures Pruned(s) == s
  {
    BookIdsUnmarked(s.book, s.d);
    forall o | o in s.book.bids + s.book.asks ensures o.orderId !in s.d.markers {
      assert InBook(s.book, o) && o.orderId in BookIds(s.book);
    }
    NothingMarked(s.book.bids + s.book.asks, s.d.markers);
  }

  lemma PublishedSound(b: Book)
    requires Sound(b)
    ensures Sound(Published(b))
  {
    LiveLater(b.bids, Buy, b.seqNo);
    LiveLater(b.asks, Sell, b.seqNo);
  }

  lemma {:induction false} RecordedIsFilled(trades: seq<Fill>, orders: map<OrderId, OrderRow>, id: OrderId)
    requires id in orders && forall f :: f in trades ==> FillOk(f, orders)
    ensures RecordedQty(trades, id, orders[id].side) == FilledQty(trades, id)
  {
    if trades != [] {
      assert FillOk(trades[0], orders);
      RecordedIsFilled(trades[1..], orders, id);
    }
  }

  // ---------------------------------------------------------------- the step that matches

  /** The delivery that would match an order which has already traded: see `RematchBreaks`. */
  predicate Rematch(s: State, eid: EventId, recovery: bool)
    requires eid in s.issued
  {
    && s.issued[eid].PlacedEvent?
    && var id := s.issued[eid].inc.orderId;
       && !recovery
       && eid !in s.seen && eid !in s.d.claims
       && id !in BookIds(s.book) && id !in s.d.markers
       && FilledQty(s.d.trades, id) > 0
  }

  /** A fresh placement about to be matched. */
  ghost predicate Fresh(s: State, eid: EventId, inc: Incoming) {
    && Inv(s) && s.up && eid in s.issued && s.issued[eid] == PlacedEvent(inc)
    && inc.orderId !in BookIds(s.book) && inc.orderId !in s.d.markers && eid !in s.d.claims
    && FilledQty(s.d.trades, inc.orderId) == 0
  }

  lemma PlacedCommitsTrades(s: State, eid: EventId, inc: Incoming)
    requires Fresh(s, eid, inc)
    ensures TradesOk(Commit(s.d, eid, Place(s.book, inc).result))
  {
    var d, p := s.d, Place(s.book, inc);
    var d' := Commit(d, eid, p.result);
    FillsOk(s, eid, inc);
    forall id | id in d'.orders
      ensures FilledQty(d'.trades, id) <= d'.orders[id].qty
      ensures FilledQty(d'.trades, id) == d'.orders[id].qty ==> id in d'.markers
    {
      PlacedTotals(s, eid, inc, id);
    }
  }

  lemma FillsOk(s: State, eid: EventId, inc: Incoming)
    requires Fresh(s, eid, inc)
    ensures forall f :: f in Place(s.book, inc).result.fills ==>
      FillOk(f, s.d.orders) && f.takerOrderId == inc.orderId && f.makerOrderId in BookIds(s.book)
  {
    PlaceFills(s.book, inc);
    forall f | f in Place(s.book, inc).result.fills
      ensures FillOk(f, s.d.orders) && f.takerOrderId == inc.orderId && f.makerOrderId in BookIds(s.book)
    {
      var rows := SideOf(s.book, Opposite(inc.side));
      var p :| p in rows && p.orderId == f.makerOrderId && p.accountId == f.makerAccountId && p.price == f.price;
      assert InBook(s.book, p);
      RowQty(s.book, p);
      SideOfRow(s.book, Opposite(inc.side), p);
    }
  }

  lemma SideOfRow(b: Book, side: Side, o: Resting)
    requires Sound(b) && o in SideOf(b, side)
    ensures o.side == side
  {
  }

  lemma PlacedTotals(s: State, eid: EventId, inc: Incoming, id: OrderId)
    requires Fresh(s, eid, inc) && id in s.d.orders
    ensures
      var d' := Commit(s.d, eid, Place(s.book, inc).result);
      && FilledQty(d'.trades, id) <= d'.orders[id].qty
      && (FilledQty(d'.trades, id) == d'.orders[id].qty ==> id in d'.markers)
  {
    if id in BookIds(Place(s.book, inc).book) {
      RestingTotal(s, eid, inc, id);
    } else if id == inc.orderId || id in BookIds(s.book) {
      PlaceCloses(s.book, inc);
      assert id in ClosedIds(Place(s.book, inc).result.closedOrders);
      var c :| c in Place(s.book, inc).result.closedOrders && c.orderId == id;
      CloseTruthful(s, eid, inc, c);
    } else {
      PlaceExtends(s.book, inc, s.d.trades);
    }
  }

  lemma RestingTotal(s: State, eid: EventId, inc: Incoming, id: OrderId)
    requires Fresh(s, eid, inc) && id in BookIds(Place(s.book, inc).book)
    ensures id in s.d.orders && FilledQty(Commit(s.d, eid, Place(s.book, inc).result).trades, id) < s.d.orders[id].qty
  {
    var b := Place(s.book, inc).book;
    PlaceSound(s.book, inc);
    var o :| InBook(b, o) && o.orderId == id;
    RowBelowTotal(b, o);
    PlacedRow(s, eid, inc, o);
    PlacedLedger(s, eid, inc);
  }

  lemma PlacedRow(s: State, eid: EventId, inc: Incoming, o: Resting)
    requires Fresh(s, eid, inc) && InBook(Place(s.book, inc).book, o)
    ensures RowOf(o, Commit(s.d, eid, Place(s.book, inc).result))
  {
    var p := Place(s.book, inc);
    PlaceRows(s.book, inc, o);
    PlaceCloses(s.book, inc);
    assert o.orderId in BookIds(p.book);
    if exists q :: InBook(s.book, q) && o == q.(qty := o.qty) {
      var q :| InBook(s.book, q) && o == q.(qty := o.qty);
    }
  }

  lemma CloseTruthful(s: State, eid: EventId, inc: Incoming, c: Closed)
    requires Fresh(s, eid, inc) && c in Place(s.book, inc).result.closedOrders
    ensures c.orderId in s.d.orders && c.orderId !in s.d.markers
    ensures Truthful(c, Commit(s.d, eid, Place(s.book, inc).result).trades, s.d.orders[c.orderId].qty)
  {
    PlaceExtends(s.book, inc, s.d.trades);
    PlaceCloses(s.book, inc);
    if c.orderId != inc.orderId {
      var o :| InBook(s.book, o) && c == MakerClose(o);
    }
  }

  lemma PlacedCommitsCloses(s: State, eid: EventId, inc: Incoming)
    requires Fresh(s, eid, inc)
    ensures ClosesOk(Commit(s.d, eid, Place(s.book, inc).result))
  {
    var d, p := s.d, Place(s.book, inc);
    var d' := Commit(d, eid, p.result);
    CommitRead(d, eid, p.result);
    PlaceCloses(s.book, inc);
    BookIdsUnmarked(s.book, d);
    ClosesAppend(Closes(d.outbox), p.result.closedOrders);
    forall c | c in Closes(d'.outbox) ensures c.orderId in d'.orders && Truthful(c, d'.trades, d'.orders[c.orderId].qty) {
      if c in Closes(d.outbox) {
        assert c.orderId in ClosedIds(Closes(d.outbox));
        PlaceExtends(s.book, inc, d.trades);
      } else {
        CloseTruthful(s, eid, inc, c);
      }
    }
  }

  lemma CommitClosesLast(d: Durable, eid: EventId, result: MatchResult)
    requires ClosesLast(d.outbox) && ClosesOk(d)
    requires forall f, id :: f in result.fills && id in d.markers ==> !Names(f, id)
    ensures ClosesLast(Commit(d, eid, result).outbox)
  {
    var d' := Commit(d, eid, result);
    forall i, j | 0 <= i < j < |d'.outbox| && d'.outbox[i].OrderClosed? && d'.outbox[j].TradeExecuted?
      ensures !Names(d'.outbox[j].fill, d'.outbox[i].closed.orderId)
    {
      if j >= |d.outbox| {
        assert i < |d.outbox|;
        assert d'.outbox[j].fill in result.fills;
        ClosesMember(d.outbox, i);
        assert d.outbox[i].closed.orderId in ClosedIds(Closes(d.outbox));
      }
    }
  }

  lemma {:induction false} ClosesMember(outbox: seq<OutEvent>, i: nat)
    requires i < |outbox| && outbox[i].OrderClosed?
    ensures outbox[i].closed in Closes(outbox)
  {
    if i > 0 { ClosesMember(outbox[1..], i - 1); }
  }

  lemma CommitRows(d: Durable, eid: EventId, result: MatchResult)
    requires RowsOk(d)
    ensures RowsOk(Commit(d, eid, result))
  {
    forall id | id in d.orders ensures d.orders[id].filledQty <= FilledQty(d.trades + result.fills, id) {
      FilledQtyAppend(d.trades, result.fills, id);
    }
  }

  lemma PlacedBook(s: State, eid: EventId, inc: Incoming)
    requires Fresh(s, eid, inc)
    ensures BookOk(Published(Place(s.book, inc).book), Commit(s.d, eid, Place(s.book, inc).result))
  {
    PlaceSound(s.book, inc);
    PublishedSound(Place(s.book, inc).book);
    PlacedLedger(s, eid, inc);
    PlacedRows(s, eid, inc);
    PlacedPrice(s, eid, inc);
    SameRows(Place(s.book, inc).book, Commit(s.d, eid, Place(s.book, inc).result));
  }

  /** Publishing a snapshot only advances the sequence number. */
  lemma SameRows(b: Book, d: Durable)
    ensures RowsOf(b, d) == RowsOf(Published(b), d)
    ensures Ledgered(b, d.trades) == Ledgered(Published(b), d.trades)
  {
    assert forall o :: InBook(b, o) == InBook(Published(b), o);
  }

  lemma PlacedLedger(s: State, eid: EventId, inc: Incoming)
    requires Fresh(s, eid, inc)
    ensures Ledgered(Place(s.book, inc).book, Commit(s.d, eid, Place(s.book, inc).result).trades)
  {
    PlaceExtends(s.book, inc, s.d.trades);
  }

  lemma PlacedRows(s: State, eid: EventId, inc: Incoming)
    requires Fresh(s, eid, inc)
    ensures RowsOf(Place(s.book, inc).book, Commit(s.d, eid, Place(s.book, inc).result))
  {
    forall o | InBook(Place(s.book, inc).book, o)
      ensures RowOf(o, Commit(s.d, eid, Place(s.book, inc).result))
    {
      PlacedRow(s, eid, inc, o);
    }
  }

  lemma PlacedPrice(s: State, eid: EventId, inc: Incoming)
    requires Fresh(s, eid, inc)
    ensures Place(s.book, inc).book.lastPrice == LastTradePrice(Commit(s.d, eid, Place(s.book, inc).result))
  {
    PlaceFills(s.book, inc);
  }

  lemma PlacedKeepsInv(s: State, eid: EventId, inc: Incoming)
    requires Fresh(s, eid, inc)
    ensures Inv(ApplyPlaced(s, eid, inc))
  {
    var p := Place(s.book, inc);
    var d' := Commit(s.d, eid, p.result);
    PlacedCommitsTrades(s, eid, inc);
    PlacedCommitsCloses(s, eid, inc);
    PlacedBook(s, eid, inc);
    CommitRows(s.d, eid, p.result);
    FillsUnmarked(s, eid, inc);
    CommitClosesLast(s.d, eid, p.result);
    assert EventsOk(d', s.issued);
  }

  lemma FillsUnmarked(s: State, eid: EventId, inc: Incoming)
    requires Fresh(s, eid, inc)
    ensures forall f, id :: f in Place(s.book, inc).result.fills && id in s.d.markers ==> !Names(f, id)
  {
    FillsOk(s, eid, inc);
    BookIdsUnmarked(s.book, s.d);
  }

  // ---------------------------------------------------------------- cancels

  lemma CancelTruthful(s: State, id: OrderId, c: Closed)
    requires Inv(s) && s.up && id !in s.d.markers
    requires
      var w := Without(s.book, id);
      Some(c) == if w.order.Some? then Some(CancelClose(w.order.value)) else CloseMissing(s.d, id)
    ensures c.orderId == id && id in s.d.orders && Truthful(c, s.d.trades, s.d.orders[id].qty)
  {
    var w := Without(s.book, id);
    WithoutEffects(s.book, id);
    if w.order.Some? {
      var o := w.order.value;
      RowBelowTotal(s.book, o);
    } else {
      RecordedIsFilled(s.d.trades, s.d.orders, id);
    }
  }

  lemma CancelCommits(d: Durable, eid: EventId, closed: Option<Closed>)
    requires DurableOk(d)
    requires closed.Some? ==>
      && closed.value.orderId in d.orders && closed.value.orderId !in d.markers
      && Truthful(closed.value, d.trades, d.orders[closed.value.orderId].qty)
    ensures DurableOk(Commit(d, eid, CancelResult(closed)))
  {
    var r := CancelResult(closed);
    var d' := Commit(d, eid, r);
    assert d'.trades == d.trades;
    CommitRead(d, eid, r);
    CommitRows(d, eid, r);
    CommitClosesLast(d, eid, r);
    if closed.Some? {
      ClosedIdsSnoc(Closes(d.outbox), closed.value);
      ClosedIdsSnoc([], closed.value);
    }
    assert ClosesOk(d');
    assert TradesOk(d');
  }

  lemma CancelKeepsInv(s: State, eid: EventId, id: OrderId, recovery: bool)
    requires Inv(s) && s.up && eid in s.issued && s.issued[eid] == CancelEvent(id)
    ensures Inv(HandleCancel(s, eid, id, recovery))
  {
    var w := Without(s.book, id);
    var closed := if w.order.Some? then Some(CancelClose(w.order.value)) else CloseMissing(s.d, id);
    if id !in s.d.markers {
      if closed.Some? { CancelTruthful(s, id, closed.value); }
      CancelCommits(s.d, eid, closed);
      CancelBook(s, eid, id, closed);
      assert EventsOk(Commit(s.d, eid, CancelResult(closed)), s.issued);
    }
  }

  lemma CancelBook(s: State, eid: EventId, id: OrderId, closed: Option<Closed>)
    requires Inv(s) && s.up && (closed.Some? ==> closed.value.orderId == id)
    ensures BookOk(Published(Without(s.book, id).book), Commit(s.d, eid, CancelResult(closed)))
  {
    WithoutEffects(s.book, id);
    PublishedSound(Without(s.book, id).book);
    NoNewTrades(s.d, eid, closed);
    CancelLedgered(s.book, id, s.d.trades);
    CancelRows(s, eid, id, closed);
  }

  lemma NoNewTrades(d: Durable, eid: EventId, closed: Option<Closed>)
    ensures Commit(d, eid, CancelResult(closed)).trades == d.trades
    ensures LastTradePrice(Commit(d, eid, CancelResult(closed))) == LastTradePrice(d)
  {
    assert d.trades + [] == d.trades;
  }

  lemma CancelLedgered(b: Book, id: OrderId, trades: seq<Fill>)
    requires Sound(b) && Ledgered(b, trades)
    ensures Ledgered(Published(Without(b, id).book), trades)
  {
    WithoutEffects(b, id);
    forall o | InBook(Published(Without(b, id).book), o)
      ensures o.qty + FilledQty(trades, o.orderId) == o.totalQty
    {
      assert InBook(Without(b, id).book, o);
    }
  }

  lemma CancelRows(s: State, eid: EventId, id: OrderId, closed: Option<Closed>)
    requires Inv(s) && s.up && (closed.Some? ==> closed.value.orderId == id)
    ensures RowsOf(Published(Without(s.book, id).book), Commit(s.d, eid, CancelResult(closed)))
  {
    var w := Without(s.book, id);
    var d' := Commit(s.d, eid, CancelResult(closed));
    WithoutEffects(s.book, id);
    if closed.Some? { ClosedIdsSnoc([], closed.value); }
    forall o | InBook(Published(w.book), o) ensures RowOf(o, d') {
      assert InBook(w.book, o);
      assert RowOf(o, s.d);
    }
  }

  // ---------------------------------------------------------------- the remaining steps

  lemma {:induction false} UnknownUntraded(trades: seq<Fill>, orders: map<OrderId, OrderRow>, id: OrderId)
    requires id !in orders && forall f :: f in trades ==> FillOk(f, orders)
    ensures FilledQty(trades, id) == 0
  {
    if trades != [] {
      assert FillOk(trades[0], orders);
      UnknownUntraded(trades[1..], orders, id);
    }
  }

  lemma AdmitKeepsInv(s: State, inc: Incoming, eid: EventId)
    requires Inv(s) && Enabled(s, Admit(inc, eid))
    ensures Inv(Next(s, Admit(inc, eid)))
  {
    var s' := Next(s, Admit(inc, eid));
    UnknownUntraded(s.d.trades, s.d.orders, inc.orderId);
    assert EventsOk(s'.d, s'.issued);
    assert TradesOk(s'.d) by {
      forall f | f in s.d.trades ensures FillOk(f, s'.d.orders) { assert FillOk(f, s.d.orders); }
    }
    assert ClosesOk(s'.d);
    assert RowsOk(s'.d);
    if s.up {
      forall o | InBook(s.book, o) ensures RowOf(o, s'.d) { assert RowOf(o, s.d); }
    }
  }

  lemma SettleKeepsInv(s: State, id: OrderId, filledQty: nat, status: RowStatus)
    requires Inv(s) && Enabled(s, SettleRow(id, filledQty, status))
    ensures Inv(Next(s, SettleRow(id, filledQty, status)))
  {
    var s' := Next(s, SettleRow(id, filledQty, status));
    forall f | f in s.d.trades ensures FillOk(f, s'.d.orders) { assert FillOk(f, s.d.orders); }
    assert TradesOk(s'.d);
    assert ClosesOk(s'.d);
    if s.up {
      forall o | InBook(s.book, o) ensures RowOf(o, s'.d) { assert RowOf(o, s.d); }
    }
  }

  lemma PlacedHandled(s: State, eid: EventId, inc: Incoming, recovery: bool)
    requires Inv(s) && s.up && eid in s.issued && s.issued[eid] == PlacedEvent(inc)
    requires eid !in s.seen && !Rematch(s, eid, recovery)
    ensures Inv(HandlePlaced(s, eid, inc, recovery))
  {
    if inc.orderId in BookIds(s.book) {
      ClaimKeepsInv(s, eid);
    } else if inc.orderId !in s.d.markers && eid !in s.d.claims && !(recovery && AlreadyApplied(s, PlacedEvent(inc))) {
      if recovery { UnnamedUntraded(s.d.trades, inc.orderId); }
      PlacedKeepsInv(s, eid, inc);
    }
  }

  lemma ClaimKeepsInv(s: State, eid: EventId)
    requires Inv(s) && eid in s.issued
    ensures Inv(Skip(s, eid).(d := s.d.(claims := s.d.claims + {eid})))
  {
  }

  lemma DeliverKeepsInv(s: State, eid: EventId, recovery: bool)
    requires Inv(s) && s.up && eid in s.issued && !Rematch(s, eid, recovery)
    ensures Inv(Deliver(s, eid, recovery))
  {
    PruneIdle(s);
    if eid !in s.seen {
      match s.issued[eid]
      case CancelEvent(id) => CancelKeepsInv(s, eid, id, recovery);
      case PlacedEvent(inc) => PlacedHandled(s, eid, inc, recovery);
    }
  }

  lemma {:induction false} UnnamedUntraded(trades: seq<Fill>, id: OrderId)
    requires !Named(trades, id)
    ensures FilledQty(trades, id) == 0
  {
    if trades != [] {
      assert !(trades[0].makerOrderId == id || trades[0].takerOrderId == id);
      forall i | 0 <= i < |trades[1..]| ensures trades[1..][i].makerOrderId != id && trades[1..][i].takerOrderId != id {
        assert trades[1..][i] == trades[i + 1];
      }
      UnnamedUntraded(trades[1..], id);
    }
  }
}
