/**
 * What the engine's records say about the orders they name: accounts, sides and
 * prices are those the orders were placed with, on every run.
 */
module EngineNames {
  import opened Common
  import opened OrderBook
  import opened OrderBookLaws
  import opened OrderBookShares
  import opened Engine
  import opened EngineSafety
  import opened EngineRuns

  /** A price within what an order may trade at. */
  predicate Within(row: OrderRow, price: int) {
    match Bound(row.kind)
    case None => true
    case Some(p) => if row.side == Buy then price <= p else price >= p
  }

  predicate FillNames(f: Fill, orders: map<OrderId, OrderRow>) {
    && f.qty > 0 && f.makerOrderId in orders && f.takerOrderId in orders
    && f.makerAccountId == orders[f.makerOrderId].accountId && f.takerAccountId == orders[f.takerOrderId].accountId
    && orders[f.makerOrderId].kind == Limit(f.price) && Within(orders[f.takerOrderId], f.price)
  }

  predicate CloseNames(c: Closed, orders: map<OrderId, OrderRow>) {
    c.orderId in orders && c.accountId == orders[c.orderId].accountId && c.side == orders[c.orderId].side
  }

  predicate NamesOk(d: Durable) {
    && (forall f :: f in d.trades ==> FillNames(f, d.orders))
    && (forall c :: c in Closes(d.outbox) ==> CloseNames(c, d.orders))
  }

  lemma FillsNameTheirOrders(s: State, eid: EventId, inc: Incoming, f: Fill)
    requires Fresh(s, eid, inc) && f in Place(s.book, inc).result.fills
    ensures FillNames(f, s.d.orders)
  {
    var other := Opposite(inc.side);
    var rows := SideOf(s.book, other);
    PlaceFills(s.book, inc);
    LiveSides(s.book, other);
    MatchFillsPositive(rows, inc, inc.qty, s.book.lastPrice);
    var p :| p in rows && p.orderId == f.makerOrderId && p.accountId == f.makerAccountId && p.price == f.price;
    assert InBook(s.book, p);
    assert RowOf(p, s.d);
    assert ByTaker(f, inc);
    assert MatchesRow(inc, s.d.orders[inc.orderId]);
  }

  lemma LiveSides(b: Book, side: Side)
    requires Sound(b)
    ensures Live(SideOf(b, side))
  {
  }

  lemma ClosesNameTheirOrders(s: State, eid: EventId, inc: Incoming, c: Closed)
    requires Fresh(s, eid, inc) && c in Place(s.book, inc).result.closedOrders
    ensures CloseNames(c, s.d.orders)
  {
    PlaceCloses(s.book, inc);
    assert ExactClose(c, s.book, inc, Place(s.book, inc).result.fills);
    if c.orderId == inc.orderId {
      assert MatchesRow(inc, s.d.orders[inc.orderId]);
    } else {
      var o :| InBook(s.book, o) && c == MakerClose(o);
      assert RowOf(o, s.d);
    }
  }

  lemma PlacedNames(s: State, eid: EventId, inc: Incoming)
    requires Fresh(s, eid, inc) && NamesOk(s.d)
    ensures NamesOk(Commit(s.d, eid, Place(s.book, inc).result))
  {
    var result := Place(s.book, inc).result;
    CommitRead(s.d, eid, result);
    forall f | f in result.fills ensures FillNames(f, s.d.orders) { FillsNameTheirOrders(s, eid, inc, f); }
    forall c | c in result.closedOrders ensures CloseNames(c, s.d.orders) { ClosesNameTheirOrders(s, eid, inc, c); }
  }

  lemma CanceledNames(s: State, id: OrderId)
    requires Inv(s) && s.up
    ensures
      var w := Without(s.book, id);
      var closed := if w.order.Some? then Some(CancelClose(w.order.value)) else CloseMissing(s.d, id);
      closed.Some? ==> CloseNames(closed.value, s.d.orders)
  {
    WithoutEffects(s.book, id);
    var w := Without(s.book, id);
    if w.order.Some? {
      assert RowOf(w.order.value, s.d);
    }
  }

  lemma CancelNames(s: State, eid: EventId, id: OrderId, recovery: bool)
    requires Inv(s) && s.up && NamesOk(s.d)
    ensures NamesOk(HandleCancel(s, eid, id, recovery).d)
  {
    CanceledNames(s, id);
    var w := Without(s.book, id);
    var closed := if w.order.Some? then Some(CancelClose(w.order.value)) else CloseMissing(s.d, id);
    CommitRead(s.d, eid, CancelResult(closed));
  }

  lemma PlacedHandledNames(s: State, eid: EventId, inc: Incoming, recovery: bool)
    requires Inv(s) && s.up && eid in s.issued && s.issued[eid] == PlacedEvent(inc) && NamesOk(s.d)
    requires eid !in s.seen && !Rematch(s, eid, recovery)
    ensures NamesOk(HandlePlaced(s, eid, inc, recovery).d)
  {
    if inc.orderId !in BookIds(s.book) && inc.orderId !in s.d.markers && eid !in s.d.claims && !(recovery && AlreadyApplied(s, PlacedEvent(inc))) {
      if recovery { UnnamedUntraded(s.d.trades, inc.orderId); }
      PlacedNames(s, eid, inc);
    }
  }

  predicate SamePlacer(row: OrderRow, after: OrderRow) {
    after.accountId == row.accountId && after.side == row.side && after.kind == row.kind
  }

  /** Rows may be added, or advanced by settlement; who placed what stays. */
  predicate SamePlacers(orders: map<OrderId, OrderRow>, after: map<OrderId, OrderRow>) {
    forall id :: id in orders ==> id in after && SamePlacer(orders[id], after[id])
  }

  lemma NamesStay(d: Durable, after: Durable)
    requires NamesOk(d) && after.trades == d.trades && after.outbox == d.outbox && SamePlacers(d.orders, after.orders)
    ensures NamesOk(after)
  {
    forall f | f in d.trades ensures FillNames(f, after.orders) { assert FillNames(f, d.orders); }
    forall c | c in Closes(d.outbox) ensures CloseNames(c, after.orders) { assert CloseNames(c, d.orders); }
  }

  lemma StepKeepsNames(s: State, step: Step)
    requires Inv(s) && NamesOk(s.d) && Enabled(s, step) && !Rematches(s, step)
    ensures NamesOk(Next(s, step).d)
  {
    match step
    case DeliverEvent(eid, recovery) =>
      PruneIdle(s);
      if eid !in s.seen {
        match s.issued[eid]
        case CancelEvent(id) => CancelNames(s, eid, id, recovery);
        case PlacedEvent(inc) => PlacedHandledNames(s, eid, inc, recovery);
      }
    case Admit(inc, eid) => NamesStay(s.d, Next(s, step).d);
    case SettleRow(id, filledQty, status) => NamesStay(s.d, Next(s, step).d);
    case AskCancel(id, eid) =>
    case Crash =>
    case Restart(rows) =>
  }

  lemma {:induction false} RunKeepsNames(s: State, steps: seq<Step>)
    requires Inv(s) && NamesOk(s.d) && Runs(s, steps) && NeverRematches(s, steps)
    ensures NamesOk(After(s, steps).d)
    decreases steps
  {
    if steps != [] {
      StepKeepsNames(s, steps[0]);
      StepKeepsInv(s, steps[0]);
      RunKeepsNames(Next(s, steps[0]), steps[1..]);
    }
  }
}
