/**
 * Runs whose restarts find every accepted order consumed: they never rematch,
 * and each restart rebuilds the book exactly.
 */
module EngineQuiet {
  import opened Common
  import opened OrderBook
  import opened OrderBookLaws
  import opened Engine
  import opened EngineSafety
  import opened EngineRestart
  import opened EngineRuns

  /** The placed event of an order has been claimed by a committed transaction. */
  ghost predicate Consumed(s: State, id: OrderId) {
    exists e :: e in s.issued && e in s.d.claims && s.issued[e].PlacedEvent? && s.issued[e].inc.orderId == id
  }

  /** A limit order the engine has accepted and not closed. */
  ghost predicate Owed(s: State, id: OrderId) {
    Consumed(s, id) && id in s.d.orders && s.d.orders[id].kind.Limit? && id !in s.d.markers
  }

  /** No accepted order is still waiting for its first consumption. */
  ghost predicate AllConsumed(s: State) {
    forall id :: Replayable(s.d, id) ==> Consumed(s, id)
  }

  ghost predicate Unconsumed(s: State) {
    forall id :: id in s.d.orders && id !in s.d.markers && !Consumed(s, id) ==>
      FilledQty(s.d.trades, id) == 0 && (s.up ==> id !in BookIds(s.book))
  }

  ghost predicate OwedRest(s: State) {
    s.up ==> forall id :: Owed(s, id) ==> id in BookIds(s.book)
  }

  ghost predicate OwedApart(s: State) {
    forall x, y :: Owed(s, x) && Owed(s, y) && s.d.orders[x].side == Buy && s.d.orders[y].side == Sell ==>
      s.d.orders[x].kind.price < s.d.orders[y].kind.price
  }

  ghost predicate Quiet(s: State) {
    Unconsumed(s) && OwedRest(s) && OwedApart(s)
  }

  /** While the engine is up, what it owes rests on an uncrossed book. */
  lemma RestingApart(s: State)
    requires Inv(s) && s.up && OwedRest(s)
    ensures OwedApart(s)
  {
    forall x, y | Owed(s, x) && Owed(s, y) && s.d.orders[x].side == Buy && s.d.orders[y].side == Sell
      ensures s.d.orders[x].kind.price < s.d.orders[y].kind.price
    {
      var p :| InBook(s.book, p) && p.orderId == x;
      var q :| InBook(s.book, q) && q.orderId == y;
      assert RowOf(p, s.d) && RowOf(q, s.d);
      RowSide(s.book, p);
      RowSide(s.book, q);
      PairApart(s.book, p, q);
    }
  }

  lemma RowSide(b: Book, o: Resting)
    requires Sound(b) && InBook(b, o)
    ensures o in SideOf(b, o.side)
  {
  }

  lemma PairApart(b: Book, p: Resting, q: Resting)
    requires Sound(b) && p in b.bids && q in b.asks
    ensures p.price < q.price
  {
  }

  /** The only placed event of an unconsumed order is itself unclaimed. */
  lemma UnclaimedUnconsumed(s: State, eid: EventId, inc: Incoming)
    requires Inv(s) && eid in s.issued && s.issued[eid] == PlacedEvent(inc)
    ensures Consumed(s, inc.orderId) <==> eid in s.d.claims
  {
  }

  lemma QuietNeverRematches(s: State, step: Step)
    requires Inv(s) && Quiet(s) && Enabled(s, step)
    ensures !Rematches(s, step)
  {
    if step.DeliverEvent? && s.issued[step.eid].PlacedEvent? {
      UnclaimedUnconsumed(s, step.eid, s.issued[step.eid].inc);
    }
  }

  // ---------------------------------------------------------------- deliveries

  lemma AppliedConsumes(s: State, eid: EventId, inc: Incoming, id: OrderId)
    requires Fresh(s, eid, inc)
    ensures Consumed(ApplyPlaced(s, eid, inc), id) <==> Consumed(s, id) || id == inc.orderId
  {
    var s' := ApplyPlaced(s, eid, inc);
    assert s'.d.claims == s.d.claims + {eid};
    if id == inc.orderId { assert eid in s'.d.claims; }
    if Consumed(s, id) {
      var e :| e in s.issued && e in s.d.claims && s.issued[e].PlacedEvent? && s.issued[e].inc.orderId == id;
      assert e in s'.d.claims;
    }
  }

  lemma AppliedQuiet(s: State, eid: EventId, inc: Incoming)
    requires Fresh(s, eid, inc) && Quiet(s)
    ensures Quiet(ApplyPlaced(s, eid, inc))
  {
    var p := Place(s.book, inc);
    var s' := ApplyPlaced(s, eid, inc);
    PlacedKeepsInv(s, eid, inc);
    PlaceExtends(s.book, inc, s.d.trades);
    PlaceIdsGrow(s.book, inc);
    PlaceCloses(s.book, inc);
    forall id ensures Consumed(s', id) <==> Consumed(s, id) || id == inc.orderId {
      AppliedConsumes(s, eid, inc, id);
    }
    assert BookIds(s'.book) == BookIds(p.book);
    assert OwedRest(s');
    RestingApart(s');
  }

  lemma CanceledQuiet(s: State, eid: EventId, id: OrderId, recovery: bool)
    requires Inv(s) && Quiet(s) && s.up && eid in s.issued && s.issued[eid] == CancelEvent(id)
    ensures Quiet(HandleCancel(s, eid, id, recovery))
  {
    var s' := HandleCancel(s, eid, id, recovery);
    CancelKeepsInv(s, eid, id, recovery);
    forall x ensures Consumed(s', x) <==> Consumed(s, x) {
      if Consumed(s, x) {
        var e :| e in s.issued && e in s.d.claims && s.issued[e].PlacedEvent? && s.issued[e].inc.orderId == x;
        assert e in s'.d.claims;
      }
    }
    WithoutEffects(s.book, id);
    CanceledRest(s, eid, id, recovery);
    assert s'.d.trades == s.d.trades;
    RestingApart(s');
  }

  lemma CanceledRest(s: State, eid: EventId, id: OrderId, recovery: bool)
    requires Inv(s) && s.up
    ensures
      var s' := HandleCancel(s, eid, id, recovery);
      && s.d.markers <= s'.d.markers
      && BookIds(s'.book) <= BookIds(s.book)
      && forall x :: x in BookIds(s.book) && x !in BookIds(s'.book) ==> x in s'.d.markers
  {
    WithoutEffects(s.book, id);
    var w := Without(s.book, id);
    assert BookIds(Published(w.book)) == BookIds(w.book);
    if w.order.Some? { ClosedIdsSnoc([], CancelClose(w.order.value)); }
  }

  lemma DeliveredQuiet(s: State, eid: EventId, recovery: bool)
    requires Inv(s) && Quiet(s) && s.up && eid in s.issued
    ensures Quiet(Deliver(s, eid, recovery))
  {
    PruneIdle(s);
    if eid !in s.seen {
      match s.issued[eid]
      case CancelEvent(id) => CanceledQuiet(s, eid, id, recovery);
      case PlacedEvent(inc) => PlacedQuiet(s, eid, inc, recovery);
    }
  }

  lemma PlacedQuiet(s: State, eid: EventId, inc: Incoming, recovery: bool)
    requires Inv(s) && Quiet(s) && s.up && eid in s.issued && s.issued[eid] == PlacedEvent(inc)
    ensures Quiet(HandlePlaced(s, eid, inc, recovery))
  {
    UnclaimedUnconsumed(s, eid, inc);
    if inc.orderId in BookIds(s.book) {
      BookIdsUnmarked(s.book, s.d);
      assert s.d.claims + {eid} == s.d.claims;
    } else if inc.orderId !in s.d.markers && eid !in s.d.claims {
      if !(recovery && AlreadyApplied(s, PlacedEvent(inc))) {
        AppliedQuiet(s, eid, inc);
      }
    }
  }

  // ---------------------------------------------------------------- restarts

  /** Rows that may stand on one book together: none of them crosses another. */
  ghost predicate Compatible(d: Durable, rows: set<OrderId>) {
    && (forall id :: id in rows ==> Replayable(d, id))
    && (forall x, y :: x in rows && y in rows && d.orders[x].side == Buy && d.orders[y].side == Sell ==>
          d.orders[x].kind.price < d.orders[y].kind.price)
  }

  lemma NoneCrosses(b: Book, d: Durable, all: set<OrderId>, id: OrderId)
    requires Listed(b, d) && BookIds(b) <= all && id in all && Compatible(d, all)
    ensures !CrossesRestored(b, d.orders[id].side, d.orders[id].kind.price)
  {
    forall o | InBook(b, o) ensures o.orderId in all && RowOf(o, d) {
      assert o.orderId in BookIds(b);
    }
    forall i | 0 <= i < |b.asks| ensures d.orders[id].side == Buy ==> d.orders[id].kind.price < b.asks[i].price {
      assert InBook(b, b.asks[i]);
    }
    forall i | 0 <= i < |b.bids| ensures d.orders[id].side == Sell ==> b.bids[i].price < d.orders[id].kind.price {
      assert InBook(b, b.bids[i]);
    }
  }

  function IdSet(rows: seq<OrderId>): set<OrderId> {
    set id | id in rows
  }

  lemma IdSetCons(rows: seq<OrderId>)
    requires rows != []
    ensures IdSet(rows) == {rows[0]} + IdSet(rows[1..])
  {
    assert forall id :: id in rows <==> id == rows[0] || id in rows[1..];
  }

  /** Compatible rows are all restored: nothing is quarantined, whatever the replay order. */
  lemma {:induction false} NothingQuarantined(b: Book, d: Durable, rows: seq<OrderId>, all: set<OrderId>)
    requires DurableOk(d) && Listed(b, d) && Unlisted(b, rows) && DistinctIds(rows)
    requires forall i :: 0 <= i < |rows| ==> Replayable(d, rows[i])
    requires BookIds(b) <= all && IdSet(rows) <= all && Compatible(d, all)
    ensures BookIds(RestoreAll(b, d, rows)) == BookIds(b) + IdSet(rows)
    decreases rows
  {
    if rows != [] {
      var id := rows[0];
      IdSetCons(rows);
      NoneCrosses(b, d, all, id);
      RestoreKeeps(b, d, id);
      NothingQuarantined(Restore(b, d, id), d, rows[1..], all);
    }
  }

  ghost predicate QuietRestart(s: State, rows: seq<OrderId>) {
    Inv(s) && Quiet(s) && ReplayOrder(s.d, rows) && AllConsumed(s)
  }

  lemma OwedReplayable(s: State, rows: seq<OrderId>)
    requires QuietRestart(s, rows)
    ensures forall id :: Owed(s, id) <==> id in rows
    ensures Compatible(s.d, IdSet(rows))
  {
    forall id ensures Owed(s, id) <==> id in rows {
      if id in rows {
        var i :| 0 <= i < |rows| && rows[i] == id;
        assert Replayable(s.d, rows[i]);
      }
    }
  }

  lemma RestoresOwed(s: State, rows: seq<OrderId>)
    requires QuietRestart(s, rows)
    ensures forall id :: id in BookIds(Bootstrap(s, rows).book) <==> Owed(s, id)
  {
    var start := CreateBook(LastTradePrice(s.d));
    OwedReplayable(s, rows);
    assert Listed(start, s.d);
    NothingQuarantined(start, s.d, rows, IdSet(rows));
    RestoreAllKeeps(start, s.d, rows);
    SortedSound(RestoreAll(start, s.d, rows));
  }

  lemma RestartQuiet(s: State, rows: seq<OrderId>)
    requires QuietRestart(s, rows)
    ensures Quiet(Bootstrap(s, rows))
  {
    var s' := Bootstrap(s, rows);
    RestoresOwed(s, rows);
    forall id ensures Consumed(s', id) <==> Consumed(s, id) {}
    assert OwedRest(s');
  }

  // ---------------------------------------------------------------- whole runs

  ghost predicate QuietStep(s: State, step: Step) {
    step.Restart? ==> AllConsumed(s)
  }

  lemma SameConsumed(s: State, s': State, eid: EventId, ev: OrderEvent)
    requires Inv(s) && eid !in s.issued && s'.issued == s.issued[eid := ev] && s'.d.claims == s.d.claims
    ensures forall id :: Consumed(s', id) <==> Consumed(s, id)
  {
    forall id ensures Consumed(s', id) <==> Consumed(s, id) {
      if Consumed(s, id) {
        var e :| e in s.issued && e in s.d.claims && s.issued[e].PlacedEvent? && s.issued[e].inc.orderId == id;
        assert e in s'.issued && s'.issued[e] == s.issued[e];
      }
    }
  }

  lemma StepKeepsQuiet(s: State, step: Step)
    requires Inv(s) && Quiet(s) && Enabled(s, step) && QuietStep(s, step)
    ensures Quiet(Next(s, step))
  {
    match step
    case Admit(inc, eid) => AdmittedQuiet(s, inc, eid);
    case AskCancel(id, eid) => SameConsumed(s, Next(s, step), eid, CancelEvent(id));
    case DeliverEvent(eid, recovery) => DeliveredQuiet(s, eid, recovery);
    case SettleRow(id, filledQty, status) => SettledQuiet(s, id, filledQty, status);
    case Crash => CrashedQuiet(s);
    case Restart(rows) => RestartQuiet(s, rows);
  }

  lemma SettledQuiet(s: State, id: OrderId, filledQty: nat, status: RowStatus)
    requires Inv(s) && Quiet(s) && Enabled(s, SettleRow(id, filledQty, status)) && QuietStep(s, SettleRow(id, filledQty, status))
    ensures Quiet(Next(s, SettleRow(id, filledQty, status)))
  {
    forall x ensures Consumed(Next(s, SettleRow(id, filledQty, status)), x) <==> Consumed(s, x) {}
  }

  lemma CrashedQuiet(s: State)
    requires Inv(s) && Quiet(s) && QuietStep(s, Crash)
    ensures Quiet(Next(s, Crash))
  {
    forall x ensures Consumed(Next(s, Crash), x) <==> Consumed(s, x) {}
  }

  lemma AdmittedQuiet(s: State, inc: Incoming, eid: EventId)
    requires Inv(s) && Quiet(s) && Enabled(s, Admit(inc, eid))
    ensures Quiet(Next(s, Admit(inc, eid)))
  {
    var s' := Next(s, Admit(inc, eid));
    SameConsumed(s, s', eid, PlacedEvent(inc));
    UnknownUntraded(s.d.trades, s.d.orders, inc.orderId);
    assert !Consumed(s, inc.orderId);
    if s.up { BookIdsUnmarked(s.book, s.d); }
  }

  ghost predicate QuietRun(s: State, steps: seq<Step>)
    requires Runs(s, steps)
    decreases steps
  {
    steps == [] || (QuietStep(s, steps[0]) && QuietRun(Next(s, steps[0]), steps[1..]))
  }

  lemma {:induction false} QuietRunSafe(s: State, steps: seq<Step>)
    requires Inv(s) && Quiet(s) && Runs(s, steps) && QuietRun(s, steps)
    ensures NeverRematches(s, steps)
    ensures Inv(After(s, steps)) && Quiet(After(s, steps))
    decreases steps
  {
    if steps != [] {
      QuietNeverRematches(s, steps[0]);
      StepKeepsInv(s, steps[0]);
      StepKeepsQuiet(s, steps[0]);
      QuietRunSafe(Next(s, steps[0]), steps[1..]);
    }
  }

  // ---------------------------------------------------------------- what a restart rebuilds

  /** The same orders on the same terms with the same quantity left; only arrival numbers may differ. */
  ghost predicate SameOrders(b: Book, c: Book) {
    && (forall o :: InBook(b, o) ==> exists p :: InBook(c, p) && o == p.(seqNo := o.seqNo))
    && (forall o :: InBook(c, o) ==> exists p :: InBook(b, p) && o == p.(seqNo := o.seqNo))
  }

  ghost predicate SameRecords(s: State, t: State) {
    && t.d.trades == s.d.trades && t.d.markers == s.d.markers && t.d.claims == s.d.claims
    && t.d.listedPrice == s.d.listedPrice
    && (forall e :: e in s.issued ==> e in t.issued && t.issued[e] == s.issued[e])
    && (forall id :: id in s.d.orders ==> id in t.d.orders && SameDeal(s.d.orders[id], t.d.orders[id]))
  }

  predicate SameDeal(x: OrderRow, y: OrderRow) {
    x.accountId == y.accountId && x.side == y.side && x.kind == y.kind && x.qty == y.qty
  }

  lemma DownKeepsRecords(s: State, step: Step)
    requires Inv(s) && !s.up && Enabled(s, step) && !step.Restart?
    ensures SameRecords(s, Next(s, step)) && !Next(s, step).up
  {
  }

  lemma SameRecordsTrans(s: State, t: State, u: State)
    requires SameRecords(s, t) && SameRecords(t, u)
    ensures SameRecords(s, u)
  {
  }

  predicate NoRestart(steps: seq<Step>) {
    forall i :: 0 <= i < |steps| ==> !steps[i].Restart?
  }

  lemma {:induction false} DownTime(s: State, steps: seq<Step>)
    requires Inv(s) && Quiet(s) && !s.up && Runs(s, steps) && NoRestart(steps)
    ensures Inv(After(s, steps)) && Quiet(After(s, steps)) && SameRecords(s, After(s, steps))
    decreases steps
  {
    if steps != [] {
      var t := Next(s, steps[0]);
      StepKeepsInv(s, steps[0]);
      StepKeepsQuiet(s, steps[0]);
      DownKeepsRecords(s, steps[0]);
      DownTime(t, steps[1..]);
      SameRecordsTrans(s, t, After(t, steps[1..]));
    }
  }

  lemma OwedIsResting(s: State, id: OrderId)
    requires Inv(s) && Quiet(s) && s.up
    ensures Owed(s, id) <==> id in BookIds(s.book)
  {
    if id in BookIds(s.book) {
      var o :| InBook(s.book, o) && o.orderId == id;
      assert RowOf(o, s.d);
    }
  }

  lemma SameOwed(s: State, t: State, id: OrderId)
    requires Inv(s) && Inv(t) && SameRecords(s, t)
    ensures Owed(s, id) <==> Owed(t, id)
  {
    if Owed(t, id) {
      var e :| e in t.issued && e in t.d.claims && t.issued[e].PlacedEvent? && t.issued[e].inc.orderId == id;
      assert e in s.issued && t.issued[e] == s.issued[e];
      assert Consumed(s, id);
      assert EventOrder(s.issued[e]) in s.d.orders;
    }
    if Owed(s, id) {
      var e :| e in s.issued && e in s.d.claims && s.issued[e].PlacedEvent? && s.issued[e].inc.orderId == id;
      assert e in t.issued && e in t.d.claims;
    }
  }

  /** Two rows of one order in books over the same records agree on everything but arrival. */
  lemma SameRowTerms(b: Book, d: Durable, c: Book, e: Durable, o: Resting, p: Resting)
    requires BookOk(b, d) && BookOk(c, e) && d.trades == e.trades
    requires InBook(b, o) && InBook(c, p) && o.orderId == p.orderId
    requires SameDeal(d.orders[o.orderId], e.orders[o.orderId])
    ensures o == p.(seqNo := o.seqNo)
  {
    assert RowOf(o, d) && RowOf(p, e);
  }

  lemma RowFound(b: Book, id: OrderId) returns (o: Resting)
    requires id in BookIds(b)
    ensures InBook(b, o) && o.orderId == id
  {
    o :| InBook(b, o) && o.orderId == id;
  }

  /**
   * A crash, anything that happens while the engine is down, and a restart
   * that finds every accepted order consumed: the book is back with exactly the
   * orders, sides, prices and remaining quantities it had, and the last price.
   */
  lemma RestartRestores(s: State, down: seq<Step>, rows: seq<OrderId>)
    requires Inv(s) && Quiet(s) && s.up
    requires Runs(Next(s, Crash), down) && NoRestart(down)
    requires
      var t := After(Next(s, Crash), down);
      ReplayOrder(t.d, rows) && AllConsumed(t)
    ensures
      var t := After(Next(s, Crash), down);
      var b := Bootstrap(t, rows).book;
      && Sound(b) && SameOrders(s.book, b) && b.lastPrice == s.book.lastPrice
  {
    var c := Next(s, Crash);
    StepKeepsQuiet(s, Crash);
    assert Inv(c) && SameRecords(s, c);
    DownTime(c, down);
    var t := After(c, down);
    SameRecordsTrans(s, c, t);
    var b := Bootstrap(t, rows).book;
    BootstrapSound(t, rows);
    RestoresOwed(t, rows);
    forall o | InBook(s.book, o) ensures exists p :: InBook(b, p) && o == p.(seqNo := o.seqNo) {
      RestoredTwin(s, t, b, o);
    }
    forall p | InBook(b, p) ensures exists o :: InBook(s.book, o) && p == o.(seqNo := p.seqNo) {
      LostTwin(s, t, b, p);
    }
  }

  ghost predicate Rebuilt(s: State, t: State, b: Book) {
    && Inv(s) && Quiet(s) && s.up && Inv(t) && SameRecords(s, t) && BookOk(b, t.d)
    && forall id :: id in BookIds(b) <==> Owed(t, id)
  }

  lemma RestoredTwin(s: State, t: State, b: Book, o: Resting)
    requires Rebuilt(s, t, b) && InBook(s.book, o)
    ensures exists p :: InBook(b, p) && o == p.(seqNo := o.seqNo)
  {
    RowQty(s.book, o);
    OwedIsResting(s, o.orderId);
    SameOwed(s, t, o.orderId);
    var p := RowFound(b, o.orderId);
    SameRowTerms(s.book, s.d, b, t.d, o, p);
  }

  lemma LostTwin(s: State, t: State, b: Book, p: Resting)
    requires Rebuilt(s, t, b) && InBook(b, p)
    ensures exists o :: InBook(s.book, o) && p == o.(seqNo := p.seqNo)
  {
    RowQty(b, p);
    SameOwed(s, t, p.orderId);
    OwedIsResting(s, p.orderId);
    var o := RowFound(s.book, p.orderId);
    SameRowTerms(s.book, s.d, b, t.d, o, p);
  }

  /** From the start: quiet runs never rematch, so everything `EngineSafe` promises holds of them. */
  lemma QuietRunsSafe(listedPrice: Option<int>, steps: seq<Step>)
    requires Runs(Init(listedPrice), steps) && QuietRun(Init(listedPrice), steps)
    ensures NeverRematches(Init(listedPrice), steps)
    ensures Inv(After(Init(listedPrice), steps)) && Quiet(After(Init(listedPrice), steps))
  {
    InitInv(listedPrice);
    assert Quiet(Init(listedPrice));
    QuietRunSafe(Init(listedPrice), steps);
  }
}
