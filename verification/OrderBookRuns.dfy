/**
 * Whole runs of the book: any sequence of placements under fresh ids and of
 * cancels, with the history of fills and closes they produce.
 */
module OrderBookRuns {
  import opened Common
  import opened OrderBook
  import opened OrderBookLaws

  datatype Op = PlaceOp(inc: Incoming) | CancelOp(id: OrderId)

  /** The book, the quantity of every order ever placed, and everything recorded so far. */
  datatype Tape = Tape(book: Book, orders: map<OrderId, nat>, fills: seq<Fill>, closes: seq<Closed>)

  predicate Enabled(t: Tape, op: Op) {
    op.PlaceOp? ==> op.inc.qty > 0 && op.inc.orderId !in t.orders
  }

  function Step(t: Tape, op: Op): Tape {
    match op
    case PlaceOp(inc) =>
      var p := Place(t.book, inc);
      Tape(p.book, t.orders[inc.orderId := inc.qty], t.fills + p.result.fills, t.closes + p.result.closedOrders)
    case CancelOp(id) =>
      var w := Without(t.book, id);
      t.(book := w.book, closes := if w.order.Some? then t.closes + [CancelClose(w.order.value)] else t.closes)
  }

  predicate AllEnabled(t: Tape, ops: seq<Op>)
    decreases ops
  {
    ops == [] || (Enabled(t, ops[0]) && AllEnabled(Step(t, ops[0]), ops[1..]))
  }

  function Run(t: Tape, ops: seq<Op>): Tape
    decreases ops
  {
    if ops == [] then t else Run(Step(t, ops[0]), ops[1..])
  }

  function Start(lastPrice: Option<int>): Tape {
    Tape(CreateBook(lastPrice), map[], [], [])
  }

  ghost predicate RowsKnown(t: Tape) {
    && (forall o :: InBook(t.book, o) ==> o.orderId in t.orders && o.totalQty == t.orders[o.orderId])
    && BookIds(t.book) <= t.orders.Keys
  }

  predicate ClosesExact(t: Tape) {
    && DistinctCloses(t.closes)
    && ClosedIds(t.closes) == t.orders.Keys - BookIds(t.book)
    && (forall c :: c in t.closes ==> c.orderId in t.orders && Truthful(c, t.fills, t.orders[c.orderId]))
  }

  ghost predicate FillsKnown(t: Tape) {
    && (forall id :: id !in t.orders ==> FilledQty(t.fills, id) == 0)
    && (forall f :: f in t.fills ==> f.makerAccountId != f.takerAccountId)
  }

  ghost predicate Inv(t: Tape) {
    Sound(t.book) && Ledgered(t.book, t.fills) && RowsKnown(t) && ClosesExact(t) && FillsKnown(t)
  }

  lemma PlaceKeepsInv(t: Tape, inc: Incoming)
    requires Inv(t) && Enabled(t, PlaceOp(inc))
    ensures Inv(Step(t, PlaceOp(inc)))
  {
    PlaceSound(t.book, inc);
    PlaceLedgers(t, inc);
    PlaceKeepsRows(t, inc);
    PlaceKeepsCloses(t, inc);
    PlaceKeepsFills(t, inc);
  }

  lemma PlaceLedgers(t: Tape, inc: Incoming)
    requires Inv(t) && Enabled(t, PlaceOp(inc))
    ensures Ledgered(Step(t, PlaceOp(inc)).book, Step(t, PlaceOp(inc)).fills)
  {
    PlaceExtends(t.book, inc, t.fills);
  }

  lemma PlaceKeepsFills(t: Tape, inc: Incoming)
    requires Inv(t) && Enabled(t, PlaceOp(inc))
    ensures FillsKnown(Step(t, PlaceOp(inc)))
  {
    var p := Place(t.book, inc);
    PlaceExtends(t.book, inc, t.fills);
    PlaceFills(t.book, inc);
    forall f | f in t.fills + p.result.fills ensures f.makerAccountId != f.takerAccountId {
      if f in p.result.fills { assert ByTaker(f, inc); }
    }
  }

  lemma PlaceKeepsRows(t: Tape, inc: Incoming)
    requires Inv(t) && Enabled(t, PlaceOp(inc))
    ensures RowsKnown(Step(t, PlaceOp(inc)))
  {
    var t' := Step(t, PlaceOp(inc));
    forall o | InBook(t'.book, o) ensures o.orderId in t'.orders && o.totalQty == t'.orders[o.orderId] {
      PlaceRows(t.book, inc, o);
    }
  }

  lemma PlaceKeepsCloses(t: Tape, inc: Incoming)
    requires Inv(t) && Enabled(t, PlaceOp(inc))
    ensures ClosesExact(Step(t, PlaceOp(inc)))
  {
    var p := Place(t.book, inc);
    var t' := Step(t, PlaceOp(inc));
    PlaceCloses(t.book, inc);
    PlaceKeepsRows(t, inc);
    ClosesAppend(t.closes, p.result.closedOrders);
    PlaceIdsGrow(t.book, inc);
    forall c | c in t'.closes ensures c.orderId in t'.orders && Truthful(c, t'.fills, t'.orders[c.orderId]) {
      PlaceKeepsClose(t, inc, c);
    }
  }

  lemma PlaceKeepsClose(t: Tape, inc: Incoming, c: Closed)
    requires Inv(t) && Enabled(t, PlaceOp(inc)) && c in Step(t, PlaceOp(inc)).closes
    ensures
      var t' := Step(t, PlaceOp(inc));
      c.orderId in t'.orders && Truthful(c, t'.fills, t'.orders[c.orderId])
  {
    PlaceExtends(t.book, inc, t.fills);
    if c in t.closes {
      assert c.orderId in ClosedIds(t.closes);
    } else if c.orderId != inc.orderId {
      PlaceCloses(t.book, inc);
      var o :| InBook(t.book, o) && c == MakerClose(o);
    }
  }

  lemma CancelKeepsInv(t: Tape, id: OrderId)
    requires Inv(t)
    ensures Inv(Step(t, CancelOp(id)))
  {
    var t' := Step(t, CancelOp(id));
    WithoutEffects(t.book, id);
    assert Sound(t'.book);
    assert Ledgered(t'.book, t'.fills);
    assert FillsKnown(t');
    CancelKeepsRows(t, id);
    CancelKeepsCloses(t, id);
  }

  lemma CancelKeepsRows(t: Tape, id: OrderId)
    requires Inv(t)
    ensures RowsKnown(Step(t, CancelOp(id)))
  {
    WithoutEffects(t.book, id);
  }

  lemma CancelKeepsCloses(t: Tape, id: OrderId)
    requires Inv(t)
    ensures ClosesExact(Step(t, CancelOp(id)))
  {
    WithoutEffects(t.book, id);
    var w := Without(t.book, id);
    if w.order.Some? {
      CanceledTruthfully(t, w.order.value);
      OneMoreClose(t, Step(t, CancelOp(id)), CancelClose(w.order.value));
    } else {
      assert BookIds(w.book) == BookIds(t.book);
    }
  }

  lemma CanceledTruthfully(t: Tape, o: Resting)
    requires Inv(t) && InBook(t.book, o)
    ensures o.orderId in BookIds(t.book) && o.orderId in t.orders
    ensures Truthful(CancelClose(o), t.fills, t.orders[o.orderId])
  {
    RowQty(t.book, o);
    RowBelowTotal(t.book, o);
  }

  lemma OneMoreClose(t: Tape, after: Tape, c: Closed)
    requires ClosesExact(t) && after.orders == t.orders && after.fills == t.fills && after.closes == t.closes + [c]
    requires c.orderId in t.orders && Truthful(c, t.fills, t.orders[c.orderId])
    requires c.orderId in BookIds(t.book) && BookIds(after.book) == BookIds(t.book) - {c.orderId}
    ensures ClosesExact(after)
  {
    ClosedIdsSnoc(t.closes, c);
  }

  lemma StepKeepsInv(t: Tape, op: Op)
    requires Inv(t) && Enabled(t, op)
    ensures Inv(Step(t, op))
  {
    match op
    case PlaceOp(inc) => PlaceKeepsInv(t, inc);
    case CancelOp(id) => CancelKeepsInv(t, id);
  }

  /** Every run keeps the book sound and its history exact. */
  lemma {:induction false} EveryRun(t: Tape, ops: seq<Op>)
    requires Inv(t) && AllEnabled(t, ops)
    ensures Inv(Run(t, ops))
    decreases ops
  {
    if ops != [] {
      StepKeepsInv(t, ops[0]);
      EveryRun(Step(t, ops[0]), ops[1..]);
    }
  }

  /** How often, and for how much, a history closes an order short of its quantity. */
  function CloseCount(closes: seq<Closed>, id: OrderId): nat {
    if closes == [] then 0 else (if closes[0].orderId == id then 1 else 0) + CloseCount(closes[1..], id)
  }

  function CanceledQty(closes: seq<Closed>, id: OrderId, qty: nat): int {
    if closes == [] then 0
    else (if closes[0].orderId == id then qty - closes[0].filledQty else 0) + CanceledQty(closes[1..], id, qty)
  }

  lemma {:induction false} NoCloses(closes: seq<Closed>, id: OrderId, qty: nat)
    requires id !in ClosedIds(closes)
    ensures CloseCount(closes, id) == 0 && CanceledQty(closes, id, qty) == 0
  {
    if closes != [] {
      assert closes[0] in closes;
      NoCloses(closes[1..], id, qty);
    }
  }

  lemma {:induction false} OneClose(closes: seq<Closed>, c: Closed, qty: nat)
    requires DistinctCloses(closes) && c in closes
    ensures CloseCount(closes, c.orderId) == 1 && CanceledQty(closes, c.orderId, qty) == qty - c.filledQty
  {
    if closes[0] == c {
      forall d | d in closes[1..] ensures d.orderId != c.orderId {
        var k :| 0 <= k < |closes[1..]| && closes[1..][k] == d;
        assert d == closes[k + 1];
      }
      NoCloses(closes[1..], c.orderId, qty);
    } else {
      var k :| 0 <= k < |closes| && closes[k] == c;
      assert closes[1..][k - 1] == c;
      OneClose(closes[1..], c, qty);
    }
  }

  lemma Balance(t: Tape, id: OrderId)
    requires Inv(t) && id in t.orders
    ensures t.orders[id] == FilledQty(t.fills, id) + BookQty(t.book, id) + CanceledQty(t.closes, id, t.orders[id])
    ensures CloseCount(t.closes, id) == (if id in BookIds(t.book) then 0 else 1)
    ensures CanceledQty(t.closes, id, t.orders[id]) >= 0
  {
    if id in BookIds(t.book) {
      var o :| InBook(t.book, o) && o.orderId == id;
      RowQty(t.book, o);
      NoCloses(t.closes, id, t.orders[id]);
    } else {
      AbsentQty(t.book, id);
      assert id in ClosedIds(t.closes);
      var c :| c in t.closes && c.orderId == id;
      OneClose(t.closes, c, t.orders[id]);
    }
  }

  lemma StartInv(lastPrice: Option<int>)
    ensures Inv(Start(lastPrice))
  {
  }

  /**
   * Conservation over every run: an order's quantity is what it filled, plus
   * what rests, plus what its one close canceled; it has a close exactly when
   * it no longer rests.
   */
  lemma Conservation(lastPrice: Option<int>, ops: seq<Op>, id: OrderId)
    requires AllEnabled(Start(lastPrice), ops) && id in Run(Start(lastPrice), ops).orders
    ensures
      var t := Run(Start(lastPrice), ops);
      && t.orders[id] == FilledQty(t.fills, id) + BookQty(t.book, id) + CanceledQty(t.closes, id, t.orders[id])
      && CloseCount(t.closes, id) == (if id in BookIds(t.book) then 0 else 1)
      && CanceledQty(t.closes, id, t.orders[id]) >= 0
  {
    StartInv(lastPrice);
    EveryRun(Start(lastPrice), ops);
    Balance(Run(Start(lastPrice), ops), id);
  }

  /** Over every run the book is ordered by price then arrival, uncrossed, and nobody trades with themselves. */
  lemma Orderly(lastPrice: Option<int>, ops: seq<Op>)
    requires AllEnabled(Start(lastPrice), ops)
    ensures
      var t := Run(Start(lastPrice), ops);
      && Sorted(t.book.bids, Buy) && Sorted(t.book.asks, Sell)
      && (t.book.bids != [] && t.book.asks != [] ==> t.book.bids[0].price < t.book.asks[0].price)
      && (forall f :: f in t.fills ==> f.makerAccountId != f.takerAccountId)
  {
    StartInv(lastPrice);
    EveryRun(Start(lastPrice), ops);
  }
}
