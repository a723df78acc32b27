/**
 * The price-time order book of one symbol (apps/matching-engine/src/orderbook.ts).
 *
 * `Orderbook` is the mutable book with its matching loop. `Place`, `Insert` and
 * `Without` say on values what its methods do; everything proved about runs of
 * the book is proved about those functions.
 */
module OrderBook {
  import opened Common

  datatype Kind =
    | Limit(price: int)
    | Market(bound: Option<int>)   // a bound protects the order's reservation

  datatype Incoming = Incoming(orderId: OrderId, accountId: AccountId, side: Side, kind: Kind, qty: nat)

  datatype Resting = Resting(
    orderId: OrderId,
    accountId: AccountId,
    side: Side,
    price: int,
    qty: nat,        // what is left
    totalQty: nat,   // what was ordered
    seqNo: nat)      // arrival number, the time priority

  datatype Fill = Fill(
    price: int,
    qty: nat,
    makerOrderId: OrderId,
    makerAccountId: AccountId,
    takerOrderId: OrderId,
    takerAccountId: AccountId,
    takerSide: Side)

  datatype CloseStatus = Filled | Canceled

  datatype Closed = Closed(orderId: OrderId, accountId: AccountId, side: Side, filledQty: int, status: CloseStatus)

  datatype MatchResult = MatchResult(fills: seq<Fill>, restingQty: nat, canceledQty: nat, closedOrders: seq<Closed>)

  datatype Book = Book(bids: seq<Resting>, asks: seq<Resting>, lastPrice: Option<int>, seqNo: nat)

  function CreateBook(lastPrice: Option<int>): Book {
    Book([], [], lastPrice, 0)
  }

  function SideOf(b: Book, side: Side): seq<Resting> {
    if side == Buy then b.bids else b.asks
  }

  function WithSide(b: Book, side: Side, list: seq<Resting>): Book {
    if side == Buy then b.(bids := list) else b.(asks := list)
  }

  /** Quantity still executable after a restart: trades may be ahead of the settled order row. */
  function RemainingRestingQty(totalQty: int, persistedFilledQty: int, recordedTradeQty: int): (left: int)
    ensures left >= 0
    ensures left > 0 ==> left + persistedFilledQty <= totalQty && left + recordedTradeQty <= totalQty
    ensures left + persistedFilledQty >= totalQty || left + recordedTradeQty >= totalQty
  {
    Max(0, totalQty - Max(persistedFilledQty, recordedTradeQty))
  }

  // ---------------------------------------------------------------- matching

  function Bound(kind: Kind): Option<int> {
    match kind
    case Limit(p) => Some(p)
    case Market(b) => b
  }

  predicate Crosses(inc: Incoming, maker: Resting) {
    match Bound(inc.kind)
    case None => true
    case Some(p) => if inc.side == Buy then maker.price <= p else maker.price >= p
  }

  function FillOf(maker: Resting, inc: Incoming, qty: nat): Fill {
    Fill(maker.price, qty, maker.orderId, maker.accountId, inc.orderId, inc.accountId, inc.side)
  }

  function MakerClose(maker: Resting): Closed {
    Closed(maker.orderId, maker.accountId, maker.side, maker.totalQty, Filled)
  }

  function TakerClose(inc: Incoming, filledQty: nat, status: CloseStatus): Closed {
    Closed(inc.orderId, inc.accountId, inc.side, filledQty, status)
  }

  /** Where the matching loop ends: what it left of the other side, and what it recorded. */
  datatype Outcome = Outcome(
    opposite: seq<Resting>,
    fills: seq<Fill>,
    closed: seq<Closed>,
    remaining: nat,
    selfHit: bool,
    lastPrice: Option<int>)

  function Prepend(fills: seq<Fill>, closed: seq<Closed>, o: Outcome): Outcome {
    o.(fills := fills + o.fills, closed := closed + o.closed)
  }

  /** The matching loop, maker by maker from the front of the other side. */
  function Match(opp: seq<Resting>, inc: Incoming, remaining: nat, last: Option<int>): (m: Outcome)
    ensures m.remaining <= remaining
    ensures m.selfHit ==> m.remaining > 0
  {
    if remaining == 0 || opp == [] || !Crosses(inc, opp[0]) then
      Outcome(opp, [], [], remaining, false, last)
    else if opp[0].accountId == inc.accountId then
      Outcome(opp, [], [], remaining, true, last)
    else
      var maker := opp[0];
      if remaining < maker.qty then
        Outcome([maker.(qty := maker.qty - remaining)] + opp[1..], [FillOf(maker, inc, remaining)], [], 0, false, Some(maker.price))
      else
        Prepend([FillOf(maker, inc, maker.qty)], [MakerClose(maker)],
                Match(opp[1..], inc, remaining - maker.qty, Some(maker.price)))
  }

  lemma MatchStep(opp: seq<Resting>, inc: Incoming, remaining: nat, last: Option<int>, fills: seq<Fill>, closed: seq<Closed>)
    requires remaining > 0 && opp != [] && Crosses(inc, opp[0]) && opp[0].accountId != inc.accountId
    ensures
      var maker := opp[0];
      var m := Match(opp, inc, remaining, last);
      if remaining < maker.qty then
        Prepend(fills, closed, m) ==
        Prepend(fills + [FillOf(maker, inc, remaining)], closed,
                Match([maker.(qty := maker.qty - remaining)] + opp[1..], inc, 0, Some(maker.price)))
      else
        Prepend(fills, closed, m) ==
        Prepend(fills + [FillOf(maker, inc, maker.qty)], closed + [MakerClose(maker)],
                Match(opp[1..], inc, remaining - maker.qty, Some(maker.price)))
  {
    var maker := opp[0];
    if remaining >= maker.qty {
      var n := Match(opp[1..], inc, remaining - maker.qty, Some(maker.price));
      assert fills + ([FillOf(maker, inc, maker.qty)] + n.fills) == fills + [FillOf(maker, inc, maker.qty)] + n.fills;
      assert closed + ([MakerClose(maker)] + n.closed) == closed + [MakerClose(maker)] + n.closed;
    }
  }

  /** Position at which a new order of `side` at `price` rests: behind every better or equal price. */
  function InsertPos(list: seq<Resting>, side: Side, price: int): (i: nat)
    ensures i <= |list|
  {
    if list == [] || !(Better(side, list[0].price, price) || list[0].price == price) then 0
    else 1 + InsertPos(list[1..], side, price)
  }

  function Insert(list: seq<Resting>, o: Resting): seq<Resting> {
    var i := InsertPos(list, o.side, o.price);
    list[..i] + [o] + list[i..]
  }

  predicate Better(side: Side, p: int, q: int) {
    if side == Buy then p > q else p < q
  }

  datatype Placed = Placed(book: Book, result: MatchResult)

  function RestingOf(inc: Incoming, remaining: nat, seqNo: nat): Resting
    requires inc.kind.Limit?
  {
    Resting(inc.orderId, inc.accountId, inc.side, inc.kind.price, remaining, inc.qty, seqNo)
  }

  /** What becomes of the incoming order once the loop has ended. */
  function Finish(b: Book, inc: Incoming, m: Outcome): Placed
    requires m.remaining <= inc.qty
  {
    var matched := WithSide(b, Opposite(inc.side), m.opposite).(lastPrice := m.lastPrice);
    var filled := inc.qty - m.remaining;
    if m.selfHit || (m.remaining > 0 && inc.kind.Market?) then
      Placed(matched, MatchResult(m.fills, 0, m.remaining, m.closed + [TakerClose(inc, filled, Canceled)]))
    else if m.remaining == 0 then
      Placed(matched, MatchResult(m.fills, 0, 0, m.closed + [TakerClose(inc, filled, Filled)]))
    else
      var o := RestingOf(inc, m.remaining, b.seqNo + 1);
      Placed(WithSide(matched, inc.side, Insert(SideOf(b, inc.side), o)).(seqNo := b.seqNo + 1),
             MatchResult(m.fills, m.remaining, 0, m.closed))
  }

  /** The book and the match result after one incoming order. */
  function Place(b: Book, inc: Incoming): Placed {
    Finish(b, inc, Match(SideOf(b, Opposite(inc.side)), inc, inc.qty, b.lastPrice))
  }

  // ---------------------------------------------------------------- cancel, levels

  function IndexOf(list: seq<Resting>, id: OrderId): (i: int)
    ensures -1 <= i < |list|
    ensures i >= 0 ==> list[i].orderId == id && forall k :: 0 <= k < i ==> list[k].orderId != id
    ensures i < 0 ==> forall k :: 0 <= k < |list| ==> list[k].orderId != id
  {
    if list == [] then -1
    else if list[0].orderId == id then 0
    else
      var i := IndexOf(list[1..], id);
      if i < 0 then -1 else i + 1
  }

  datatype Removal = Removal(book: Book, order: Option<Resting>)

  /** The first order carrying `id` taken out of the book: bids are searched before asks. */
  function Without(b: Book, id: OrderId): Removal {
    var i, j := IndexOf(b.bids, id), IndexOf(b.asks, id);
    if i >= 0 then Removal(b.(bids := b.bids[..i] + b.bids[i + 1..]), Some(b.bids[i]))
    else if j >= 0 then Removal(b.(asks := b.asks[..j] + b.asks[j + 1..]), Some(b.asks[j]))
    else Removal(b, None)
  }

  /** The close recorded for an order taken off the book by a cancel. */
  function CancelClose(o: Resting): Closed {
    Closed(o.orderId, o.accountId, o.side, o.totalQty - o.qty, Canceled)
  }

  datatype Level = Level(price: int, qty: nat)

  function TotalAt(list: seq<Resting>, price: int): nat {
    if list == [] then 0 else (if list[0].price == price then list[0].qty else 0) + TotalAt(list[1..], price)
  }

  // ---------------------------------------------------------------- the mutable book

  class Orderbook {
    var bids: seq<Resting>
    var asks: seq<Resting>
    var lastPrice: Option<int>
    var seqNo: nat

    function Value(): Book
      reads this
    {
      Book(bids, asks, lastPrice, seqNo)
    }

    constructor (lastPrice: Option<int>)
      ensures Value() == CreateBook(lastPrice)
    {
      bids, asks, seqNo := [], [], 0;
      this.lastPrice := lastPrice;
    }

    /** A copy, so that an event's result can be computed before its transaction commits. */
    constructor Clone(book: Orderbook)
      ensures Value() == book.Value()
    {
      bids, asks, lastPrice, seqNo := book.bids, book.asks, book.lastPrice, book.seqNo;
    }

    method InsertResting(order: Resting)
      modifies this
      ensures Value() == WithSide(old(Value()), order.side, Insert(SideOf(old(Value()), order.side), order))
    {
      var list := if order.side == Buy then bids else asks;
      var i := 0;
      while i < |list| && (Better(order.side, list[i].price, order.price) || list[i].price == order.price)
        invariant 0 <= i <= |list|
        invariant InsertPos(list, order.side, order.price) == i + InsertPos(list[i..], order.side, order.price)
      {
        i := i + 1;
      }
      if order.side == Buy {
        bids := list[..i] + [order] + list[i..];
      } else {
        asks := list[..i] + [order] + list[i..];
      }
    }

    /** The matching loop of `ApplyOrder`: stops for good at the account's own resting order. */
    method MatchOpposite(incoming: Incoming) returns (m: Outcome)
      modifies this
      ensures m == Match(SideOf(old(Value()), Opposite(incoming.side)), incoming, incoming.qty, old(lastPrice))
      ensures Value() == WithSide(old(Value()), Opposite(incoming.side), m.opposite).(lastPrice := m.lastPrice)
    {
      ghost var before := Value();
      var opposite := if incoming.side == Buy then asks else bids;
      var remaining: nat := incoming.qty;
      var fills: seq<Fill>, closed: seq<Closed> := [], [];
      ghost var end := Match(opposite, incoming, remaining, lastPrice);

      while remaining > 0 && |opposite| > 0 && Crosses(incoming, opposite[0])
        invariant seqNo == before.seqNo
        invariant if incoming.side == Buy then asks == opposite && bids == before.bids else bids == opposite && asks == before.asks
        invariant end == Prepend(fills, closed, Match(opposite, incoming, remaining, lastPrice))
        decreases |opposite|, remaining
      {
        var maker := opposite[0];
        if maker.accountId == incoming.accountId {
          return Outcome(opposite, fills, closed, remaining, true, lastPrice);
        }
        MatchStep(opposite, incoming, remaining, lastPrice, fills, closed);
        var qty: nat := if remaining <= maker.qty then remaining else maker.qty;
        fills := fills + [FillOf(maker, incoming, qty)];
        remaining := remaining - qty;
        lastPrice := Some(maker.price);
        if maker.qty == qty {
          opposite := opposite[1..];
          closed := closed + [MakerClose(maker)];
        } else {
          opposite := [maker.(qty := maker.qty - qty)] + opposite[1..];
        }
        if incoming.side == Buy { asks := opposite; } else { bids := opposite; }
      }
      m := Outcome(opposite, fills, closed, remaining, false, lastPrice);
    }

    method ApplyOrder(incoming: Incoming) returns (result: MatchResult)
      modifies this
      ensures Placed(Value(), result) == Place(old(Value()), incoming)
    {
      var m := MatchOpposite(incoming);
      var filledQty := incoming.qty - m.remaining;
      if m.selfHit {
        // Skipping past the own quote would break price priority, and resting would cross it.
        result := MatchResult(m.fills, 0, m.remaining, m.closed + [TakerClose(incoming, filledQty, Canceled)]);
      } else if m.remaining == 0 {
        result := MatchResult(m.fills, 0, 0, m.closed + [TakerClose(incoming, incoming.qty, Filled)]);
      } else if incoming.kind.Market? {
        result := MatchResult(m.fills, 0, m.remaining, m.closed + [TakerClose(incoming, filledQty, Canceled)]);
      } else {
        seqNo := seqNo + 1;
        InsertResting(RestingOf(incoming, m.remaining, seqNo));
        result := MatchResult(m.fills, m.remaining, 0, m.closed);
      }
    }

    method CancelOrder(orderId: OrderId) returns (removed: Option<Resting>)
      modifies this
      ensures Removal(Value(), removed) == Without(old(Value()), orderId)
    {
      var idx := FindIndex(bids, orderId);
      if idx >= 0 {
        removed := Some(bids[idx]);
        bids := bids[..idx] + bids[idx + 1..];
        return;
      }
      idx := FindIndex(asks, orderId);
      if idx >= 0 {
        removed := Some(asks[idx]);
        asks := asks[..idx] + asks[idx + 1..];
        return;
      }
      removed := None;
    }
  }

  method FindIndex(list: seq<Resting>, orderId: OrderId) returns (idx: int)
    ensures idx == IndexOf(list, orderId)
  {
    idx := 0;
    while idx < |list|
      invariant 0 <= idx <= |list|
      invariant forall k :: 0 <= k < idx ==> list[k].orderId != orderId
    {
      if list[idx].orderId == orderId { return; }
      idx := idx + 1;
    }
    idx := -1;
  }
}
