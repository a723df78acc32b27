/**
 * The matching engine around one symbol's book (apps/matching-engine/src/engine.ts)
 * as a step machine. Durable are the order rows, the claimed event ids, the
 * trades, the close markers and the settlement outbox; volatile are the book
 * and the remembered event ids. A handler run is one step: its transaction
 * commits as a whole, or a crash leaves nothing of it.
 */
module Engine {
  import opened Common
  import opened OrderBook
  import opened OrderBookLaws

  datatype RowStatus = OPEN | PARTIAL | FILLED | CANCELED | REJECTED

  predicate Active(status: RowStatus) {
    status == OPEN || status == PARTIAL
  }

  /** An order row: written open by admission, advanced by settlement, never by the engine. */
  datatype OrderRow = OrderRow(accountId: AccountId, side: Side, kind: Kind, qty: nat, filledQty: nat, status: RowStatus)

  datatype OrderEvent =
    | PlacedEvent(inc: Incoming)
    | CancelEvent(orderId: OrderId)

  function EventOrder(ev: OrderEvent): OrderId {
    match ev
    case PlacedEvent(inc) => inc.orderId
    case CancelEvent(id) => id
  }

  /** A row of the settlement outbox; its position is its auto-increment id. */
  datatype OutEvent =
    | TradeExecuted(fill: Fill)
    | OrderClosed(closed: Closed)

  datatype Durable = Durable(
    orders: map<OrderId, OrderRow>,
    claims: set<EventId>,
    trades: seq<Fill>,
    markers: set<OrderId>,
    outbox: seq<OutEvent>,
    listedPrice: Option<int>)

  /** `issued` is every event ever put on the order stream: any of them may be delivered at any time. */
  datatype State = State(d: Durable, issued: map<EventId, OrderEvent>, up: bool, book: Book, seen: seq<EventId>)

  const SEEN_CAP: nat := 10_000

  /** Insertion-ordered set with the oldest id evicted beyond the cap. */
  function Remember(seen: seq<EventId>, id: EventId): seq<EventId> {
    if id in seen then seen
    else if |seen| + 1 > SEEN_CAP then seen[1..] + [id] else seen + [id]
  }

  // ---------------------------------------------------------------- the trade table

  function BuyOrderId(f: Fill): OrderId {
    if f.takerSide == Buy then f.takerOrderId else f.makerOrderId
  }

  function SellOrderId(f: Fill): OrderId {
    if f.takerSide == Sell then f.takerOrderId else f.makerOrderId
  }

  /** Sum of the trades recorded under an order id in its side's column. */
  function RecordedQty(trades: seq<Fill>, id: OrderId, side: Side): nat {
    if trades == [] then 0
    else
      (if (if side == Buy then BuyOrderId(trades[0]) else SellOrderId(trades[0])) == id then trades[0].qty else 0)
      + RecordedQty(trades[1..], id, side)
  }

  function LastTradePrice(d: Durable): Option<int> {
    if d.trades == [] then d.listedPrice else Some(d.trades[|d.trades| - 1].price)
  }

  // ---------------------------------------------------------------- the outbox

  function TradeEvents(fills: seq<Fill>): seq<OutEvent> {
    seq(|fills|, i requires 0 <= i < |fills| => TradeExecuted(fills[i]))
  }

  function CloseEvents(closes: seq<Closed>): seq<OutEvent> {
    seq(|closes|, i requires 0 <= i < |closes| => OrderClosed(closes[i]))
  }

  /** A close must not overtake any fill that it describes. */
  function SettlementEvents(result: MatchResult): seq<OutEvent> {
    TradeEvents(result.fills) + CloseEvents(result.closedOrders)
  }

  function Closes(outbox: seq<OutEvent>): seq<Closed> {
    if outbox == [] then []
    else (if outbox[0].OrderClosed? then [outbox[0].closed] else []) + Closes(outbox[1..])
  }

  function Trades(outbox: seq<OutEvent>): seq<Fill> {
    if outbox == [] then []
    else (if outbox[0].TradeExecuted? then [outbox[0].fill] else []) + Trades(outbox[1..])
  }

  lemma OutboxHead(a: seq<OutEvent>, b: seq<OutEvent>)
    requires a != []
    ensures (a + b)[0] == a[0] && (a + b)[1..] == a[1..] + b
  {
  }

  lemma {:induction false} OutboxCloses(a: seq<OutEvent>, b: seq<OutEvent>)
    ensures Closes(a + b) == Closes(a) + Closes(b)
  {
    if a == [] {
      assert a + b == b;
    } else {
      OutboxHead(a, b);
      OutboxCloses(a[1..], b);
    }
  }

  lemma {:induction false} OutboxTrades(a: seq<OutEvent>, b: seq<OutEvent>)
    ensures Trades(a + b) == Trades(a) + Trades(b)
  {
    if a == [] {
      assert a + b == b;
    } else {
      OutboxHead(a, b);
      OutboxTrades(a[1..], b);
    }
  }

  lemma OutboxAppend(a: seq<OutEvent>, b: seq<OutEvent>)
    ensures Closes(a + b) == Closes(a) + Closes(b)
    ensures Trades(a + b) == Trades(a) + Trades(b)
  {
    OutboxCloses(a, b);
    OutboxTrades(a, b);
  }

  lemma {:induction false} TradeEventsRead(fills: seq<Fill>)
    ensures Trades(TradeEvents(fills)) == fills && Closes(TradeEvents(fills)) == []
  {
    if fills != [] {
      assert TradeEvents(fills)[1..] == TradeEvents(fills[1..]);
      TradeEventsRead(fills[1..]);
    }
  }

  lemma {:induction false} CloseEventsRead(closes: seq<Closed>)
    ensures Closes(CloseEvents(closes)) == closes && Trades(CloseEvents(closes)) == []
  {
    if closes != [] {
      assert CloseEvents(closes)[1..] == CloseEvents(closes[1..]);
      CloseEventsRead(closes[1..]);
    }
  }

  lemma SettlementEventsRead(result: MatchResult)
    ensures Trades(SettlementEvents(result)) == result.fills && Closes(SettlementEvents(result)) == result.closedOrders
  {
    OutboxAppend(TradeEvents(result.fills), CloseEvents(result.closedOrders));
    TradeEventsRead(result.fills);
    CloseEventsRead(result.closedOrders);
  }

  /** The transaction of a handled event: claim, trades, close markers and outbox rows together. */
  function Commit(d: Durable, eid: EventId, result: MatchResult): Durable {
    d.(claims := d.claims + {eid},
       trades := d.trades + result.fills,
       markers := d.markers + ClosedIds(result.closedOrders),
       outbox := d.outbox + SettlementEvents(result))
  }

  // ---------------------------------------------------------------- handling one event

  function MarkedIds(list: seq<Resting>, markers: set<OrderId>): seq<OrderId> {
    if list == [] then []
    else (if list[0].orderId in markers then [list[0].orderId] else []) + MarkedIds(list[1..], markers)
  }

  /** Rows that another engine instance has durably closed leave the book before anything matches. */
  function CancelAll(b: Book, ids: seq<OrderId>): Book
    decreases ids
  {
    if ids == [] then b else CancelAll(Without(b, ids[0]).book, ids[1..])
  }

  function Published(b: Book): Book {
    b.(seqNo := b.seqNo + 1)
  }

  predicate Named(trades: seq<Fill>, id: OrderId) {
    exists i :: 0 <= i < |trades| && (trades[i].makerOrderId == id || trades[i].takerOrderId == id)
  }

  /** The data fallback used for messages reclaimed from an earlier consumer. */
  predicate AlreadyApplied(s: State, ev: OrderEvent) {
    var id := EventOrder(ev);
    || id in s.d.markers
    || (ev.CancelEvent? && (id !in s.d.orders || !Active(s.d.orders[id].status)))
    || (ev.PlacedEvent? && (id in BookIds(s.book)
                            || (id in s.d.orders && s.d.orders[id].status != OPEN)
                            || Named(s.d.trades, id)))
  }

  /** A cancel for an order the book does not hold closes it only when trades and settled row agree. */
  function CloseMissing(d: Durable, id: OrderId): Option<Closed> {
    if id !in d.orders || !Active(d.orders[id].status) then None
    else
      var row := d.orders[id];
      var recorded := RecordedQty(d.trades, id, row.side);
      if row.qty == 0 || row.filledQty > row.qty || recorded != row.filledQty then None
      else Some(Closed(id, row.accountId, row.side, row.filledQty,
                       if row.filledQty == row.qty then Filled else Canceled))
  }

  function Skip(s: State, eid: EventId): State {
    s.(seen := Remember(s.seen, eid))
  }

  /** The placement that reaches the matching loop. */
  function ApplyPlaced(s: State, eid: EventId, inc: Incoming): State {
    if eid in s.d.claims then Skip(s, eid)
    else
      var p := Place(s.book, inc);
      Skip(s, eid).(d := Commit(s.d, eid, p.result), book := Published(p.book))
  }

  function HandlePlaced(s: State, eid: EventId, inc: Incoming, recovery: bool): State {
    if inc.orderId in BookIds(s.book) then Skip(s, eid).(d := s.d.(claims := s.d.claims + {eid}))
    else if inc.orderId in s.d.markers then Skip(s, eid)
    else if recovery && AlreadyApplied(s, PlacedEvent(inc)) then Skip(s, eid)
    else ApplyPlaced(s, eid, inc)
  }

  function CancelResult(closed: Option<Closed>): MatchResult {
    MatchResult([], 0, 0, if closed.Some? then [closed.value] else [])
  }

  function HandleCancel(s: State, eid: EventId, id: OrderId, recovery: bool): State {
    if (if recovery then AlreadyApplied(s, CancelEvent(id)) else id in s.d.markers) then Skip(s, eid)
    else
      var w := Without(s.book, id);
      var closed := if w.order.Some? then Some(CancelClose(w.order.value)) else CloseMissing(s.d, id);
      if eid in s.d.claims then Skip(s, eid)
      else Skip(s, eid).(d := Commit(s.d, eid, CancelResult(closed)), book := Published(w.book))
  }

  /** Pruning publishes a snapshot when it removed something. */
  function Pruned(s: State): State {
    var ids := MarkedIds(s.book.bids + s.book.asks, s.d.markers);
    if ids == [] then s else s.(book := Published(CancelAll(s.book, ids)))
  }

  function Deliver(s: State, eid: EventId, recovery: bool): State
    requires eid in s.issued
  {
    var s := Pruned(s);
    if eid in s.seen then s
    else
      match s.issued[eid]
      case PlacedEvent(inc) => HandlePlaced(s, eid, inc, recovery)
      case CancelEvent(id) => HandleCancel(s, eid, id, recovery)
  }

  // ---------------------------------------------------------------- restart

  /** The open limit rows without a close marker: what a restart replays. */
  predicate Replayable(d: Durable, id: OrderId) {
    id in d.orders && d.orders[id].kind.Limit? && Active(d.orders[id].status) && id !in d.markers
  }

  /** An order restored at `price` would trade with something already restored. */
  predicate CrossesRestored(b: Book, side: Side, price: int) {
    if side == Buy then exists i :: 0 <= i < |b.asks| && price >= b.asks[i].price
    else exists i :: 0 <= i < |b.bids| && price <= b.bids[i].price
  }

  function RestoredRow(d: Durable, id: OrderId, remaining: nat, seqNo: nat): Resting
    requires Replayable(d, id)
  {
    var row := d.orders[id];
    Resting(id, row.accountId, row.side, row.kind.price, remaining, row.qty, seqNo)
  }

  /** One row listed without matching: skipped when complete, quarantined when it would cross. */
  function Restore(b: Book, d: Durable, id: OrderId): Book
    requires Replayable(d, id)
  {
    var row := d.orders[id];
    var remaining := RemainingRestingQty(row.qty, row.filledQty, RecordedQty(d.trades, id, row.side));
    if remaining == 0 || CrossesRestored(b, row.side, row.kind.price) then b
    else
      var o := RestoredRow(d, id, remaining, b.seqNo + 1);
      WithSide(b, row.side, SideOf(b, row.side) + [o]).(seqNo := b.seqNo + 1)
  }

  function RestoreAll(b: Book, d: Durable, rows: seq<OrderId>): Book
    requires forall i :: 0 <= i < |rows| ==> Replayable(d, rows[i])
    decreases rows
  {
    if rows == [] then b else RestoreAll(Restore(b, d, rows[0]), d, rows[1..])
  }

  /** Sorting a list of increasing arrival numbers by price, then arrival. */
  function SortSide(list: seq<Resting>): seq<Resting> {
    if list == [] then [] else Insert(SortSide(list[..|list| - 1]), list[|list| - 1])
  }

  /** `rows` is the replay order: reserve accounts first, then by creation. Any order of the rows is allowed. */
  predicate ReplayOrder(d: Durable, rows: seq<OrderId>) {
    && (forall i :: 0 <= i < |rows| ==> Replayable(d, rows[i]))
    && (forall i, j :: 0 <= i < j < |rows| ==> rows[i] != rows[j])
    && (forall id :: id in d.orders && Replayable(d, id) ==> id in rows)
  }

  function Bootstrap(s: State, rows: seq<OrderId>): State
    requires ReplayOrder(s.d, rows)
  {
    var b := RestoreAll(CreateBook(LastTradePrice(s.d)), s.d, rows);
    s.(up := true, book := b.(bids := SortSide(b.bids), asks := SortSide(b.asks)), seen := [])
  }

  // ---------------------------------------------------------------- runs

  datatype Step =
    | Admit(inc: Incoming, eid: EventId)
    | AskCancel(id: OrderId, eid: EventId)
    | DeliverEvent(eid: EventId, recovery: bool)
    | SettleRow(id: OrderId, filledQty: nat, status: RowStatus)
    | Crash
    | Restart(rows: seq<OrderId>)

  /** Settlement only ever books recorded trades, and ends a row only after its close. */
  predicate SettlesRecorded(d: Durable, id: OrderId, filledQty: nat, status: RowStatus) {
    && id in d.orders
    && d.orders[id].filledQty <= filledQty <= FilledQty(d.trades, id)
    && (!Active(status) ==> id in d.markers)
  }

  predicate Enabled(s: State, step: Step) {
    match step
    case Admit(inc, eid) => inc.qty > 0 && inc.orderId !in s.d.orders && eid !in s.issued
    case AskCancel(id, eid) => id in s.d.orders && eid !in s.issued
    case DeliverEvent(eid, _) => s.up && eid in s.issued
    case SettleRow(id, filledQty, status) => SettlesRecorded(s.d, id, filledQty, status)
    case Crash => true
    case Restart(rows) => !s.up && ReplayOrder(s.d, rows)
  }

  function Next(s: State, step: Step): State
    requires Enabled(s, step)
  {
    match step
    case Admit(inc, eid) =>
      var row := OrderRow(inc.accountId, inc.side, inc.kind, inc.qty, 0, OPEN);
      s.(d := s.d.(orders := s.d.orders[inc.orderId := row]), issued := s.issued[eid := PlacedEvent(inc)])
    case AskCancel(id, eid) => s.(issued := s.issued[eid := CancelEvent(id)])
    case DeliverEvent(eid, recovery) => Deliver(s, eid, recovery)
    case SettleRow(id, filledQty, status) =>
      s.(d := s.d.(orders := s.d.orders[id := s.d.orders[id].(filledQty := filledQty, status := status)]))
    case Crash => s.(up := false, book := CreateBook(None), seen := [])
    case Restart(rows) => Bootstrap(s, rows)
  }

  function Init(listedPrice: Option<int>): State {
    State(Durable(map[], {}, [], {}, [], listedPrice), map[], true, CreateBook(listedPrice), [])
  }

  ghost predicate Runs(s: State, steps: seq<Step>)
    decreases steps
  {
    steps == [] || (Enabled(s, steps[0]) && Runs(Next(s, steps[0]), steps[1..]))
  }

  function After(s: State, steps: seq<Step>): State
    requires Runs(s, steps)
    decreases steps
  {
    if steps == [] then s else After(Next(s, steps[0]), steps[1..])
  }
}
