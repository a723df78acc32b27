/**
 * What a set of pending events will leave behind is known before the first of
 * them is delivered: the forecast of every order row, spot equity and share
 * count is the same in every reachable database, so all orders of delivery end
 * in the same place.
 */
module SettlementForecast {
  import opened Common
  import opened Fees
  import opened Futures
  import opened Bank
  import opened BankLaws
  import opened Sums
  import opened Settlement
  import opened SettlementHolds
  import opened SettlementProgress
  import opened SettlementConfluence

  // ---------------------------------------------------------------- order rows

  predicate Ends(ev: Event, o: OrderId) {
    ev.Ended? && ev.orderId == o
  }

  /** An order is closed by at most one event. */
  predicate OneClose(events: seq<Event>) {
    forall i, j :: 0 <= i < j < |events| && events[i].Ended? && events[j].Ended? ==> events[i].orderId != events[j].orderId
  }

  /** The status of the order's close among the first `n` events, while it is pending. */
  function PendingClose(events: seq<Event>, done: set<ClaimId>, o: OrderId, n: nat): Option<Status>
    requires n <= |events|
  {
    if n == 0 then None
    else if Ends(events[n - 1], o) && events[n - 1].eventId !in done then Some(events[n - 1].status)
    else PendingClose(events, done, o, n - 1)
  }

  lemma {:induction false} CloseDelivered(events: seq<Event>, done: set<ClaimId>, k: nat, o: OrderId, n: nat)
    requires DistinctIds(events) && OneClose(events) && k < |events| && n <= |events|
    ensures
      var after := PendingClose(events, done + {events[k].eventId}, o, n);
      if Ends(events[k], o) then after == None else after == PendingClose(events, done, o, n)
  {
    if n > 0 {
      CloseDelivered(events, done, k, o, n - 1);
      assert n - 1 != k ==> events[n - 1].eventId != events[k].eventId;
      assert n - 1 != k && Ends(events[k], o) ==> !Ends(events[n - 1], o);
    }
  }

  lemma {:induction false} ClosePending(events: seq<Event>, done: set<ClaimId>, k: nat, o: OrderId, n: nat)
    requires OneClose(events) && k < n <= |events| && Ends(events[k], o) && events[k].eventId !in done
    ensures PendingClose(events, done, o, n) == Some(events[k].status)
  {
    if n - 1 > k {
      assert !Ends(events[n - 1], o);
      ClosePending(events, done, k, o, n - 1);
    }
  }

  lemma {:induction false} NoneIsPending(events: seq<Event>, done: set<ClaimId>, o: OrderId, n: nat)
    requires n <= |events| && forall i :: 0 <= i < |events| ==> events[i].eventId in done
    ensures PendingClose(events, done, o, n) == None
  {
    if n > 0 {
      NoneIsPending(events, done, o, n - 1);
    }
  }

  /** Where an order row is heading, given the fills and the close it still has to come. */
  function EndRow(o: OrderRow, pending: int, close: Option<Status>): OrderRow {
    if !IsActive(o.status) then o
    else
      var filled := o.filledQty + pending;
      o.(filledQty := filled,
         status := if filled >= o.qty then Filled else if close.Some? then close.value
                   else if pending > 0 then Partial else o.status)
  }

  function Heading(db: Db, events: seq<Event>, o: OrderId): OrderRow
    requires o in db.orders
  {
    EndRow(db.orders[o], PendingQty(events, db.processed, o), PendingClose(events, db.processed, o, |events|))
  }

  lemma AdvanceKeepsEnd(x: OrderRow, y: OrderRow, qty: int, pending: int, close: Option<Status>)
    requires Advanced(x, y, qty) && SameTerms(x, y) && RowOk(x) && qty > 0 && 0 <= pending && x.filledQty + qty + pending <= x.qty
    requires IsActive(y.status) ==> y.status == Partial
    requires !IsActive(y.status) ==> y.status == Filled
    ensures EndRow(y, pending, close) == EndRow(x, pending + qty, close)
  {
  }

  lemma CloseKeepsEnd(o: OrderRow, filledQty: int, status: Status)
    requires RowOk(o) && IsActive(o.status) && filledQty == o.filledQty && IsTerminal(status)
    requires StateAfterClose(o, filledQty, status).Some?
    ensures EndRow(StateAfterClose(o, filledQty, status).value, 0, None) == EndRow(o, 0, Some(status))
  {
  }

  lemma PendingQtyNonNegative(events: seq<Event>, done: set<ClaimId>, o: OrderId)
    requires AllWellFormed(events)
    ensures PendingQty(events, done, o) >= 0
  {
    PendingNonNegative(events, done, o);
    SumNonNegative(PendingFills(events, done, o), |events|);
  }

  predicate Plan(events: seq<Event>) {
    AllWellFormed(events) && OneClose(events)
  }

  lemma TradeKeepsHeading(db: Db, events: seq<Event>, k: nat, o: OrderId, n: nat)
    requires Consistent(db, events) && OrdersOk(db.orders, n) && Plan(events) && o in db.orders
    requires k < |events| && events[k].Traded? && Applies(db, events[k])
    ensures o in SettleTrade(db, events[k]).value.orders
    ensures Heading(SettleTrade(db, events[k]).value, events, o) == Heading(db, events, o)
  {
    var ev := events[k];
    assert Ready(db, ev);
    TradeTerms(db, ev);
    TradeSettlesRows(db, ev);
    TradeRow(db, ev, o);
    PendingShrinks(events, db.processed, k, o);
    CloseDelivered(events, db.processed, k, o, |events|);
    if Names(ev, o) {
      PendingQtyNonNegative(events, db.processed + {ev.eventId}, o);
      assert FillsFit(db, events, o);
      TradedStatus(db.orders, SettleTrade(db, ev).value.orders, ev, o);
      AdvanceKeepsEnd(db.orders[o], SettleTrade(db, ev).value.orders[o], ev.qty,
                      PendingQty(events, db.processed + {ev.eventId}, o), PendingClose(events, db.processed, o, |events|));
    }
  }

  lemma TradedStatus(orders: Orders, after: Orders, ev: Event, o: OrderId)
    requires ev.Traded? && RowsAdvance(orders, after, ev) && ev.buyOrder != ev.sellOrder && o in orders && Names(ev, o)
    ensures o in after && (after[o].status == Partial || after[o].status == Filled)
  {
  }

  lemma CloseKeepsHeading(db: Db, events: seq<Event>, k: nat, o: OrderId, n: nat)
    requires Consistent(db, events) && OrdersOk(db.orders, n) && Plan(events) && o in db.orders
    requires k < |events| && events[k].Ended? && IsPending(db, events[k]) && CloseOrder(db, events[k]).Ok?
    ensures o in CloseOrder(db, events[k]).value.orders
    ensures Heading(CloseOrder(db, events[k]).value, events, o) == Heading(db, events, o)
  {
    var ev := events[k];
    assert Ready(db, ev);
    CloseRows(db, ev);
    PendingShrinks(events, db.processed, k, o);
    CloseDelivered(events, db.processed, k, o, |events|);
    if ev.orderId == o {
      CloseWaitsIff(db, events, k);
      ClosePending(events, db.processed, k, o, |events|);
      assert FillsFit(db, events, o) && CloseTells(db, events, ev);
      if IsActive(db.orders[o].status) {
        CloseKeepsEnd(db.orders[o], ev.filledQty, ev.status);
      }
    }
  }

  // ---------------------------------------------------------------- spot equity and shares

  predicate SpotOnly(db: Db, events: seq<Event>) {
    forall i :: 0 <= i < |events| && events[i].Traded? ==> InstrumentOf(db.market, events[i].symbol).Spot?
  }

  /** What a fill is worth to an account: its cost changes hands, and the fees are gone. */
  function Gain(db: Db, ev: Event, c: AccountId): int {
    if ev.Traded? then OfSides(DealOf(db, ev), c, -Cost(ev), Cost(ev)) - Due(DealOf(db, ev), c) else 0
  }

  function GainTerms(db: Db, events: seq<Event>, done: set<ClaimId>, c: AccountId): int -> int {
    i => if 0 <= i < |events| && events[i].eventId !in done then Gain(db, events[i], c) else 0
  }

  /** Equity now plus everything the pending fills will still add. */
  function EquityAhead(base: Db, db: Db, events: seq<Event>, c: AccountId): int {
    Equity(PurseOf(db.bank, c)) + Sum(GainTerms(base, events, db.processed, c), |events|)
  }

  function ShareGain(ev: Event, key: HoldingKey): int {
    if ev.Traded? && ev.symbol == key.symbol then (if ev.buyer == key.account then ev.qty else 0) - (if ev.seller == key.account then ev.qty else 0)
    else 0
  }

  function ShareTerms(events: seq<Event>, done: set<ClaimId>, key: HoldingKey): int -> int {
    i => if 0 <= i < |events| && events[i].eventId !in done then ShareGain(events[i], key) else 0
  }

  function QtyAt(holdings: Holdings, key: HoldingKey): int {
    if key in holdings then holdings[key].qty else 0
  }

  function SharesAhead(db: Db, events: seq<Event>, key: HoldingKey): int {
    QtyAt(db.holdings, key) + Sum(ShareTerms(events, db.processed, key), |events|)
  }

  lemma TermsShrink(db: Db, events: seq<Event>, done: set<ClaimId>, k: nat, c: AccountId, key: HoldingKey)
    requires DistinctIds(events) && k < |events| && events[k].eventId !in done
    ensures Sum(GainTerms(db, events, done + {events[k].eventId}, c), |events|) ==
            Sum(GainTerms(db, events, done, c), |events|) - Gain(db, events[k], c)
    ensures Sum(ShareTerms(events, done + {events[k].eventId}, key), |events|) ==
            Sum(ShareTerms(events, done, key), |events|) - ShareGain(events[k], key)
  {
    var after := done + {events[k].eventId};
    forall i | 0 <= i < |events| && i != k
      ensures GainTerms(db, events, done, c)(i) == GainTerms(db, events, after, c)(i)
      ensures ShareTerms(events, done, key)(i) == ShareTerms(events, after, key)(i)
    {
      assert events[i].eventId != events[k].eventId;
    }
    SumChange(GainTerms(db, events, done, c), GainTerms(db, events, after, c), |events|, k);
    SumChange(ShareTerms(events, done, key), ShareTerms(events, after, key), |events|, k);
  }

  lemma SpotBank(db: Db, ev: Event)
    requires ev.Traded? && WellFormed(ev) && Applies(db, ev) && InstrumentOf(db.market, ev.symbol).Spot?
    ensures ev.buyOrder in db.orders && ev.buyer in db.bank.accounts && ev.seller in db.bank.accounts
    ensures
      var paid := SpotCash(db.bank, DealOf(db, ev), Cost(ev), db.orders[ev.buyOrder].holdPerUnit * ev.qty);
      paid.Ok? && SettleTrade(db, ev).value.bank == paid.value
  {
    assert DealOf(Claim(db, ev.eventId), ev) == DealOf(db, ev);
  }

  lemma SpotGains(bank: Bank, deal: Deal, cost: int, held: int, c: AccountId)
    requires deal.buyer in bank.accounts && deal.seller in bank.accounts && SpotCash(bank, deal, cost, held).Ok?
    ensures Equity(PurseOf(SpotCash(bank, deal, cost, held).value, c)) ==
            Equity(PurseOf(bank, c)) + OfSides(deal, c, -cost, cost) - Due(deal, c)
  {
    SpotCashEffect(bank, deal, cost, held);
    SpotMoves(PurseOf(bank, c), deal, cost, held, c);
  }

  lemma SpotTradeGains(db: Db, ev: Event, c: AccountId)
    requires ev.Traded? && WellFormed(ev) && Applies(db, ev) && InstrumentOf(db.market, ev.symbol).Spot?
    ensures Equity(PurseOf(SettleTrade(db, ev).value.bank, c)) == Equity(PurseOf(db.bank, c)) + Gain(db, ev, c)
  {
    SpotBank(db, ev);
    SpotGains(db.bank, DealOf(db, ev), Cost(ev), db.orders[ev.buyOrder].holdPerUnit * ev.qty, c);
  }

  lemma MovedQty(holdings: Holdings, buyer: HoldingKey, seller: HoldingKey, qty: int, cost: int, key: HoldingKey)
    requires MoveShares(holdings, buyer, seller, qty, cost).Ok?
    ensures
      QtyAt(MoveShares(holdings, buyer, seller, qty, cost).value.holdings, key) ==
      QtyAt(holdings, key) + (if key == buyer then qty else 0) - (if key == seller then qty else 0)
  {
  }

  lemma SpotTradeShares(db: Db, ev: Event, key: HoldingKey)
    requires ev.Traded? && WellFormed(ev) && Applies(db, ev) && InstrumentOf(db.market, ev.symbol).Spot?
    ensures QtyAt(SettleTrade(db, ev).value.holdings, key) == QtyAt(db.holdings, key) + ShareGain(ev, key)
  {
    TradeSettlesShares(db, ev);
    MovedQty(db.holdings, HoldingKey(ev.buyer, ev.symbol), HoldingKey(ev.seller, ev.symbol), ev.qty, Cost(ev), key);
  }

  predicate TakesEffect(db: Db, ev: Event) {
    ev.Ended? && ev.eventId !in db.processed && ev.orderId in db.orders &&
    StateAfterClose(db.orders[ev.orderId], ev.filledQty, ev.status).Some?
  }

  lemma CloseKeepsEquity(db: Db, ev: Event, c: AccountId)
    requires ev.Ended? && WellFormed(ev) && CloseOrder(db, ev).Ok? && Describes(db.orders, ev)
    requires ev.orderId in db.orders ==> RowOk(db.orders[ev.orderId])
    ensures Equity(PurseOf(CloseOrder(db, ev).value.bank, c)) == Equity(PurseOf(db.bank, c))
    ensures PurseOf(CloseOrder(db, ev).value.bank, c).debt == PurseOf(db.bank, c).debt
  {
    if TakesEffect(db, ev) {
      CloseEffect(db, ev);
    }
  }

  lemma CloseKeepsQty(db: Db, ev: Event, key: HoldingKey)
    requires ev.Ended? && WellFormed(ev) && CloseOrder(db, ev).Ok?
    ensures QtyAt(CloseOrder(db, ev).value.holdings, key) == QtyAt(db.holdings, key)
  {
  }

  // ---------------------------------------------------------------- the forecast never changes

  predicate SameMarket(base: Db, db: Db) {
    db.market == base.market && db.bots == base.bots && db.bank.accounts.Keys == base.bank.accounts.Keys && db.orders.Keys == base.orders.Keys
  }

  /** The database is on course for the outcome forecast from `base`. */
  ghost predicate OnCourse(base: Db, db: Db, events: seq<Event>) {
    && SameMarket(base, db)
    && (forall o :: o in db.orders ==> Heading(db, events, o) == Heading(base, events, o))
    && (forall c :: EquityAhead(base, db, events, c) == EquityAhead(base, base, events, c))
    && (forall key :: SharesAhead(db, events, key) == SharesAhead(base, events, key))
  }

  lemma GainsSame(base: Db, db: Db, ev: Event, c: AccountId)
    requires SameMarket(base, db)
    ensures Gain(base, ev, c) == Gain(db, ev, c)
  {
  }

  lemma EquityStaysAhead(base: Db, db: Db, events: seq<Event>, k: nat, c: AccountId, n: nat)
    requires Consistent(db, events) && OrdersOk(db.orders, n) && Plan(events) && SpotOnly(db, events) && SameMarket(base, db)
    requires k < |events| && IsPending(db, events[k]) && Deliver(db, events[k]).Ok?
    requires Deliver(db, events[k]).value.processed == db.processed + {events[k].eventId}
    ensures EquityAhead(base, Deliver(db, events[k]).value, events, c) == EquityAhead(base, db, events, c)
  {
    assert Ready(db, events[k]);
    TermsShrink(base, events, db.processed, k, c, HoldingKey(c, events[k].symbol));
    GainsSame(base, db, events[k], c);
    if events[k].Traded? {
      SpotTradeGains(db, events[k], c);
    } else {
      CloseKeepsEquity(db, events[k], c);
    }
  }

  lemma SharesStayAhead(db: Db, events: seq<Event>, k: nat, key: HoldingKey)
    requires Consistent(db, events) && Plan(events) && SpotOnly(db, events)
    requires k < |events| && IsPending(db, events[k]) && Deliver(db, events[k]).Ok?
    requires Deliver(db, events[k]).value.processed == db.processed + {events[k].eventId}
    ensures SharesAhead(Deliver(db, events[k]).value, events, key) == SharesAhead(db, events, key)
  {
    TermsShrink(db, events, db.processed, k, key.account, key);
    if events[k].Traded? {
      SpotTradeShares(db, events[k], key);
    } else {
      CloseKeepsQty(db, events[k], key);
    }
  }

  lemma DeliveredIsMarked(db: Db, events: seq<Event>, k: nat, n: nat)
    requires Consistent(db, events) && OrdersOk(db.orders, n) && Plan(events)
    requires k < |events| && IsPending(db, events[k]) && Deliver(db, events[k]).Ok?
    ensures Deliver(db, events[k]).value.processed == db.processed + {events[k].eventId}
    ensures SameMarket(db, Deliver(db, events[k]).value)
  {
    assert Ready(db, events[k]);
    if events[k].Traded? {
      TradeSettlesRows(db, events[k]);
      TradeTerms(db, events[k]);
    } else {
      CloseTerms(db, events[k]);
      CloseRows(db, events[k]);
    }
  }

  lemma StaysOnCourse(base: Db, db: Db, events: seq<Event>, k: nat, n: nat)
    requires Consistent(db, events) && OrdersOk(db.orders, n) && Plan(events) && SpotOnly(db, events) && OnCourse(base, db, events)
    requires k < |events| && Deliver(db, events[k]).Ok?
    ensures OnCourse(base, Deliver(db, events[k]).value, events)
  {
    if IsPending(db, events[k]) {
      var after := Deliver(db, events[k]).value;
      DeliveredIsMarked(db, events, k, n);
      forall o | o in after.orders
        ensures Heading(after, events, o) == Heading(base, events, o)
      {
        if events[k].Traded? {
          TradeKeepsHeading(db, events, k, o, n);
        } else {
          CloseKeepsHeading(db, events, k, o, n);
        }
      }
      forall c
        ensures EquityAhead(base, after, events, c) == EquityAhead(base, base, events, c)
      {
        EquityStaysAhead(base, db, events, k, c, n);
      }
      forall key
        ensures SharesAhead(after, events, key) == SharesAhead(base, events, key)
      {
        SharesStayAhead(db, events, k, key);
      }
    }
  }

  lemma {:induction false} RunStaysOnCourse(base: Db, events: seq<Event>, order: seq<nat>, n: nat)
    requires Consistent(base, events) && HoldsExact(base, n) && Plan(events) && SpotOnly(base, events) && InRange(order, |events|)
    ensures OnCourse(base, DeliverAll(base, events, order), events)
  {
    if order != [] {
      var earlier := order[..|order| - 1];
      var before := DeliverAll(base, events, earlier);
      RunStaysOnCourse(base, events, earlier, n);
      RunKeepsPlan(base, events, earlier, n);
      if Deliver(before, events[order[|order| - 1]]).Ok? {
        StaysOnCourse(base, before, events, order[|order| - 1], n);
      }
    }
  }

  // ---------------------------------------------------------------- confluence

  lemma NoFillsAhead(db: Db, events: seq<Event>, o: OrderId)
    requires AllSettled(db, events) && o in db.orders
    ensures Heading(db, events, o) == EndRow(db.orders[o], 0, None)
  {
    SumZero(PendingFills(events, db.processed, o), |events|);
    NoneIsPending(events, db.processed, o, |events|);
  }

  lemma NoGainsAhead(base: Db, db: Db, events: seq<Event>, c: AccountId)
    requires AllSettled(db, events)
    ensures EquityAhead(base, db, events, c) == Equity(PurseOf(db.bank, c))
  {
    SumZero(GainTerms(base, events, db.processed, c), |events|);
  }

  lemma NoSharesAhead(db: Db, events: seq<Event>, key: HoldingKey)
    requires AllSettled(db, events)
    ensures SharesAhead(db, events, key) == QtyAt(db.holdings, key)
  {
    SumZero(ShareTerms(events, db.processed, key), |events|);
  }

  /**
   * Once everything is settled the database is the forecast: each order row is
   * where it was heading, spot equity and share counts are what was ahead.
   */
  lemma SettledAsForecast(base: Db, events: seq<Event>, order: seq<nat>, n: nat, o: OrderId, c: AccountId, key: HoldingKey)
    requires Consistent(base, events) && HoldsExact(base, n) && Plan(events) && SpotOnly(base, events) && InRange(order, |events|)
    requires AllSettled(DeliverAll(base, events, order), events) && o in base.orders
    ensures
      var end := DeliverAll(base, events, order);
      && o in end.orders && end.orders[o] == Heading(base, events, o)
      && Equity(PurseOf(end.bank, c)) == EquityAhead(base, base, events, c)
      && QtyAt(end.holdings, key) == SharesAhead(base, events, key)
  {
    var end := DeliverAll(base, events, order);
    RunStaysOnCourse(base, events, order, n);
    RunKeepsPlan(base, events, order, n);
    NoFillsAhead(end, events, o);
    NoGainsAhead(base, end, events, c);
    NoSharesAhead(end, events, key);
    SettledRow(end.orders[o]);
  }

  lemma SettledRow(o: OrderRow)
    requires RowOk(o)
    ensures EndRow(o, 0, None) == o
  {
  }

  /** The two databases agree on everything that confluence promises. */
  ghost predicate SameOutcome(x: Db, y: Db) {
    && x.orders == y.orders
    && (forall c :: c in x.bank.accounts ==>
          PurseOf(x.bank, c).hold == PurseOf(y.bank, c).hold && Equity(PurseOf(x.bank, c)) == Equity(PurseOf(y.bank, c)))
    && (forall key :: QtyAt(x.holdings, key) == QtyAt(y.holdings, key) && HoldQtyAt(x.holdings, key) == HoldQtyAt(y.holdings, key))
  }

  /** Any two orders of delivery that settle everything end with the same rows, holds, shares and spot equity. */
  lemma Confluent(base: Db, events: seq<Event>, first: seq<nat>, second: seq<nat>, n: nat)
    requires Consistent(base, events) && HoldsExact(base, n) && Plan(events) && SpotOnly(base, events)
    requires InRange(first, |events|) && InRange(second, |events|)
    requires AllSettled(DeliverAll(base, events, first), events) && AllSettled(DeliverAll(base, events, second), events)
    ensures SameOutcome(DeliverAll(base, events, first), DeliverAll(base, events, second))
  {
    var x, y := DeliverAll(base, events, first), DeliverAll(base, events, second);
    RunStaysOnCourse(base, events, first, n);
    RunStaysOnCourse(base, events, second, n);
    RunKeepsPlan(base, events, first, n);
    RunKeepsPlan(base, events, second, n);
    RowsAsForecast(base, x, events, n);
    RowsAsForecast(base, y, events, n);
    SameRows(base, events, x.orders, y.orders);
    forall c | c in x.bank.accounts
      ensures PurseOf(x.bank, c).hold == PurseOf(y.bank, c).hold && Equity(PurseOf(x.bank, c)) == Equity(PurseOf(y.bank, c))
    {
      NoGainsAhead(base, x, events, c);
      NoGainsAhead(base, y, events, c);
      assert CashExactFor(x, n, c) && CashExactFor(y, n, c);
    }
    forall key
      ensures QtyAt(x.holdings, key) == QtyAt(y.holdings, key) && HoldQtyAt(x.holdings, key) == HoldQtyAt(y.holdings, key)
    {
      NoSharesAhead(x, events, key);
      NoSharesAhead(y, events, key);
      assert SharesExactFor(x, n, key) && SharesExactFor(y, n, key);
    }
  }

  lemma RowAsForecast(base: Db, x: Db, events: seq<Event>, o: OrderId)
    requires OnCourse(base, x, events) && AllSettled(x, events) && o in x.orders && RowOk(x.orders[o])
    ensures o in base.orders && x.orders[o] == Heading(base, events, o)
  {
    assert o in x.orders.Keys;
    NoFillsAhead(x, events, o);
    SettledRow(x.orders[o]);
  }

  ghost predicate RowsAre(base: Db, events: seq<Event>, orders: Orders) {
    orders.Keys == base.orders.Keys &&
    forall o :: o in base.orders.Keys ==> o in orders && orders[o] == Heading(base, events, o)
  }

  lemma RowsAsForecast(base: Db, x: Db, events: seq<Event>, n: nat)
    requires OnCourse(base, x, events) && AllSettled(x, events) && OrdersOk(x.orders, n)
    ensures RowsAre(base, events, x.orders)
  {
    assert SameMarket(base, x);
    forall o | o in base.orders.Keys
      ensures o in x.orders && x.orders[o] == Heading(base, events, o)
    {
      assert o in x.orders.Keys;
      RowAsForecast(base, x, events, o);
    }
  }

  lemma SameRows(base: Db, events: seq<Event>, x: Orders, y: Orders)
    requires RowsAre(base, events, x) && RowsAre(base, events, y)
    ensures x == y
  {
    forall o | o in x
      ensures o in y && x[o] == y[o]
    {
      assert o in base.orders.Keys;
    }
    assert x.Keys == y.Keys;
  }

  // ---------------------------------------------------------------- settlement can always finish

  function PendingFlag(events: seq<Event>, done: set<ClaimId>): int -> int {
    i => if 0 <= i < |events| && events[i].eventId !in done then 1 else 0
  }

  lemma FlagFalls(events: seq<Event>, done: set<ClaimId>, k: nat)
    requires DistinctIds(events) && k < |events| && events[k].eventId !in done
    ensures Sum(PendingFlag(events, done + {events[k].eventId}), |events|) == Sum(PendingFlag(events, done), |events|) - 1
    ensures Sum(PendingFlag(events, done), |events|) >= 0
  {
    var after := done + {events[k].eventId};
    forall i | 0 <= i < |events| && i != k
      ensures PendingFlag(events, done)(i) == PendingFlag(events, after)(i)
    {
      assert events[i].eventId != events[k].eventId;
    }
    SumChange(PendingFlag(events, done), PendingFlag(events, after), |events|, k);
    SumNonNegative(PendingFlag(events, done), |events|);
  }

  /** From every consistent database some order of delivery settles everything that is pending. */
  lemma {:induction false} CanFinish(db: Db, events: seq<Event>, n: nat) returns (order: seq<nat>)
    requires Consistent(db, events) && HoldsExact(db, n) && AllWellFormed(events)
    ensures InRange(order, |events|) && AllSettled(DeliverAll(db, events, order), events)
    decreases Sum(PendingFlag(events, db.processed), |events|)
  {
    if AllSettled(db, events) {
      order := [];
    } else {
      var k :| 0 <= k < |events| && events[k].eventId !in db.processed;
      var j := NeverWedges(db, events, k, n);
      var next := Deliver(db, events[j]).value;
      DeliverKeepsPlan(db, events, j, n);
      MarkedBy(db, events, j, n);
      FlagFalls(events, db.processed, j);
      var rest := CanFinish(next, events, n);
      order := [j] + rest;
      DeliverFirst(db, events, j, rest);
    }
  }

  lemma MarkedBy(db: Db, events: seq<Event>, k: nat, n: nat)
    requires Consistent(db, events) && HoldsExact(db, n) && AllWellFormed(events)
    requires k < |events| && IsPending(db, events[k]) && Deliver(db, events[k]).Ok?
    ensures Deliver(db, events[k]).value.processed == db.processed + {events[k].eventId}
  {
    assert Ready(db, events[k]);
    if events[k].Traded? {
      TradeSettlesRows(db, events[k]);
    } else {
      CloseRows(db, events[k]);
    }
  }

  lemma {:induction false} DeliverFirst(db: Db, events: seq<Event>, j: nat, rest: seq<nat>)
    requires AllWellFormed(events) && j < |events| && InRange(rest, |events|)
    ensures InRange([j] + rest, |events|)
    ensures DeliverAll(db, events, [j] + rest) == DeliverAll(Attempt(db, events[j]), events, rest)
  {
    var all := [j] + rest;
    if rest == [] {
      assert all == [j];
      assert all[..0] == [];
    } else {
      assert all[..|all| - 1] == [j] + rest[..|rest| - 1];
      DeliverFirst(db, events, j, rest[..|rest| - 1]);
    }
  }
}
