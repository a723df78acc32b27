/**
 * Settlement is confluent: whatever order pending events are delivered in, with
 * any duplicates and retries, once all are settled every order row, reservation,
 * share count and spot balance is the one forecast before the first delivery.
 */
module SettlementConfluence {
  import opened Common
  import opened Ledger
  import opened Fees
  import opened Futures
  import opened FuturesLaws
  import opened Bank
  import opened BankLaws
  import opened Sums
  import opened Settlement
  import opened SettlementHolds
  import opened SettlementProgress

  // ---------------------------------------------------------------- one delivery keeps the plan

  lemma PendingShrinks(events: seq<Event>, done: set<ClaimId>, k: nat, o: OrderId)
    requires DistinctIds(events) && k < |events| && events[k].eventId !in done
    ensures PendingQty(events, done + {events[k].eventId}, o) ==
            PendingQty(events, done, o) - (if Names(events[k], o) then events[k].qty else 0)
  {
    var after := done + {events[k].eventId};
    forall i | 0 <= i < |events| && i != k
      ensures PendingFills(events, done, o)(i) == PendingFills(events, after, o)(i)
    {
      assert events[i].eventId != events[k].eventId;
    }
    SumChange(PendingFills(events, done, o), PendingFills(events, after, o), |events|, k);
  }

  /** The parts of an order row no event ever changes. */
  predicate SameTerms(x: OrderRow, y: OrderRow) {
    x.account == y.account && x.symbol == y.symbol && x.side == y.side && x.qty == y.qty && x.holdPerUnit == y.holdPerUnit && x.row == y.row
  }

  ghost predicate SameTermsAll(db: Db, after: Db) {
    after.market == db.market && after.bots == db.bots && SameAccounts(db.bank, after.bank) &&
    after.orders.Keys == db.orders.Keys && forall o :: o in db.orders ==> SameTerms(db.orders[o], after.orders[o])
  }

  lemma TradeTerms(db: Db, ev: Event)
    requires ev.Traded? && WellFormed(ev) && Applies(db, ev)
    ensures SameTermsAll(db, SettleTrade(db, ev).value)
  {
    TradeSettlesRows(db, ev);
    TradeSettlesPurses(db, ev);
  }

  lemma CloseTerms(db: Db, ev: Event)
    requires ev.Ended? && WellFormed(ev) && CloseOrder(db, ev).Ok? && Describes(db.orders, ev)
    requires ev.orderId in db.orders ==> RowOk(db.orders[ev.orderId])
    ensures SameTermsAll(db, CloseOrder(db, ev).value)
  {
    if ev.eventId !in db.processed && ev.orderId in db.orders && StateAfterClose(db.orders[ev.orderId], ev.filledQty, ev.status).Some? {
      CloseEffect(db, ev);
    }
  }

  lemma ReadyStays(db: Db, after: Db, ev: Event)
    requires Ready(db, ev) && SameTermsAll(db, after)
    ensures Ready(after, ev)
  {
  }

  predicate Advanced(x: OrderRow, y: OrderRow, qty: int) {
    IsActive(x.status) && y.filledQty == x.filledQty + qty <= y.qty == x.qty && (IsActive(y.status) <==> y.filledQty < y.qty)
  }

  lemma AdvancedRow(orders: Orders, after: Orders, ev: Event, o: OrderId)
    requires ev.Traded? && ev.qty > 0 && RowsAdvance(orders, after, ev) && ev.buyOrder != ev.sellOrder && o in orders
    ensures o in after && if Names(ev, o) then Advanced(orders[o], after[o], ev.qty) else after[o] == orders[o]
  {
  }

  /** A settled fill advances the rows it names and touches no other. */
  lemma TradeRow(db: Db, ev: Event, o: OrderId)
    requires ev.Traded? && WellFormed(ev) && Applies(db, ev) && Describes(db.orders, ev) && o in db.orders
    ensures
      var after := SettleTrade(db, ev).value.orders;
      o in after && if Names(ev, o) then Advanced(db.orders[o], after[o], ev.qty) else after[o] == db.orders[o]
  {
    TradeSettlesRows(db, ev);
    AdvancedRow(db.orders, SettleTrade(db, ev).value.orders, ev, o);
  }

  lemma FitAfterTrade(db: Db, events: seq<Event>, k: nat, o: OrderId)
    requires Consistent(db, events) && k < |events| && events[k].Traded? && WellFormed(events[k]) && Applies(db, events[k])
    requires Describes(db.orders, events[k]) && SameTermsAll(db, SettleTrade(db, events[k]).value)
    requires SettleTrade(db, events[k]).value.processed == db.processed + {events[k].eventId}
    ensures FillsFit(SettleTrade(db, events[k]).value, events, o)
  {
    assert FillsFit(db, events, o);
    PendingShrinks(events, db.processed, k, o);
    if o in db.orders {
      TradeRow(db, events[k], o);
    }
  }

  lemma TellsAfterTrade(db: Db, events: seq<Event>, k: nat, ev: Event)
    requires Consistent(db, events) && k < |events| && events[k].Traded? && WellFormed(events[k]) && Applies(db, events[k])
    requires Describes(db.orders, events[k]) && SameTermsAll(db, SettleTrade(db, events[k]).value)
    requires SettleTrade(db, events[k]).value.processed == db.processed + {events[k].eventId}
    requires CloseTells(db, events, ev)
    ensures CloseTells(SettleTrade(db, events[k]).value, events, ev)
  {
    if ev.Ended? && ev.orderId in db.orders {
      PendingShrinks(events, db.processed, k, ev.orderId);
      TradeRow(db, events[k], ev.orderId);
    }
  }

  lemma TradeKeepsPlan(db: Db, events: seq<Event>, k: nat, n: nat)
    requires Consistent(db, events) && OrdersOk(db.orders, n)
    requires k < |events| && events[k].Traded? && WellFormed(events[k]) && Applies(db, events[k])
    ensures
      var after := SettleTrade(db, events[k]).value;
      AllReady(after, events) && AllFit(after, events) && ClosesTell(after, events)
  {
    var after := SettleTrade(db, events[k]).value;
    assert Ready(db, events[k]);
    TradeTerms(db, events[k]);
    TradeSettlesRows(db, events[k]);
    forall i | 0 <= i < |events|
      ensures Ready(after, events[i]) && CloseTells(after, events, events[i])
    {
      assert Ready(db, events[i]) && CloseTells(db, events, events[i]);
      ReadyStays(db, after, events[i]);
      TellsAfterTrade(db, events, k, events[i]);
    }
    forall o
      ensures FillsFit(after, events, o)
    {
      FitAfterTrade(db, events, k, o);
    }
  }

  /** Where a close takes effect, no fill of its order is pending. */
  lemma CloseKeepsPlan(db: Db, events: seq<Event>, k: nat, n: nat)
    requires Consistent(db, events) && OrdersOk(db.orders, n)
    requires k < |events| && events[k].Ended? && WellFormed(events[k]) && IsPending(db, events[k]) && CloseOrder(db, events[k]).Ok?
    ensures
      var after := CloseOrder(db, events[k]).value;
      AllReady(after, events) && AllFit(after, events) && ClosesTell(after, events) && after.processed == db.processed + {events[k].eventId}
  {
    var ev := events[k];
    var after := CloseOrder(db, ev).value;
    assert Ready(db, ev);
    CloseTerms(db, ev);
    CloseRows(db, ev);
    if ev.orderId in db.orders {
      CloseWaitsIff(db, events, k);
    }
    forall i | 0 <= i < |events|
      ensures Ready(after, events[i])
    {
      assert Ready(db, events[i]);
      ReadyStays(db, after, events[i]);
    }
    forall o
      ensures FillsFit(after, events, o)
    {
      assert FillsFit(db, events, o);
      PendingShrinks(events, db.processed, k, o);
    }
    forall i | 0 <= i < |events|
      ensures CloseTells(after, events, events[i])
    {
      assert CloseTells(db, events, events[i]);
      if events[i].Ended? {
        PendingShrinks(events, db.processed, k, events[i].orderId);
      }
    }
  }

  /** A settled close ends its order, or finds it already ended, and touches no other row. */
  lemma CloseRows(db: Db, ev: Event)
    requires ev.Ended? && WellFormed(ev) && IsPending(db, ev) && CloseOrder(db, ev).Ok? && Describes(db.orders, ev)
    requires ev.orderId in db.orders ==> RowOk(db.orders[ev.orderId])
    ensures
      var after := CloseOrder(db, ev).value;
      && after.processed == db.processed + {ev.eventId} && after.positions == db.positions
      && (forall o :: o in db.orders && o != ev.orderId ==> o in after.orders && after.orders[o] == db.orders[o])
      && (ev.orderId in db.orders ==>
            var next := StateAfterClose(db.orders[ev.orderId], ev.filledQty, ev.status);
            ev.orderId in after.orders && after.orders[ev.orderId] == if next.Some? then next.value else db.orders[ev.orderId])
  {
    if ev.orderId in db.orders && StateAfterClose(db.orders[ev.orderId], ev.filledQty, ev.status).Some? {
      CloseEffect(db, ev);
    }
  }

  lemma TradeKeepsPositions(db: Db, ev: Event)
    requires ev.Traded? && WellFormed(ev) && Applies(db, ev) && Ready(db, ev) && PositionsAllowed(db.positions)
    ensures PositionsAllowed(SettleTrade(db, ev).value.positions)
  {
    var claimed := Claim(db, ev.eventId);
    if !InstrumentOf(db.market, ev.symbol).Spot? {
      LegsSettle(claimed, ev);
    }
  }

  /** One delivery, fresh or repeated, keeps the database and its pending events consistent. */
  lemma DeliverKeepsPlan(db: Db, events: seq<Event>, k: nat, n: nat)
    requires Consistent(db, events) && HoldsExact(db, n) && k < |events| && WellFormed(events[k]) && Deliver(db, events[k]).Ok?
    ensures Consistent(Deliver(db, events[k]).value, events) && HoldsExact(Deliver(db, events[k]).value, n)
  {
    assert Ready(db, events[k]);
    DeliverKeepsHolds(db, events[k], n);
    if IsPending(db, events[k]) {
      if events[k].Traded? {
        TradeKeepsPlan(db, events, k, n);
        TradeKeepsPositions(db, events[k]);
      } else {
        CloseKeepsPlan(db, events, k, n);
        CloseRows(db, events[k]);
      }
    }
  }

  // ---------------------------------------------------------------- deliveries in any order

  predicate InRange(order: seq<nat>, m: nat) {
    forall i :: 0 <= i < |order| ==> order[i] < m
  }

  predicate AllWellFormed(events: seq<Event>) {
    forall i :: 0 <= i < |events| ==> WellFormed(events[i])
  }

  function Attempt(db: Db, ev: Event): Db
    requires WellFormed(ev)
  {
    var result := Deliver(db, ev);
    if result.Ok? then result.value else db
  }

  /** Delivers events by index, in the given order; a failed delivery changes nothing and may be retried. */
  function DeliverAll(db: Db, events: seq<Event>, order: seq<nat>): Db
    requires AllWellFormed(events) && InRange(order, |events|)
  {
    if order == [] then db
    else Attempt(DeliverAll(db, events, order[..|order| - 1]), events[order[|order| - 1]])
  }

  predicate AllSettled(db: Db, events: seq<Event>) {
    forall i :: 0 <= i < |events| ==> events[i].eventId in db.processed
  }

  lemma {:induction false} RunKeepsPlan(db: Db, events: seq<Event>, order: seq<nat>, n: nat)
    requires Consistent(db, events) && HoldsExact(db, n) && AllWellFormed(events) && InRange(order, |events|)
    ensures Consistent(DeliverAll(db, events, order), events) && HoldsExact(DeliverAll(db, events, order), n)
  {
    if order != [] {
      var earlier := order[..|order| - 1];
      RunKeepsPlan(db, events, earlier, n);
      var before := DeliverAll(db, events, earlier);
      if Deliver(before, events[order[|order| - 1]]).Ok? {
        DeliverKeepsPlan(before, events, order[|order| - 1], n);
      }
    }
  }
}
