/**
 * No matched order raises a fee debt: where every spot buy is reserved with its
 * fee, the engines never match one above what was reserved, so every fill is
 * covered and purses do not depend on the order of delivery.
 */
module JointFunding {
  import opened Common
  import opened Fees
  import opened Futures
  import opened Bank
  import opened BankLaws
  import opened Settlement
  import opened SettlementHolds
  import opened SettlementProgress
  import opened SettlementConfluence
  import opened SettlementForecast
  import opened SettlementFunding
  import opened OrderAdmission
  import opened EngineToSettlement
  import opened JointMachine
  import opened JointSafety
  import opened JointMatching
  import opened JointSettling
  import opened JointRuns
  import Arithmetic
  import OrderBook
  import Engine
  import EngineSafety
  import EngineNames

  /**
   * A spot buy reserves its bound and the fee on it, as known once fees are in
   * effect; an account that pays no fee reserves at least its bound.
   */
  predicate ReservesFee(i: Instrument, exempt: bool, side: Side, kind: OrderBook.Kind, hold: int) {
    i.Spot? && side == Buy ==>
      && OrderBook.Bound(kind).Some?
      && var b := OrderBook.Bound(kind).value;
         hold == OrderHoldWithFee(b, 1, b, TRADING_FEES_EFFECTIVE_AT) || (exempt && hold >= b)
  }

  /** What every placement of the run reserves. */
  predicate PlacesWithFee(st: State, step: Step) {
    step.Place? ==>
      ReservesFee(InstrumentOf(st.db.market, step.symbol), step.inc.accountId in st.db.bots, step.inc.side, step.inc.kind, step.terms.holdPerUnit)
  }

  ghost predicate FundedRuns(st: State, steps: seq<Step>, n: nat)
    requires Runs(st, steps, n)
    decreases steps
  {
    steps == [] || (PlacesWithFee(st, steps[0]) && FundedRuns(Next(st, steps[0]), steps[1..], n))
  }

  // ---------------------------------------------------------------- every row on the book is reserved with its fee

  predicate RowReserves(db: Db, row: Engine.OrderRow, o: OrderRow) {
    ReservesFee(InstrumentOf(db.market, o.symbol), row.accountId in db.bots, row.side, row.kind, o.holdPerUnit)
  }

  ghost predicate OrderReserves(engines: Engines, db: Db, o: OrderId) {
    o in db.orders && db.orders[o].symbol in engines && o in engines[db.orders[o].symbol].d.orders ==>
      RowReserves(db, engines[db.orders[o].symbol].d.orders[o], db.orders[o])
  }

  ghost predicate AllReserve(st: State) {
    forall o :: OrderReserves(st.engines, st.db, o)
  }

  /** What reservations depend on: order rows keep their terms, and who is exempt never changes. */
  ghost predicate SamePlacement(st: State, next: State, o: OrderId) {
    next.db.market == st.db.market && next.db.bots == st.db.bots &&
    (o in next.db.orders && next.db.orders[o].symbol in next.engines && o in next.engines[next.db.orders[o].symbol].d.orders ==>
       var s := next.db.orders[o].symbol;
       && o in st.db.orders && s in st.engines && o in st.engines[s].d.orders
       && SameTerms(st.db.orders[o], next.db.orders[o])
       && EngineNames.SamePlacer(st.engines[s].d.orders[o], next.engines[s].d.orders[o]))
  }

  lemma ReservesStay(st: State, next: State, o: OrderId)
    requires OrderReserves(st.engines, st.db, o) && SamePlacement(st, next, o)
    ensures OrderReserves(next.engines, next.db, o)
  {
  }

  lemma WorkKeepsPlacement(st: State, symbol: Symbol, step: Engine.Step, stamp: int, o: OrderId)
    requires Enabled(st, Work(symbol, step, stamp))
    ensures SamePlacement(st, Next(st, Work(symbol, step, stamp)), o)
  {
    OwnStepExtends(st.engines[symbol], step);
  }

  lemma ReceiveKeepsPlacement(st: State, k: nat, n: nat, o: OrderId)
    requires Inv(st, n) && Enabled(st, Receive(k))
    ensures SamePlacement(st, Next(st, Receive(k)), o)
  {
    JoinedIsConsistent(st.engines, st.db, st.events);
    var after := Attempt(st.db, st.events[k]);
    DeliveryIs(st.engines, st.db, st.events, k, n);
    NamedAreReadable(st.engines, st.db, after, st.events, k);
    if o in after.orders {
      assert o in st.db.orders.Keys;
      assert SameTerms(st.db.orders[o], after.orders[o]);
      ReadKeepsPlacer(st.engines, after.orders, st.events[k], after.orders[o].symbol, o);
    }
  }

  lemma ReadKeepsPlacer(engines: Engines, orders: Orders, ev: Event, s: Symbol, o: OrderId)
    requires ev.symbol in engines && NamesReadable(engines[ev.symbol].d, orders, ev)
    ensures
      var now := SyncedIn(engines, orders, ev);
      s in now && o in now[s].d.orders ==>
        s in engines && o in engines[s].d.orders && EngineNames.SamePlacer(engines[s].d.orders[o], now[s].d.orders[o])
  {
    var now := SyncedIn(engines, orders, ev);
    if s == ev.symbol && o in now[s].d.orders {
      SyncedKeys(engines[s], orders, ev);
      assert o in engines[s].d.orders.Keys;
      SyncedWithRows(engines[s], orders, ev, o);
    }
  }

  lemma SyncedKeys(s: Engine.State, orders: Orders, ev: Event)
    ensures SyncedWith(s, orders, ev).d.orders.Keys == s.d.orders.Keys
  {
  }

  lemma PlaceReserves(st: State, symbol: Symbol, inc: OrderBook.Incoming, eid: EventId, terms: OrderTerms, o: OrderId)
    requires Enabled(st, Place(symbol, inc, eid, terms)) && PlacesWithFee(st, Place(symbol, inc, eid, terms))
    requires OrderReserves(st.engines, st.db, o)
    ensures OrderReserves(Placed(st, symbol, inc, eid, terms).engines, Placed(st, symbol, inc, eid, terms).db, o)
  {
    var r := RequestOf(symbol, inc, terms);
    if PlaceOrder(st.db, r).Ok? {
      PlacedIs(st.db, r);
    }
  }

  lemma StepReserves(st: State, step: Step, n: nat, o: OrderId)
    requires Inv(st, n) && Enabled(st, step) && PlacesWithFee(st, step) && OrderReserves(st.engines, st.db, o)
    ensures OrderReserves(Next(st, step).engines, Next(st, step).db, o)
  {
    match step
    case Place(symbol, inc, eid, terms) => PlaceReserves(st, symbol, inc, eid, terms, o);
    case Work(symbol, own, stamp) =>
      WorkKeepsPlacement(st, symbol, own, stamp, o);
      ReservesStay(st, Next(st, step), o);
    case Receive(k) =>
      ReceiveKeepsPlacement(st, k, n, o);
      ReservesStay(st, Next(st, step), o);
    case SettleDaily(symbol, day, price, account, row) =>
      if Next(st, step) != st {
        DailyIs(st.db, symbol, day, price, account, row, n);
      }
  }

  // ---------------------------------------------------------------- so every fill on the stream is covered

  /** An account that pays no fee is covered by its bound. */
  lemma ExemptIsCovered(db: Db, ev: Event)
    requires ev.Traded? && WellFormed(ev) && ev.buyOrder in db.orders && InstrumentOf(db.market, ev.symbol).Spot?
    requires ev.price <= db.orders[ev.buyOrder].holdPerUnit && ev.buyer in db.bots
    ensures Covered(db, ev)
  {
    Arithmetic.MulMono(ev.price, db.orders[ev.buyOrder].holdPerUnit, ev.qty);
    Arithmetic.MulMono(0, ev.qty, ev.price);
    FeeAtMost(TradeNotional(1, ev.price, ev.qty), ev.ts, Cost(ev));
  }

  /** A fill on the stream names a buy order of its engine, at a price within that order's bound. */
  lemma PriceWithin(engines: Engines, db: Db, ev: Event, i: nat)
    requires EnginesOk(engines, db) && EventRecorded(engines, ev, i) && ev.Traded?
    ensures ev.buyOrder in engines[ev.symbol].d.orders && ev.buyOrder in db.orders && db.orders[ev.buyOrder].symbol == ev.symbol
    ensures
      var row := engines[ev.symbol].d.orders[ev.buyOrder];
      row.side == Buy && row.accountId == ev.buyer && EngineNames.Within(row, ev.price)
  {
    var d := engines[ev.symbol].d;
    var r: nat, stamp: int :| Relays(ev, i, d.outbox, r, stamp);
    assert Healthy(engines[ev.symbol]) && RowsAgree(db, d, ev.symbol);
    RowIsRecorded(d.outbox, r);
    var f := d.outbox[r].fill;
    assert EngineSafety.FillOk(f, d.orders) && EngineNames.FillNames(f, d.orders);
    ColumnsNameOrders(f, d.orders);
  }

  /** A spot fill on the stream was matched within its buyer's bound, and the reservation covers it with its fee. */
  lemma MatchedIsCovered(st: State, k: nat)
    requires EnginesOk(st.engines, st.db) && EventsRecorded(st.engines, st.events) && AllReserve(st) && k < |st.events|
    requires st.events[k].Traded? && InstrumentOf(st.db.market, st.events[k].symbol).Spot?
    ensures Covered(st.db, st.events[k])
  {
    var ev := st.events[k];
    assert EventRecorded(st.engines, ev, k);
    EventIsReady(st.engines, st.db, ev, k);
    PriceWithin(st.engines, st.db, ev, k);
    var d := st.engines[ev.symbol].d;
    var row, o := d.orders[ev.buyOrder], st.db.orders[ev.buyOrder];
    assert OrderReserves(st.engines, st.db, ev.buyOrder);
    assert RowReserves(st.db, row, o);
    var b := OrderBook.Bound(row.kind).value;
    if o.holdPerUnit == OrderHoldWithFee(b, 1, b, TRADING_FEES_EFFECTIVE_AT) {
      ReservedIsCovered(st.db, ev, b, TRADING_FEES_EFFECTIVE_AT);
    } else {
      ExemptIsCovered(st.db, ev);
    }
  }

  lemma AllMatchedCovered(st: State)
    requires EnginesOk(st.engines, st.db) && EventsRecorded(st.engines, st.events) && AllReserve(st) && SpotOnly(st.db, st.events)
    ensures AllCovered(st.db, st.events)
  {
    forall i | 0 <= i < |st.events| ensures Covered(st.db, st.events[i]) {
      if st.events[i].Traded? {
        MatchedIsCovered(st, i);
      }
    }
  }

  // ---------------------------------------------------------------- whole runs

  lemma {:induction false} RunReserves(st: State, steps: seq<Step>, n: nat)
    requires Inv(st, n) && Runs(st, steps, n) && FundedRuns(st, steps, n) && AllReserve(st)
    ensures AllReserve(After(st, steps, n))
    decreases steps
  {
    if steps != [] {
      var next := Next(st, steps[0]);
      forall o ensures OrderReserves(next.engines, next.db, o) {
        assert OrderReserves(st.engines, st.db, o);
        StepReserves(st, steps[0], n, o);
      }
      StepKeepsInv(st, steps[0], n);
      RunReserves(next, steps[1..], n);
    }
  }

  ghost predicate FundedReachable(st: State, n: nat) {
    exists start: State, steps: seq<Step> ::
      Start(start, n) && Runs(start, steps, n) && FundedRuns(start, steps, n) && After(start, steps, n) == st
  }

  lemma FundedReserves(st: State, n: nat)
    requires FundedReachable(st, n)
    ensures Inv(st, n) && AllReserve(st)
  {
    var start: State, steps: seq<Step> :|
      Start(start, n) && Runs(start, steps, n) && FundedRuns(start, steps, n) && After(start, steps, n) == st;
    StartInv(start, n);
    RunReserves(start, steps, n);
    RunKeepsInv(start, steps, n);
  }

  /**
   * In every state such runs reach, receiving a share trade or any close -
   * fresh, repeated or failing - leaves every debt as it was and every balance
   * at or above its hold.
   */
  lemma SpotDeliveryRaisesNoDebt(st: State, k: nat, n: nat, c: AccountId)
    requires FundedReachable(st, n) && Enabled(st, Receive(k)) && c in st.db.bank.accounts
    requires st.events[k].Traded? ==> InstrumentOf(st.db.market, st.events[k].symbol).Spot?
    ensures
      var before, after := PurseOf(st.db.bank, c), PurseOf(Next(st, Receive(k)).db.bank, c);
      after.debt == before.debt && after.balance >= after.hold
  {
    FundedReserves(st, n);
    DeliveryKeepsDebt(st, k, n, c);
    ReceiveKeepsInv(st, k, n);
    JoinedIsConsistent(st.engines, st.db, st.events);
    DeliveryIs(st.engines, st.db, st.events, k, n);
    assert c in Next(st, Receive(k)).db.bank.accounts.Keys;
  }

  lemma DeliveryKeepsDebt(st: State, k: nat, n: nat, c: AccountId)
    requires Inv(st, n) && AllReserve(st) && Enabled(st, Receive(k)) && c in st.db.bank.accounts
    requires st.events[k].Traded? ==> InstrumentOf(st.db.market, st.events[k].symbol).Spot?
    ensures PurseOf(Next(st, Receive(k)).db.bank, c).debt == PurseOf(st.db.bank, c).debt
  {
    if Deliver(st.db, st.events[k]).Ok? {
      JoinedIsConsistent(st.engines, st.db, st.events);
      assert Ready(st.db, st.events[k]);
      if st.events[k].Traded? {
        MatchedIsCovered(st, k);
      }
      DeliveryKeepsDebts(st.db, st.events[k], c, n);
    }
  }

  /** Only shares are listed. */
  ghost predicate AllSpot(db: Db) {
    forall s: Symbol :: InstrumentOf(db.market, s).Spot?
  }

  lemma StepKeepsDebt(st: State, step: Step, n: nat, c: AccountId)
    requires Inv(st, n) && AllReserve(st) && Enabled(st, step) && AllSpot(st.db) && c in st.db.bank.accounts
    ensures PurseOf(Next(st, step).db.bank, c).debt == PurseOf(st.db.bank, c).debt
    ensures c in Next(st, step).db.bank.accounts && Next(st, step).db.market == st.db.market
  {
    match step
    case Place(symbol, inc, eid, terms) =>
      var r := RequestOf(symbol, inc, terms);
      if PlaceOrder(st.db, r).Ok? {
        AdmitEffect(st.db, r);
        assert c in Next(st, step).db.bank.accounts.Keys;
      }
    case Work(symbol, own, stamp) =>
    case Receive(k) =>
      JoinedIsConsistent(st.engines, st.db, st.events);
      DeliveryIs(st.engines, st.db, st.events, k, n);
      DeliveryKeepsDebt(st, k, n, c);
      assert c in Next(st, step).db.bank.accounts.Keys;
    case SettleDaily(_, _, _, _, _) =>
  }

  /** Over every such run of an exchange that lists shares, whatever is matched and however it is settled, no debt ever changes. */
  lemma {:induction false} MatchedOrdersRaiseNoDebt(st: State, steps: seq<Step>, n: nat, c: AccountId)
    requires Inv(st, n) && AllReserve(st) && AllSpot(st.db) && Runs(st, steps, n) && FundedRuns(st, steps, n)
    requires c in st.db.bank.accounts
    ensures
      var after := After(st, steps, n).db.bank;
      c in after.accounts && PurseOf(after, c).debt == PurseOf(st.db.bank, c).debt && PurseOf(after, c).balance >= PurseOf(after, c).hold
    decreases steps
  {
    if steps != [] {
      var next := Next(st, steps[0]);
      StepKeepsDebt(st, steps[0], n, c);
      forall o ensures OrderReserves(next.engines, next.db, o) {
        assert OrderReserves(st.engines, st.db, o);
        StepReserves(st, steps[0], n, o);
      }
      StepKeepsInv(st, steps[0], n);
      MatchedOrdersRaiseNoDebt(next, steps[1..], n, c);
    }
  }

  /** From every such state, any two complete deliveries of shares leave each account the same balance, hold and debt. */
  lemma FundedPursesAgree(st: State, first: seq<nat>, second: seq<nat>, n: nat, c: AccountId)
    requires FundedReachable(st, n) && SpotOnly(st.db, st.events) && c in st.db.bank.accounts
    requires InRange(first, |st.events|) && InRange(second, |st.events|)
    ensures Runs(st, Receives(first), n) && Runs(st, Receives(second), n)
    ensures
      var x, y := After(st, Receives(first), n).db, After(st, Receives(second), n).db;
      AllSettled(x, st.events) && AllSettled(y, st.events) ==> PurseOf(x.bank, c) == PurseOf(y.bank, c)
  {
    FundedReserves(st, n);
    JoinedIsConsistent(st.engines, st.db, st.events);
    AllMatchedCovered(st);
    ReceivesDeliver(st, first, n);
    ReceivesDeliver(st, second, n);
    var x, y := After(st, Receives(first), n).db, After(st, Receives(second), n).db;
    if AllSettled(x, st.events) && AllSettled(y, st.events) {
      ConfluentBalances(st.db, st.events, first, second, n, c);
    }
  }
}
