/**
 * Whole runs of the joint machine: what was matched is booked or pending, order
 * by order; whatever is pending can be settled; and each part of the machine
 * behaves as the model of that part alone says.
 */
module JointRuns {
  import opened Common
  import opened Bank
  import opened BankLaws
  import opened Settlement
  import opened SettlementHolds
  import opened SettlementProgress
  import opened SettlementConfluence
  import opened SettlementForecast
  import opened OrderAdmission
  import opened EngineToSettlement
  import opened JointMachine
  import opened JointSafety
  import opened JointMatching
  import opened JointSettling
  import Sums
  import SettlementRuns
  import OrderBookLaws
  import Engine
  import EngineRuns

  lemma StepKeepsInv(st: State, step: Step, n: nat)
    requires Inv(st, n) && Enabled(st, step) && !Rematches(st, step) && (step.Place? ==> 0 <= step.inc.orderId < n)
    ensures Inv(Next(st, step), n)
  {
    match step
    case Place(symbol, inc, eid, terms) => PlaceKeepsInv(st, symbol, inc, eid, terms, n);
    case Work(symbol, step, stamp) => WorkKeepsInv(st, symbol, step, stamp, n);
    case Receive(k) => ReceiveKeepsInv(st, k, n);
    case SettleDaily(symbol, day, price, account, row) => DailyKeepsInv(st, symbol, day, price, account, row, n);
  }

  lemma {:induction false} RunKeepsInv(st: State, steps: seq<Step>, n: nat)
    requires Inv(st, n) && Runs(st, steps, n)
    ensures Inv(After(st, steps, n), n)
    decreases steps
  {
    if steps != [] {
      StepKeepsInv(st, steps[0], n);
      RunKeepsInv(Next(st, steps[0]), steps[1..], n);
    }
  }

  ghost predicate Reachable(st: State, n: nat) {
    exists start: State, steps: seq<Step> :: Start(start, n) && Runs(start, steps, n) && After(start, steps, n) == st
  }

  lemma ReachableInv(st: State, n: nat)
    requires Reachable(st, n)
    ensures Inv(st, n)
  {
    var start: State, steps: seq<Step> :| Start(start, n) && Runs(start, steps, n) && After(start, steps, n) == st;
    StartInv(start, n);
    RunKeepsInv(start, steps, n);
  }

  // ---------------------------------------------------------------- order by order

  /**
   * In every reachable state, however far settlement lags behind: an order's
   * row and its pending fills together are exactly what its engine matched,
   * never more than its quantity, and fills are only pending for active orders.
   */
  lemma MatchedIsBookedOrPending(st: State, n: nat, o: OrderId)
    requires Reachable(st, n) && o in st.db.orders
    ensures
      var row := st.db.orders[o];
      var pending := PendingQty(st.events, st.db.processed, o);
      && row.symbol in st.engines
      && row.filledQty + pending == OrderBookLaws.FilledQty(st.engines[row.symbol].d.trades, o) <= row.qty
      && pending >= 0 && (pending > 0 ==> IsActive(row.status))
  {
    ReachableInv(st, n);
    JoinedIsConsistent(st.engines, st.db, st.events);
    var s := st.db.orders[o].symbol;
    assert Accounted(st.engines, st.db, st.events, o) && StillActive(st.db, st.events, o);
    assert Healthy(st.engines[s]) && RowsAgree(st.db, st.engines[s].d, s);
    assert Agrees(st.db, st.engines[s].d.orders[o], st.db.orders[o]);
    PendingQtyNonNegative(st.events, st.db.processed, o);
  }

  /**
   * In every reachable state no fill comes too late or too much: each pending
   * one settles now, and a pending close waits for its order's fills and for
   * nothing else.
   */
  lemma PendingEventsSettle(st: State, n: nat, k: nat)
    requires Reachable(st, n) && k < |st.events| && IsPending(st.db, st.events[k])
    ensures WellFormed(st.events[k])
    ensures
      var ev := st.events[k];
      if ev.Traded? then Deliver(st.db, ev).Ok?
      else Deliver(st.db, ev) == Err(CloseAhead) || (Deliver(st.db, ev).Ok? && PendingQty(st.events, st.db.processed, ev.orderId) == 0)
  {
    ReachableInv(st, n);
    JoinedIsConsistent(st.engines, st.db, st.events);
    if st.events[k].Traded? {
      TradeSucceeds(st.db, st.events, k, n);
    } else {
      assert EventRecorded(st.engines, st.events[k], k);
      CloseOnStream(st.engines, st.db, st.events[k], k);
      CloseSucceedsIff(st.db, st.events, k, n);
    }
  }

  // ---------------------------------------------------------------- the rest can always be settled

  function Receives(order: seq<nat>): seq<Step> {
    seq(|order|, i requires 0 <= i < |order| => Receive(order[i]))
  }

  lemma ReceivesCons(order: seq<nat>)
    requires order != []
    ensures Receives(order) == [Receive(order[0])] + Receives(order[1..])
  {
  }

  /** The receives lead from `st` to a state with this database and the same stream. */
  ghost predicate Receiving(st: State, steps: seq<Step>, db: Db, n: nat) {
    Runs(st, steps, n) && After(st, steps, n).db == db && After(st, steps, n).events == st.events && Inv(After(st, steps, n), n)
  }

  lemma ReceiveFirst(st: State, j: nat, steps: seq<Step>, db: Db, n: nat)
    requires Enabled(st, Receive(j)) && Receiving(Next(st, Receive(j)), steps, db, n)
    ensures Receiving(st, [Receive(j)] + steps, db, n)
  {
    var all := [Receive(j)] + steps;
    assert all[0] == Receive(j) && all[1..] == steps;
    assert !Rematches(st, Receive(j));
  }

  lemma {:induction false} ReceivesDeliver(st: State, order: seq<nat>, n: nat)
    requires Inv(st, n) && AllWellFormed(st.events) && InRange(order, |st.events|)
    ensures Receiving(st, Receives(order), DeliverAll(st.db, st.events, order), n)
    decreases |order|
  {
    if order != [] {
      var j, rest := order[0], order[1..];
      assert order == [j] + rest;
      assert InRange(rest, |st.events|);
      ReceiveKeepsInv(st, j, n);
      ReceivesDeliver(Next(st, Receive(j)), rest, n);
      DeliverFirst(st.db, st.events, j, rest);
      ReceivesCons(order);
      ReceiveFirst(st, j, Receives(rest), DeliverAll(st.db, st.events, order), n);
    }
  }

  /** The row shows exactly what its engine matched, and has ended exactly if its engine closed it. */
  predicate FullyBooked(st: State, o: OrderId) {
    o in st.db.orders && st.db.orders[o].symbol in st.engines &&
    var row, d := st.db.orders[o], st.engines[st.db.orders[o].symbol].d;
    row.filledQty == OrderBookLaws.FilledQty(d.trades, o) && (!IsActive(row.status) <==> o in d.markers)
  }

  lemma ClosedHasEnded(st: State, n: nat, o: OrderId)
    requires Inv(st, n) && AllSettled(st.db, st.events) && o in st.db.orders
    requires st.db.orders[o].symbol in st.engines && o in st.engines[st.db.orders[o].symbol].d.markers
    ensures !IsActive(st.db.orders[o].status)
  {
    var s := st.db.orders[o].symbol;
    var outbox := st.engines[s].d.outbox;
    assert Healthy(st.engines[s]);
    var r := CloseRow(outbox, o);
    assert OnStream(s, outbox, r, st.events);
    var i: nat, stamp: int :| i < |st.events| && st.events[i].symbol == s && Relays(st.events[i], i, outbox, r, stamp);
    assert CloseDone(st.db, st.events[i]);
  }

  lemma SettledIsBooked(st: State, n: nat, o: OrderId)
    requires Inv(st, n) && AllSettled(st.db, st.events) && o in st.db.orders
    ensures FullyBooked(st, o)
  {
    assert Accounted(st.engines, st.db, st.events, o);
    Sums.SumZero(PendingFills(st.events, st.db.processed, o), |st.events|);
    if o in st.engines[st.db.orders[o].symbol].d.markers {
      ClosedHasEnded(st, n, o);
    }
    if !IsActive(st.db.orders[o].status) {
      EndedIsClosed(st.engines, st.db, o);
    }
  }

  /**
   * What is matched settles: from every state the whole exchange can reach -
   * orders placed and refused, engines crashed and restarted, events received
   * twice, too early or not yet - some deliveries settle everything that is on
   * the stream, and then every order row shows what its engine matched, and has
   * ended exactly if its engine closed it.
   */
  lemma WhatIsMatchedSettles(st: State, n: nat) returns (order: seq<nat>)
    requires Reachable(st, n)
    ensures Runs(st, Receives(order), n)
    ensures
      var after := After(st, Receives(order), n);
      AllSettled(after.db, st.events) && forall o :: o in after.db.orders ==> FullyBooked(after, o)
  {
    ReachableInv(st, n);
    JoinedIsConsistent(st.engines, st.db, st.events);
    order := CanFinish(st.db, st.events, n);
    ReceivesDeliver(st, order, n);
    var after := After(st, Receives(order), n);
    forall o | o in after.db.orders ensures FullyBooked(after, o) {
      SettledIsBooked(after, n, o);
    }
  }

  /** From every reachable state, any two complete deliveries of shares end with the same rows, holds, shares and equity. */
  lemma SpotDeliveriesEndAlike(st: State, first: seq<nat>, second: seq<nat>, n: nat)
    requires Reachable(st, n) && SpotOnly(st.db, st.events)
    requires InRange(first, |st.events|) && InRange(second, |st.events|)
    ensures Runs(st, Receives(first), n) && Runs(st, Receives(second), n)
    ensures
      var x, y := After(st, Receives(first), n).db, After(st, Receives(second), n).db;
      AllSettled(x, st.events) && AllSettled(y, st.events) ==> SameOutcome(x, y)
  {
    ReachableInv(st, n);
    JoinedIsConsistent(st.engines, st.db, st.events);
    ReceivesDeliver(st, first, n);
    ReceivesDeliver(st, second, n);
    var x, y := After(st, Receives(first), n).db, After(st, Receives(second), n).db;
    if AllSettled(x, st.events) && AllSettled(y, st.events) {
      Confluent(st.db, st.events, first, second, n);
    }
  }

  // ---------------------------------------------------------------- the database is a settlement run

  function DbStep(st: State, step: Step): seq<SettlementRuns.Step>
    requires Enabled(st, step)
  {
    match step
    case Place(symbol, inc, _, terms) => [SettlementRuns.Admit(RequestOf(symbol, inc, terms))]
    case Work(_, _, _) => []
    case Receive(k) => [SettlementRuns.Receive(st.events[k])]
    case SettleDaily(symbol, day, price, account, row) => [SettlementRuns.SettleDaily(symbol, day, price, account, row)]
  }

  ghost function DbSteps(st: State, steps: seq<Step>, n: nat): seq<SettlementRuns.Step>
    requires Runs(st, steps, n)
    decreases steps
  {
    if steps == [] then [] else DbStep(st, steps[0]) + DbSteps(Next(st, steps[0]), steps[1..], n)
  }

  lemma DbStepIs(st: State, step: Step, n: nat)
    requires Inv(st, n) && Enabled(st, step) && (step.Place? ==> 0 <= step.inc.orderId < n)
    ensures
      var own := DbStep(st, step);
      if own == [] then Next(st, step).db == st.db
      else |own| == 1 && SettlementRuns.Enabled(st.db, own[0]) && SettlementRuns.Next(st.db, own[0]) == Next(st, step).db
    ensures SettlementRuns.IdsBelow(DbStep(st, step), n)
  {
    if step.Receive? {
      JoinedIsConsistent(st.engines, st.db, st.events);
      assert Ready(st.db, st.events[step.k]);
    }
  }

  /** The database of the machine goes through a run of the settlement model, so its books are kept as there. */
  lemma {:induction false} DatabaseRuns(st: State, steps: seq<Step>, n: nat)
    requires Inv(st, n) && Runs(st, steps, n)
    ensures
      var own := DbSteps(st, steps, n);
      SettlementRuns.Runs(st.db, own) && SettlementRuns.After(st.db, own) == After(st, steps, n).db && SettlementRuns.IdsBelow(own, n)
    decreases steps
  {
    if steps != [] {
      StepKeepsInv(st, steps[0], n);
      DbStepIs(st, steps[0], n);
      var rest := DbSteps(Next(st, steps[0]), steps[1..], n);
      DatabaseRuns(Next(st, steps[0]), steps[1..], n);
      var own := DbStep(st, steps[0]);
      if own == [] {
        assert own + rest == rest;
      } else {
        assert (own + rest)[0] == own[0] && (own + rest)[1..] == rest;
      }
    }
  }

  /** Over every run of the machine reservations stay exact and each ledger is a chain that ends at its balance. */
  lemma RunKeepsBooks(start: State, steps: seq<Step>, n: nat, a: AccountId, opening: int)
    requires Start(start, n) && Runs(start, steps, n) && Balanced(start.db.bank, a, opening)
    ensures HoldsExact(After(start, steps, n).db, n) && Balanced(After(start, steps, n).db.bank, a, opening)
  {
    StartInv(start, n);
    DatabaseRuns(start, steps, n);
    SettlementRuns.EveryRunKeepsBooks(start.db, DbSteps(start, steps, n), n, a, opening);
  }

  // ---------------------------------------------------------------- every engine is an engine run

  function ReadRow(orders: Orders, o: OrderId): Engine.Step
    requires o in orders && orders[o].filledQty >= 0
  {
    Engine.SettleRow(o, orders[o].filledQty, StatusOf(orders[o].status))
  }

  predicate Shown(orders: Orders, o: OrderId) {
    o in orders && orders[o].filledQty >= 0
  }

  /** The rows an engine reads when an event was received. */
  function ReadRows(orders: Orders, ev: Event): seq<Engine.Step> {
    if ev.Traded? then
      if Shown(orders, ev.buyOrder) && Shown(orders, ev.sellOrder) then [ReadRow(orders, ev.buyOrder), ReadRow(orders, ev.sellOrder)] else []
    else if Shown(orders, ev.orderId) then [ReadRow(orders, ev.orderId)]
    else []
  }

  function EngineStep(st: State, step: Step, symbol: Symbol): seq<Engine.Step>
    requires Enabled(st, step)
  {
    match step
    case Place(s, inc, eid, terms) =>
      if s == symbol && PlaceOrder(st.db, RequestOf(s, inc, terms)).Ok? then [Engine.Admit(inc, eid)] else []
    case Work(s, own, _) => if s == symbol then [own] else []
    case Receive(k) => if st.events[k].symbol == symbol then ReadRows(Next(st, step).db.orders, st.events[k]) else []
    case SettleDaily(_, _, _, _, _) => []
  }

  ghost function EngineSteps(st: State, steps: seq<Step>, symbol: Symbol, n: nat): seq<Engine.Step>
    requires Runs(st, steps, n)
    decreases steps
  {
    if steps == [] then [] else EngineStep(st, steps[0], symbol) + EngineSteps(Next(st, steps[0]), steps[1..], symbol, n)
  }

  /** The steps lead from `s` to `t`, and none rematches. */
  ghost predicate Leads(s: Engine.State, own: seq<Engine.Step>, t: Engine.State) {
    Engine.Runs(s, own) && EngineRuns.NeverRematches(s, own) && Engine.After(s, own) == t
  }

  lemma LeadsOne(s: Engine.State, step: Engine.Step)
    requires Engine.Enabled(s, step) && !EngineRuns.Rematches(s, step)
    ensures Leads(s, [step], Engine.Next(s, step))
  {
    assert [step][1..] == [];
  }

  lemma {:induction false} LeadsOn(s: Engine.State, a: seq<Engine.Step>, t: Engine.State, b: seq<Engine.Step>, u: Engine.State)
    requires Leads(s, a, t) && Leads(t, b, u)
    ensures Leads(s, a + b, u)
    decreases a
  {
    if a == [] {
      assert a + b == b;
    } else {
      assert (a + b)[0] == a[0] && (a + b)[1..] == a[1..] + b;
      LeadsOn(Engine.Next(s, a[0]), a[1..], t, b, u);
    }
  }

  lemma ReadLeads(s: Engine.State, orders: Orders, o: OrderId)
    requires Readable(s.d, orders, o)
    ensures Leads(s, [ReadRow(orders, o)], Synced(s, orders, o))
  {
    LeadsOne(s, ReadRow(orders, o));
  }

  /** Settlement's rows reach the engine by steps its own model allows: what that model assumes of settlement is proved here. */
  lemma ReadsLead(s: Engine.State, orders: Orders, ev: Event)
    requires NamesReadable(s.d, orders, ev)
    ensures Leads(s, ReadRows(orders, ev), SyncedWith(s, orders, ev))
  {
    if ev.Traded? {
      ReadLeads(s, orders, ev.buyOrder);
      SyncedRows(s, orders, ev.buyOrder, ev.sellOrder);
      var t := Synced(s, orders, ev.buyOrder);
      ReadLeads(t, orders, ev.sellOrder);
      LeadsOn(s, [ReadRow(orders, ev.buyOrder)], t, [ReadRow(orders, ev.sellOrder)], SyncedWith(s, orders, ev));
      assert [ReadRow(orders, ev.buyOrder)] + [ReadRow(orders, ev.sellOrder)] == ReadRows(orders, ev);
    } else {
      ReadLeads(s, orders, ev.orderId);
    }
  }

  lemma ReceiveLeads(st: State, k: nat, symbol: Symbol, n: nat)
    requires Inv(st, n) && Enabled(st, Receive(k)) && symbol in st.engines
    ensures symbol in Next(st, Receive(k)).engines
    ensures Leads(st.engines[symbol], EngineStep(st, Receive(k), symbol), Next(st, Receive(k)).engines[symbol])
  {
    var after := Attempt(st.db, st.events[k]);
    if st.events[k].symbol == symbol {
      JoinedIsConsistent(st.engines, st.db, st.events);
      DeliveryIs(st.engines, st.db, st.events, k, n);
      NamedAreReadable(st.engines, st.db, after, st.events, k);
      ReadsLead(st.engines[symbol], after.orders, st.events[k]);
    }
  }

  lemma StepLeads(st: State, step: Step, symbol: Symbol, n: nat)
    requires Inv(st, n) && Enabled(st, step) && !Rematches(st, step) && symbol in st.engines
    ensures symbol in Next(st, step).engines
    ensures Leads(st.engines[symbol], EngineStep(st, step, symbol), Next(st, step).engines[symbol])
  {
    match step
    case Place(s, inc, eid, _) =>
      if s == symbol {
        LeadsOne(st.engines[symbol], Engine.Admit(inc, eid));
      }
    case Work(s, own, _) =>
      if s == symbol {
        LeadsOne(st.engines[symbol], own);
      }
    case Receive(k) => ReceiveLeads(st, k, symbol, n);
    case SettleDaily(_, _, _, _, _) =>
  }

  /** Every engine of the machine goes through a run of the engine model that never rematches. */
  lemma {:induction false} EnginesRun(st: State, steps: seq<Step>, symbol: Symbol, n: nat)
    requires Inv(st, n) && Runs(st, steps, n) && symbol in st.engines
    ensures symbol in After(st, steps, n).engines
    ensures Leads(st.engines[symbol], EngineSteps(st, steps, symbol, n), After(st, steps, n).engines[symbol])
    decreases steps
  {
    if steps != [] {
      var next := Next(st, steps[0]);
      StepKeepsInv(st, steps[0], n);
      StepLeads(st, steps[0], symbol, n);
      EnginesRun(next, steps[1..], symbol, n);
      LeadsOn(st.engines[symbol], EngineStep(st, steps[0], symbol), next.engines[symbol],
              EngineSteps(next, steps[1..], symbol, n), After(st, steps, n).engines[symbol]);
    }
  }
}
