/**
 * Recovery meets the running exchange: read in any state the machine can reach,
 * with its missing trades older than fees, the plan is issue-free.
 */
module JointRecovery {
  import opened Common
  import opened Sums
  import opened Fees
  import opened Bank
  import opened BankLaws
  import opened Settlement
  import opened SettlementHolds
  import opened SettlementProgress
  import opened SettlementConfluence
  import opened SettlementForecast
  import opened OrderAdmission
  import opened EngineToSettlement
  import opened JointMachine
  import opened JointSafety
  import opened JointSettling
  import opened JointRuns
  import Arithmetic
  import Recovery
  import RecoveryReplay
  import RecoveryPlan
  import RecoverySettles
  import RecoveryComplete
  import OrderBookLaws
  import Engine

  // ---------------------------------------------------------------- the rows the machine writes

  /** A row's status says how far it is filled, and no row is rejected. */
  predicate TidyRow(o: OrderRow) {
    o.qty > 0 && o.status != Rejected && (o.status == Open ==> o.filledQty == 0) && (o.status == Partial ==> o.filledQty > 0)
  }

  ghost predicate Tidy(db: Db) {
    RecoveryComplete.BasisOk(db.holdings) && forall o :: o in db.orders ==> TidyRow(db.orders[o])
  }

  lemma TradeStaysTidy(db: Db, ev: Event)
    requires ev.Traded? && WellFormed(ev) && Applies(db, ev) && Tidy(db) && forall o :: o in db.orders ==> RowOk(db.orders[o])
    ensures Tidy(SettleTrade(db, ev).value)
  {
    TradeSettlesRows(db, ev);
    TradeSettlesShares(db, ev);
    if InstrumentOf(db.market, ev.symbol).Spot? {
      Arithmetic.MulMono(0, ev.qty, ev.price);
      RecoveryComplete.BasisStays(db.holdings, HoldingKey(ev.buyer, ev.symbol), HoldingKey(ev.seller, ev.symbol), ev.qty, Cost(ev));
    }
  }

  lemma CloseStaysTidy(db: Db, ev: Event)
    requires ev.Ended? && WellFormed(ev) && CloseOrder(db, ev).Ok? && Tidy(db) && ev.status != Rejected
    ensures Tidy(CloseOrder(db, ev).value)
  {
  }

  lemma NeverRejects(engines: Engines, ev: Event, i: nat)
    requires EventRecorded(engines, ev, i)
    ensures ev.Ended? ==> ev.status != Rejected
  {
    var r: nat, stamp: int :| Relays(ev, i, engines[ev.symbol].d.outbox, r, stamp);
  }

  lemma PlaceStaysTidy(db: Db, r: Request)
    requires Admissible(r) && r.id !in db.orders && PlaceOrder(db, r).Ok? && Tidy(db)
    ensures Tidy(PlaceOrder(db, r).value)
  {
  }

  lemma StepStaysTidy(st: State, step: Step, n: nat)
    requires Inv(st, n) && Enabled(st, step) && Tidy(st.db)
    ensures Tidy(Next(st, step).db)
  {
    match step
    case Place(symbol, inc, eid, terms) =>
      if PlaceOrder(st.db, RequestOf(symbol, inc, terms)).Ok? {
        PlaceStaysTidy(st.db, RequestOf(symbol, inc, terms));
      }
    case Work(symbol, own, stamp) =>
    case Receive(k) =>
      if Deliver(st.db, st.events[k]).Ok? && IsPending(st.db, st.events[k]) {
        if st.events[k].Traded? {
          TradeStaysTidy(st.db, st.events[k]);
        } else {
          assert EventRecorded(st.engines, st.events[k], k);
          NeverRejects(st.engines, st.events[k], k);
          CloseStaysTidy(st.db, st.events[k]);
        }
      }
    case SettleDaily(symbol, day, price, account, row) =>
  }

  lemma {:induction false} RunStaysTidy(st: State, steps: seq<Step>, n: nat)
    requires Inv(st, n) && Runs(st, steps, n) && Tidy(st.db)
    ensures Tidy(After(st, steps, n).db)
    decreases steps
  {
    if steps != [] {
      StepKeepsInv(st, steps[0], n);
      StepStaysTidy(st, steps[0], n);
      RunStaysTidy(Next(st, steps[0]), steps[1..], n);
    }
  }

  /** Reached from a start whose holdings have no negative cost basis. */
  ghost predicate TidilyReachable(st: State, n: nat) {
    exists start: State, steps: seq<Step> ::
      Start(start, n) && RecoveryComplete.BasisOk(start.db.holdings) && Runs(start, steps, n) && After(start, steps, n) == st
  }

  lemma TidilyReached(st: State, n: nat)
    requires TidilyReachable(st, n)
    ensures Inv(st, n) && Tidy(st.db) && Reachable(st, n)
  {
    var start: State, steps: seq<Step> :|
      Start(start, n) && RecoveryComplete.BasisOk(start.db.holdings) && Runs(start, steps, n) && After(start, steps, n) == st;
    StartInv(start, n);
    RunKeepsInv(start, steps, n);
    RunStaysTidy(start, steps, n);
  }

  // ---------------------------------------------------------------- the missing trades

  predicate Missing(ev: Event, done: set<ClaimId>) {
    ev.Traded? && ev.eventId !in done
  }

  /** The trades of the stream that settlement has not claimed, in order. */
  function MissingTrades(events: seq<Event>, done: set<ClaimId>): seq<Event> {
    if events == [] then []
    else
      var last := events[|events| - 1];
      MissingTrades(events[..|events| - 1], done) + if Missing(last, done) then [last] else []
  }

  lemma {:induction false} MissingAre(events: seq<Event>, done: set<ClaimId>)
    requires DistinctIds(events)
    ensures DistinctIds(MissingTrades(events, done))
    ensures forall i :: 0 <= i < |MissingTrades(events, done)| ==>
      MissingTrades(events, done)[i] in events && Missing(MissingTrades(events, done)[i], done)
  {
    if events != [] {
      var rest := events[..|events| - 1];
      var earlier := MissingTrades(rest, done);
      MissingAre(rest, done);
      forall i | 0 <= i < |earlier|
        ensures earlier[i].eventId != events[|events| - 1].eventId
      {
        var j :| 0 <= j < |rest| && rest[j] == earlier[i];
        assert events[j] == earlier[i];
      }
    }
  }

  lemma OneEventMore(events: seq<Event>, done: set<ClaimId>, o: OrderId)
    requires events != []
    ensures
      var last := events[|events| - 1];
      PendingQty(events, done, o) == PendingQty(events[..|events| - 1], done, o) + (if Missing(last, done) && Names(last, o) then last.qty else 0)
  {
    SumSame(PendingFills(events, done, o), PendingFills(events[..|events| - 1], done, o), |events| - 1);
  }

  lemma {:induction false} MissingAddUp(events: seq<Event>, done: set<ClaimId>, o: OrderId)
    ensures PendingQty(MissingTrades(events, done), {}, o) == PendingQty(events, done, o)
  {
    if events != [] {
      var earlier, last := events[..|events| - 1], events[|events| - 1];
      MissingAddUp(earlier, done, o);
      OneEventMore(events, done, o);
      if Missing(last, done) {
        var all := MissingTrades(events, done);
        assert all[..|all| - 1] == MissingTrades(earlier, done);
        OneEventMore(all, {}, o);
      } else {
        assert MissingTrades(events, done) == MissingTrades(earlier, done);
      }
    }
  }

  // ---------------------------------------------------------------- they settle

  /** After `k` of the missing trades the database is consistent with the stream. */
  ghost predicate Recovering(events: seq<Event>, done: set<ClaimId>, k: nat, d: Db, n: nat)
    requires k <= |MissingTrades(events, done)|
  {
    Consistent(d, events) && HoldsExact(d, n) && d.processed == done + RecoveryPlan.DoneIds(MissingTrades(events, done), k)
  }

  lemma MissingAt(events: seq<Event>, done: set<ClaimId>, k: nat) returns (j: nat)
    requires DistinctIds(events) && k < |MissingTrades(events, done)|
    ensures j < |events| && events[j] == MissingTrades(events, done)[k] && Missing(events[j], done)
    ensures events[j].eventId !in done + RecoveryPlan.DoneIds(MissingTrades(events, done), k)
    ensures done + RecoveryPlan.DoneIds(MissingTrades(events, done), k) + {events[j].eventId}
            == done + RecoveryPlan.DoneIds(MissingTrades(events, done), k + 1)
  {
    var trades := MissingTrades(events, done);
    MissingAre(events, done);
    assert trades[k] in events;
    j :| 0 <= j < |events| && events[j] == trades[k];
    RecoveryPlan.NextPending(trades, k, 0);
  }

  lemma MissingSettles(events: seq<Event>, done: set<ClaimId>, k: nat, d: Db, n: nat)
    requires DistinctIds(events) && AllWellFormed(events) && k < |MissingTrades(events, done)| && Recovering(events, done, k, d, n)
    ensures var t := MissingTrades(events, done)[k]; t.Traded? && WellFormed(t) && SettleTrade(d, t).Ok?
    ensures Recovering(events, done, k + 1, SettleTrade(d, MissingTrades(events, done)[k]).value, n)
  {
    var j := MissingAt(events, done, k);
    TradeSucceeds(d, events, j, n);
    DeliverKeepsPlan(d, events, j, n);
    MarkedBy(d, events, j, n);
  }

  lemma MissingFit(events: seq<Event>, done: set<ClaimId>)
    requires DistinctIds(events) && AllWellFormed(events)
    ensures RecoveryReplay.AllTrades(MissingTrades(events, done)) && AllWellFormed(MissingTrades(events, done))
  {
    MissingAre(events, done);
    forall i | 0 <= i < |MissingTrades(events, done)| ensures WellFormed(MissingTrades(events, done)[i]) {
      assert MissingTrades(events, done)[i] in events;
    }
  }

  lemma {:induction false} MissingAllSettle(db: Db, events: seq<Event>, k: nat, n: nat)
    requires Consistent(db, events) && HoldsExact(db, n) && AllWellFormed(events) && k <= |MissingTrades(events, db.processed)|
    requires RecoveryReplay.AllTrades(MissingTrades(events, db.processed)) && AllWellFormed(MissingTrades(events, db.processed))
    ensures
      var settled := RecoverySettles.SettleAll(db, MissingTrades(events, db.processed)[..k]);
      settled.Ok? && Recovering(events, db.processed, k, settled.value, n)
    decreases k
  {
    var trades := MissingTrades(events, db.processed);
    if k == 0 {
      assert trades[..0] == [] && RecoveryPlan.DoneIds(trades, 0) == {};
      assert db.processed + {} == db.processed;
    } else {
      MissingAllSettle(db, events, k - 1, n);
      RecoverySettles.SettleMore(db, trades, k - 1);
      MissingSettles(events, db.processed, k - 1, RecoverySettles.SettleAll(db, trades[..k - 1]).value, n);
    }
  }

  // ---------------------------------------------------------------- the plan

  /** The planner's input, as its queries read it: tables as they are, and per order what is recorded and what is missing. */
  ghost predicate Reads(st: State, n: nat, input: Recovery.Input) {
    && input.accounts == st.db.bank.accounts && input.holdings == st.db.holdings && input.orders == st.db.orders && input.bound == n
    && input.trades == MissingTrades(st.events, st.db.processed)
    && (forall o :: o in st.db.orders ==>
          && st.db.orders[o].symbol in st.engines
          && Recovery.QtyIn(input.recorded, o) == OrderBookLaws.FilledQty(st.engines[st.db.orders[o].symbol].d.trades, o)
          && Recovery.QtyIn(input.unsettled, o) == PendingQty(st.events, st.db.processed, o))
    && (forall i :: 0 <= i < |input.trades| ==> input.trades[i].symbol in input.symbols)
  }

  lemma RowIsRead(st: State, n: nat, input: Recovery.Input, o: OrderId)
    requires TidilyReachable(st, n) && Reads(st, n, input) && o in st.db.orders
    ensures RecoverySettles.FilledIsSettled(input, o)
    ensures Recovery.QtyIn(input.unsettled, o) == PendingQty(input.trades, {}, o)
    ensures st.db.orders[o].qty > 0 && st.db.orders[o].account in st.db.bank.accounts && st.db.orders[o].status != Rejected
  {
    TidilyReached(st, n);
    MatchedIsBookedOrPending(st, n, o);
    MissingAddUp(st.events, st.db.processed, o);
    var d := st.engines[st.db.orders[o].symbol].d;
    assert RowsAgree(st.db, d, st.db.orders[o].symbol);
    assert Agrees(st.db, d.orders[o], st.db.orders[o]);
    assert TidyRow(st.db.orders[o]) && RowOk(st.db.orders[o]);
  }

  lemma StreamIsRead(st: State, n: nat, input: Recovery.Input)
    requires Inv(st, n) && Reads(st, n, input)
    ensures Consistent(st.db, st.events) && AllWellFormed(st.events)
    ensures RecoveryReplay.AllTrades(input.trades) && AllWellFormed(input.trades) && DistinctIds(input.trades)
    ensures forall i :: 0 <= i < |input.trades| ==> input.trades[i].eventId !in st.db.processed && Describes(st.db.orders, input.trades[i])
  {
    JoinedIsConsistent(st.engines, st.db, st.events);
    MissingAre(st.events, st.db.processed);
    MissingFit(st.events, st.db.processed);
    forall i | 0 <= i < |input.trades|
      ensures Describes(st.db.orders, input.trades[i])
    {
      var j :| 0 <= j < |st.events| && st.events[j] == input.trades[i];
      assert Ready(st.db, st.events[j]);
    }
  }

  /** Only shares are listed in the orders, and no missing trade owes a fee. */
  ghost predicate FreeSpot(st: State, input: Recovery.Input) {
    && (forall o :: o in st.db.orders ==> InstrumentOf(st.db.market, st.db.orders[o].symbol).Spot?)
    && (forall i :: 0 <= i < |input.trades| && input.trades[i].Traded? ==> input.trades[i].ts < TRADING_FEES_EFFECTIVE_AT)
  }

  lemma ReachableIsRead(st: State, n: nat, input: Recovery.Input)
    requires TidilyReachable(st, n) && Reads(st, n, input) && FreeSpot(st, input)
    ensures RecoverySettles.ReadFrom(st.db, input) && RecoveryComplete.Written(st.db, input) && RecoveryPlan.NoFeesDue(input.trades)
  {
    TidilyReached(st, n);
    StreamIsRead(st, n, input);
    forall o | o in st.db.orders
      ensures RecoverySettles.FilledIsSettled(input, o)
      ensures Recovery.QtyIn(input.unsettled, o) == PendingQty(input.trades, {}, o)
      ensures st.db.orders[o].qty > 0 && st.db.orders[o].account in st.db.bank.accounts && st.db.orders[o].status != Rejected
    {
      RowIsRead(st, n, input, o);
    }
  }

  lemma MissingDoSettle(st: State, n: nat, input: Recovery.Input)
    requires Inv(st, n) && Reads(st, n, input)
    ensures RecoveryReplay.AllTrades(input.trades) && AllWellFormed(input.trades) && RecoverySettles.SettleAll(st.db, input.trades).Ok?
  {
    StreamIsRead(st, n, input);
    MissingAllSettle(st.db, st.events, |input.trades|, n);
    assert input.trades[..|input.trades|] == input.trades;
  }

  /**
   * In every state the machine reaches, read as it is: if only shares are
   * traded and the missing trades are older than fees, nothing stands against
   * the recovery plan, so it is issue-free and equals their settlement.
   */
  lemma ReachableIsPlannable(st: State, n: nat, input: Recovery.Input)
    requires TidilyReachable(st, n) && Reads(st, n, input) && FreeSpot(st, input)
    ensures RecoverySettles.ReadFrom(st.db, input) && RecoveryPlan.NothingStands(input, input)
  {
    TidilyReached(st, n);
    ReachableIsRead(st, n, input);
    MissingDoSettle(st, n, input);
    RecoveryComplete.SettlesSoPlannable(st.db, input);
  }
}
