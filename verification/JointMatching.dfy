/** The joint machine's matching step: one engine handles an event, and its new outbox rows join the stream. */
module JointMatching {
  import opened Common
  import opened Sums
  import opened Futures
  import opened Bank
  import opened Settlement
  import opened SettlementHolds
  import opened SettlementProgress
  import opened SettlementConfluence
  import opened SettlementForecast
  import opened EngineToSettlement
  import opened JointMachine
  import opened JointSafety
  import OrderBook
  import OrderBookLaws
  import Engine
  import EngineSafety
  import EngineNames
  import EngineRuns

  // ---------------------------------------------------------------- one engine's new rows

  /** An engine before and after a step of its own: healthy both times, with the same order rows. */
  ghost predicate Grows(before: Engine.State, after: Engine.State) {
    Healthy(before) && Healthy(after) && Extends(before, after)
  }

  lemma OwnStepGrows(s: Engine.State, step: Engine.Step)
    requires Healthy(s) && OwnStep(step) && Engine.Enabled(s, step) && !EngineRuns.Rematches(s, step)
    ensures Grows(s, Engine.Next(s, step))
  {
    EngineRuns.StepKeepsInv(s, step);
    EngineNames.StepKeepsNames(s, step);
    OwnStepExtends(s, step);
  }

  lemma OutboxSplits(before: Engine.State, after: Engine.State)
    requires Extends(before, after)
    ensures after.d.outbox == before.d.outbox + NewRows(before, after)
  {
  }

  /** The trades of the new rows are what the step added to an order's record. */
  lemma RecordGrows(before: Engine.State, after: Engine.State, o: OrderId)
    requires Grows(before, after)
    ensures OrderBookLaws.FilledQty(after.d.trades, o)
            == OrderBookLaws.FilledQty(before.d.trades, o) + OrderBookLaws.FilledQty(Engine.Trades(NewRows(before, after)), o)
  {
    OutboxSplits(before, after);
    Engine.OutboxTrades(before.d.outbox, NewRows(before, after));
    OrderBookLaws.FilledQtyAppend(before.d.trades, Engine.Trades(NewRows(before, after)), o);
  }

  lemma {:induction false} TradesUnnamed(rows: seq<Engine.OutEvent>, o: OrderId)
    requires forall i :: 0 <= i < |rows| && rows[i].TradeExecuted? ==> !EngineSafety.Names(rows[i].fill, o)
    ensures OrderBookLaws.FilledQty(Engine.Trades(rows), o) == 0
  {
    if rows != [] {
      assert forall i :: 0 <= i < |rows[1..]| ==> rows[1..][i] == rows[i + 1];
      TradesUnnamed(rows[1..], o);
      if rows[0].TradeExecuted? {
        assert !EngineSafety.Names(rows[0].fill, o);
        assert Engine.Trades(rows)[1..] == Engine.Trades(rows[1..]);
      } else {
        assert Engine.Trades(rows) == Engine.Trades(rows[1..]);
      }
    }
  }

  lemma {:induction false} CloseRow(outbox: seq<Engine.OutEvent>, o: OrderId) returns (r: nat)
    requires o in OrderBookLaws.ClosedIds(Engine.Closes(outbox))
    ensures r < |outbox| && outbox[r].OrderClosed? && outbox[r].closed.orderId == o
  {
    if outbox[0].OrderClosed? && outbox[0].closed.orderId == o {
      r := 0;
    } else {
      var c :| c in Engine.Closes(outbox) && c.orderId == o;
      assert c in Engine.Closes(outbox[1..]);
      r := CloseRow(outbox[1..], o);
      r := r + 1;
    }
  }

  /** No new row trades an order that was closed before, or one of another engine. */
  lemma ClosedGainsNothing(before: Engine.State, after: Engine.State, o: OrderId)
    requires Grows(before, after) && (o in before.d.markers || o !in before.d.orders)
    ensures OrderBookLaws.FilledQty(Engine.Trades(NewRows(before, after)), o) == 0
  {
    var rows, m := NewRows(before, after), |before.d.outbox|;
    var r: nat := 0;
    if o in before.d.markers {
      r := CloseRow(before.d.outbox, o);
    }
    forall i | 0 <= i < |rows| && rows[i].TradeExecuted?
      ensures !EngineSafety.Names(rows[i].fill, o)
    {
      assert rows[i] == after.d.outbox[m + i];
      if o in before.d.markers {
        assert after.d.outbox[r] == before.d.outbox[r];
      } else {
        RowIsRecorded(after.d.outbox, m + i);
        assert EngineSafety.FillOk(rows[i].fill, after.d.orders);
      }
    }
    TradesUnnamed(rows, o);
  }

  lemma NewRowsTwoOrders(before: Engine.State, after: Engine.State)
    requires Grows(before, after)
    ensures TwoOrders(NewRows(before, after))
  {
    OutboxTwoOrders(after.d, |before.d.outbox|);
  }

  // ---------------------------------------------------------------- the stream after the step

  /** A step of one engine, with what it appends to the stream. */
  ghost predicate Appends(engines: Engines, symbol: Symbol, after: Engine.State, stamp: int, events: seq<Event>, more: seq<Event>) {
    && symbol in engines && Grows(engines[symbol], after)
    && more == EventsAt(NewRows(engines[symbol], after), |events|, symbol, stamp)
  }

  lemma RecordedLonger(ev: Event, i: nat, outbox: seq<Engine.OutEvent>, longer: seq<Engine.OutEvent>)
    requires Recorded(ev, i, outbox) && outbox <= longer
    ensures Recorded(ev, i, longer)
  {
    var r: nat, stamp: int :| Relays(ev, i, outbox, r, stamp);
    assert Relays(ev, i, longer, r, stamp);
  }

  lemma NewEventRecorded(before: Engine.State, after: Engine.State, symbol: Symbol, stamp: int, base: nat, k: nat)
    requires Extends(before, after) && k < |NewRows(before, after)|
    ensures
      var ev := EventsAt(NewRows(before, after), base, symbol, stamp)[k];
      ev.symbol == symbol && Relays(ev, base + k, after.d.outbox, |before.d.outbox| + k, stamp)
  {
    EventIs(NewRows(before, after), base, symbol, stamp, k);
  }

  lemma WorkRecords(engines: Engines, symbol: Symbol, after: Engine.State, stamp: int, events: seq<Event>, more: seq<Event>)
    requires EventsRecorded(engines, events) && Appends(engines, symbol, after, stamp, events, more)
    ensures EventsRecorded(engines[symbol := after], events + more)
  {
    var all := events + more;
    forall i | 0 <= i < |all|
      ensures EventRecorded(engines[symbol := after], all[i], i)
    {
      if i < |events| {
        assert EventRecorded(engines, events[i], i);
        if events[i].symbol == symbol {
          RecordedLonger(events[i], i, engines[symbol].d.outbox, after.d.outbox);
        }
      } else {
        NewEventRecorded(engines[symbol], after, symbol, stamp, |events|, i - |events|);
      }
    }
  }

  lemma StillOnStream(symbol: Symbol, outbox: seq<Engine.OutEvent>, longer: seq<Engine.OutEvent>, r: nat, events: seq<Event>, more: seq<Event>)
    requires OnStream(symbol, outbox, r, events) && outbox <= longer
    ensures OnStream(symbol, longer, r, events + more)
  {
    var i: nat, stamp: int :| i < |events| && events[i].symbol == symbol && Relays(events[i], i, outbox, r, stamp);
    assert (events + more)[i] == events[i] && Relays((events + more)[i], i, longer, r, stamp);
  }

  lemma WorkStreams(engines: Engines, symbol: Symbol, after: Engine.State, stamp: int, events: seq<Event>, more: seq<Event>)
    requires Streamed(engines, events) && Appends(engines, symbol, after, stamp, events, more)
    ensures Streamed(engines[symbol := after], events + more)
  {
    var now, m := engines[symbol := after], |engines[symbol].d.outbox|;
    forall s, r: nat | s in now && r < |now[s].d.outbox|
      ensures OnStream(s, now[s].d.outbox, r, events + more)
    {
      if s == symbol && r >= m {
        NewEventRecorded(engines[symbol], after, symbol, stamp, |events|, r - m);
        assert (events + more)[|events| + r - m] == more[r - m];
      } else {
        assert OnStream(s, engines[s].d.outbox, r, events);
        StillOnStream(s, engines[s].d.outbox, now[s].d.outbox, r, events, more);
      }
    }
  }

  lemma NewClosesPending(engines: Engines, symbol: Symbol, after: Engine.State, stamp: int, events: seq<Event>, more: seq<Event>, db: Db)
    requires Appends(engines, symbol, after, stamp, events, more) && Unseen(events, db.processed) && ClosesDone(db, events)
    ensures ClosesDone(db, events + more)
  {
    var all := events + more;
    forall i | 0 <= i < |all|
      ensures CloseDone(db, all[i])
    {
      if i < |events| {
        assert CloseDone(db, events[i]);
      } else {
        NewEventRecorded(engines[symbol], after, symbol, stamp, |events|, i - |events|);
        assert all[i].eventId == Stream(i);
      }
    }
  }

  lemma WorkEngines(engines: Engines, db: Db, symbol: Symbol, after: Engine.State)
    requires EnginesOk(engines, db) && symbol in engines && Grows(engines[symbol], after)
    ensures EnginesOk(engines[symbol := after], db)
  {
    var now := engines[symbol := after];
    forall s | s in now
      ensures Healthy(now[s]) && RowsAgree(db, now[s].d, s)
    {
      assert Healthy(engines[s]) && RowsAgree(db, engines[s].d, s);
    }
  }

  lemma WorkPending(engines: Engines, symbol: Symbol, after: Engine.State, stamp: int, events: seq<Event>, more: seq<Event>,
                    done: set<ClaimId>, o: OrderId)
    requires Appends(engines, symbol, after, stamp, events, more) && Unseen(events, done)
    ensures PendingQty(events + more, done, o)
            == PendingQty(events, done, o) + OrderBookLaws.FilledQty(Engine.Trades(NewRows(engines[symbol], after)), o)
  {
    NewRowsTwoOrders(engines[symbol], after);
    PendingGrows(events, NewRows(engines[symbol], after), symbol, stamp, done, o);
  }

  lemma OtherEngines(engines: Engines, db: Db, symbol: Symbol, o: OrderId)
    requires EnginesOk(engines, db) && symbol in engines && o in db.orders && db.orders[o].symbol != symbol
    ensures o !in engines[symbol].d.orders
  {
    assert RowsAgree(db, engines[symbol].d, symbol);
  }

  lemma WorkAccounts(engines: Engines, db: Db, symbol: Symbol, after: Engine.State, stamp: int, events: seq<Event>, more: seq<Event>, o: OrderId)
    requires EnginesOk(engines, db) && Appends(engines, symbol, after, stamp, events, more) && Unseen(events, db.processed)
    requires Accounted(engines, db, events, o)
    ensures Accounted(engines[symbol := after], db, events + more, o)
  {
    if o in db.orders && db.orders[o].symbol in engines {
      WorkPending(engines, symbol, after, stamp, events, more, db.processed, o);
      if db.orders[o].symbol == symbol {
        RecordGrows(engines[symbol], after, o);
      } else {
        OtherEngines(engines, db, symbol, o);
        ClosedGainsNothing(engines[symbol], after, o);
      }
    }
  }

  /** An order settlement has ended was closed by its engine. */
  lemma EndedIsClosed(engines: Engines, db: Db, o: OrderId)
    requires EnginesOk(engines, db) && o in db.orders && db.orders[o].symbol in engines && !IsActive(db.orders[o].status)
    ensures o in engines[db.orders[o].symbol].d.markers
  {
    var s := db.orders[o].symbol;
    assert Healthy(engines[s]) && RowsAgree(db, engines[s].d, s);
    assert Agrees(db, engines[s].d.orders[o], db.orders[o]);
  }

  lemma WorkActive(engines: Engines, db: Db, symbol: Symbol, after: Engine.State, stamp: int, events: seq<Event>, more: seq<Event>, o: OrderId)
    requires EnginesOk(engines, db) && OrdersListed(engines, db.orders) && Unseen(events, db.processed)
    requires Appends(engines, symbol, after, stamp, events, more) && StillActive(db, events, o)
    ensures StillActive(db, events + more, o)
  {
    if o in db.orders && !IsActive(db.orders[o].status) {
      WorkPending(engines, symbol, after, stamp, events, more, db.processed, o);
      EndedIsClosed(engines, db, o);
      if db.orders[o].symbol != symbol {
        OtherEngines(engines, db, symbol, o);
      }
      ClosedGainsNothing(engines[symbol], after, o);
    }
  }

  // ---------------------------------------------------------------- one close per order

  lemma ClosesDiffer(s: Engine.State, x: Event, i: nat, y: Event, j: nat, r: nat, q: nat, stampX: int, stampY: int)
    requires Healthy(s) && x.Ended? && y.Ended? && r < q
    requires Relays(x, i, s.d.outbox, r, stampX) && Relays(y, j, s.d.outbox, q, stampY)
    ensures x.orderId != y.orderId
  {
    ClosedOnce(s.d.outbox, r, q);
  }

  lemma NewClosesDiffer(before: Engine.State, after: Engine.State, symbol: Symbol, stamp: int, base: nat, k: nat, l: nat)
    requires Grows(before, after) && k < l < |NewRows(before, after)|
    ensures
      var more := EventsAt(NewRows(before, after), base, symbol, stamp);
      more[k].Ended? && more[l].Ended? ==> more[k].orderId != more[l].orderId
  {
    var more := EventsAt(NewRows(before, after), base, symbol, stamp);
    NewEventRecorded(before, after, symbol, stamp, base, k);
    NewEventRecorded(before, after, symbol, stamp, base, l);
    if more[k].Ended? && more[l].Ended? {
      ClosesDiffer(after, more[k], base + k, more[l], base + l, |before.d.outbox| + k, |before.d.outbox| + l, stamp, stamp);
    }
  }

  lemma OldAndNewDiffer(before: Engine.State, after: Engine.State, symbol: Symbol, stamp: int, base: nat, x: Event, i: nat, k: nat)
    requires Grows(before, after) && Recorded(x, i, before.d.outbox) && x.Ended? && k < |NewRows(before, after)|
    ensures
      var more := EventsAt(NewRows(before, after), base, symbol, stamp);
      more[k].Ended? ==> x.orderId != more[k].orderId
  {
    var more := EventsAt(NewRows(before, after), base, symbol, stamp);
    NewEventRecorded(before, after, symbol, stamp, base, k);
    var r: nat, s: int :| Relays(x, i, before.d.outbox, r, s);
    assert Relays(x, i, after.d.outbox, r, s);
    if more[k].Ended? {
      ClosesDiffer(after, x, i, more[k], base + k, r, |before.d.outbox| + k, s, stamp);
    }
  }

  lemma OldCloseDiffers(engines: Engines, db: Db, symbol: Symbol, after: Engine.State, stamp: int, events: seq<Event>, more: seq<Event>, i: nat, k: nat)
    requires EnginesOk(engines, db) && EnginesOk(engines[symbol := after], db) && EventsRecorded(engines, events)
    requires Appends(engines, symbol, after, stamp, events, more)
    requires i < |events| && k < |more| && events[i].Ended? && more[k].Ended?
    ensures events[i].orderId != more[k].orderId
  {
    assert EventRecorded(engines, events[i], i);
    if events[i].symbol == symbol {
      OldAndNewDiffer(engines[symbol], after, symbol, stamp, |events|, events[i], i, k);
    } else {
      CloseOnStream(engines, db, events[i], i);
      NewEventRecorded(engines[symbol], after, symbol, stamp, |events|, k);
      assert Recorded(more[k], |events| + k, after.d.outbox);
      CloseOnStream(engines[symbol := after], db, more[k], |events| + k);
    }
  }

  lemma WorkCloses(engines: Engines, db: Db, symbol: Symbol, after: Engine.State, stamp: int, events: seq<Event>, more: seq<Event>)
    requires EnginesOk(engines, db) && EnginesOk(engines[symbol := after], db) && EventsRecorded(engines, events)
    requires Appends(engines, symbol, after, stamp, events, more) && OneClose(events)
    ensures OneClose(events + more)
  {
    var all, m := events + more, |events|;
    forall i, j | 0 <= i < j < |all| && all[i].Ended? && all[j].Ended?
      ensures all[i].orderId != all[j].orderId
    {
      if i < m <= j {
        OldCloseDiffers(engines, db, symbol, after, stamp, events, more, i, j - m);
      } else if m <= i {
        NewClosesDiffer(engines[symbol], after, symbol, stamp, m, i - m, j - m);
      }
    }
  }

  lemma WorkJoins(engines: Engines, db: Db, symbol: Symbol, after: Engine.State, stamp: int, events: seq<Event>, more: seq<Event>)
    requires Joined(engines, db, events) && Appends(engines, symbol, after, stamp, events, more)
    ensures Joined(engines[symbol := after], db, events + more)
  {
    WorkEngines(engines, db, symbol, after);
    WorkRecords(engines, symbol, after, stamp, events, more);
    WorkStreams(engines, symbol, after, stamp, events, more);
    NewClosesPending(engines, symbol, after, stamp, events, more, db);
    WorkCloses(engines, db, symbol, after, stamp, events, more);
    var now, all := engines[symbol := after], events + more;
    forall o ensures Accounted(now, db, all, o) {
      assert Accounted(engines, db, events, o);
      WorkAccounts(engines, db, symbol, after, stamp, events, more, o);
    }
    forall o ensures StillActive(db, all, o) {
      assert StillActive(db, events, o);
      WorkActive(engines, db, symbol, after, stamp, events, more, o);
    }
  }

  /** An engine at work keeps the machine's invariant, unless it rematches. */
  lemma WorkKeepsInv(st: State, symbol: Symbol, step: Engine.Step, stamp: int, n: nat)
    requires Inv(st, n) && Enabled(st, Work(symbol, step, stamp)) && !Rematches(st, Work(symbol, step, stamp))
    ensures Inv(Next(st, Work(symbol, step, stamp)), n)
  {
    var before := st.engines[symbol];
    var after := Engine.Next(before, step);
    assert Healthy(before);
    OwnStepGrows(before, step);
    WorkJoins(st.engines, st.db, symbol, after, stamp, st.events, EventsAt(NewRows(before, after), |st.events|, symbol, stamp));
  }
}
