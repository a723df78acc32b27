/**
 * A run on which an order trades more than its quantity. An accepted limit
 * order is listed by a restart before its placed event is consumed, trades as
 * a maker, and is quarantined by the next restart because a later order was
 * listed first; the placed event, delivered without the recovery fallback, is
 * then matched in full.
 *
 * In the program this asks for two things. The replay order 3, 1 comes about
 * when account 30 is a dedicated reserve account of the symbol, whose rows are
 * listed first, or when order 3's creation time, which is taken at the start of
 * its transaction, precedes order 1's. And order 1's event must reach the
 * stream only after order 2's: its row is committed before it is published.
 */
module EngineOvermatch {
  import opened Common
  import opened OrderBook
  import opened OrderBookLaws
  import opened Engine
  import opened EngineSafety
  import opened EngineRuns

  const A := Incoming(1, 10, Buy, Limit(100), 10)
  const B := Incoming(2, 20, Sell, Limit(100), 4)
  const C := Incoming(3, 30, Sell, Limit(90), 10)

  const RowA := OrderRow(10, Buy, Limit(100), 10, 0, OPEN)
  const RowB := OrderRow(20, Sell, Limit(100), 4, 0, OPEN)
  const RowC := OrderRow(30, Sell, Limit(90), 10, 0, OPEN)

  const RestingA := Resting(1, 10, Buy, 100, 10, 10, 1)
  const FillB := Fill(100, 4, 1, 10, 2, 20, Sell)
  const CloseB := Closed(2, 20, Sell, 4, Filled)

  const Admitted := State(Durable(map[1 := RowA], {}, [], {}, [], None), map[1 := PlacedEvent(A)], true, CreateBook(None), [])
  const Listed := Admitted.(book := Book([RestingA], [], None, 1))
  const WithB := Listed.(d := Listed.d.(orders := map[1 := RowA, 2 := RowB]),
                         issued := map[1 := PlacedEvent(A), 2 := PlacedEvent(B)])
  const Traded := WithB.(
    d := Durable(map[1 := RowA, 2 := RowB], {2}, [FillB], {2}, [TradeExecuted(FillB), OrderClosed(CloseB)], None),
    book := Book([RestingA.(qty := 6)], [], Some(100), 2),
    seen := [2])
  const WithC := Traded.(d := Traded.d.(orders := map[1 := RowA, 2 := RowB, 3 := RowC]),
                         issued := map[1 := PlacedEvent(A), 2 := PlacedEvent(B), 3 := PlacedEvent(C)])
  const RestingC := Resting(3, 30, Sell, 90, 10, 10, 1)
  const Quarantined := WithC.(book := Book([], [RestingC], Some(100), 1), seen := [])

  const Late := [Restart([3, 1])] + [DeliverEvent(1, false)]
  const Middle := [DeliverEvent(2, false)] + ([Admit(C, 3)] + ([Crash] + Late))
  const Steps := [Admit(A, 1)] + ([Crash] + ([Restart([1])] + ([Admit(B, 2)] + Middle)))

  lemma FirstRestart()
    ensures
      var down := Admitted.(up := false);
      ReplayOrder(down.d, [1]) && Bootstrap(down, [1]) == Listed
  {
    var start := CreateBook(None);
    assert Restore(start, Admitted.d, 1) == Book([RestingA], [], None, 1);
    assert RestoreAll(start, Admitted.d, [1]) == RestoreAll(Book([RestingA], [], None, 1), Admitted.d, []);
    assert SortSide([RestingA]) == Insert(SortSide([]), RestingA) == [RestingA];
  }

  lemma SellFills()
    ensures Deliver(WithB, 2, false) == Traded
  {
    assert MarkedIds(WithB.book.bids + WithB.book.asks, {}) == [];
    assert Match([RestingA], B, 4, None) == Outcome([RestingA.(qty := 6)], [FillB], [], 0, false, Some(100));
    assert Place(WithB.book, B) == Placed(Book([RestingA.(qty := 6)], [], Some(100), 1), MatchResult([FillB], 0, 0, [CloseB]));
  }

  function Crashed(s: State): State {
    s.(up := false, book := CreateBook(None), seen := [])
  }

  const OneRestored := Book([], [RestingC], Some(100), 1)

  lemma SellIsRestored()
    ensures Restore(CreateBook(Some(100)), WithC.d, 3) == OneRestored
  {
    assert RecordedQty([FillB], 3, Sell) == 0;
  }

  lemma BuyIsQuarantined()
    ensures Restore(OneRestored, WithC.d, 1) == OneRestored
  {
    assert RecordedQty([FillB], 1, Buy) == 4;
    assert CrossesRestored(OneRestored, Buy, 100) by { assert OneRestored.asks[0].price == 90; }
  }

  lemma SecondRestart()
    ensures ReplayOrder(WithC.d, [3, 1]) && Bootstrap(Crashed(WithC), [3, 1]) == Quarantined
  {
    var start := CreateBook(Some(100));
    var one := OneRestored;
    SellIsRestored();
    BuyIsQuarantined();
    assert [3, 1][1..] == [1];
    assert RestoreAll(one, WithC.d, [1]) == RestoreAll(one, WithC.d, []);
    assert SortSide([RestingC]) == Insert(SortSide([]), RestingC) == [RestingC];
  }

  const FillC := Fill(90, 10, 3, 30, 1, 10, Buy)

  lemma LateDeliveryFills()
    ensures Deliver(Quarantined, 1, false).d.trades == [FillB, FillC]
    ensures Rematch(Quarantined, 1, false)
  {
    var b := Quarantined.book;
    assert MarkedIds(b.bids + b.asks, {2}) == [];
    assert Match([RestingC], A, 10, Some(100)) == Outcome([], [FillC], [MakerClose(RestingC)], 0, false, Some(90)) by {
      assert [RestingC][1..] == [];
    }
    assert Place(b, A).result.fills == [FillC];
    assert FilledQty([FillB], 1) == 4;
  }

  lemma RunsCons(s: State, step: Step, rest: seq<Step>)
    requires Enabled(s, step) && Runs(Next(s, step), rest)
    ensures Runs(s, [step] + rest) && After(s, [step] + rest) == After(Next(s, step), rest)
  {
    assert ([step] + rest)[1..] == rest;
  }

  const Last := Deliver(Quarantined, 1, false)

  lemma LateRun()
    ensures Runs(Crashed(WithC), Late) && After(Crashed(WithC), Late) == Last
  {
    RunsCons(Quarantined, DeliverEvent(1, false), []);
    assert [DeliverEvent(1, false)] + [] == [DeliverEvent(1, false)];
    SecondRestart();
    RunsCons(Crashed(WithC), Restart([3, 1]), [DeliverEvent(1, false)]);
  }

  lemma MiddleRun()
    ensures Runs(WithB, Middle) && After(WithB, Middle) == Last
  {
    LateRun();
    RunsCons(WithC, Crash, Late);
    RunsCons(Traded, Admit(C, 3), [Crash] + Late);
    SellFills();
    RunsCons(WithB, DeliverEvent(2, false), [Admit(C, 3)] + ([Crash] + Late));
  }

  lemma WholeRun()
    ensures Runs(Init(None), Steps) && After(Init(None), Steps) == Last
  {
    MiddleRun();
    RunsCons(Listed, Admit(B, 2), Middle);
    FirstRestart();
    RunsCons(Crashed(Admitted), Restart([1]), [Admit(B, 2)] + Middle);
    RunsCons(Admitted, Crash, [Restart([1])] + ([Admit(B, 2)] + Middle));
    RunsCons(Init(None), Admit(A, 1), [Crash] + ([Restart([1])] + ([Admit(B, 2)] + Middle)));
  }

  /** The engine's safety needs its condition: on this run an order of 10 shares trades 14. */
  lemma OrderTradesTwice()
    ensures Runs(Init(None), Steps)
    ensures
      var d := After(Init(None), Steps).d;
      1 in d.orders && d.orders[1].qty == 10 && FilledQty(d.trades, 1) == 14
  {
    WholeRun();
    LateDeliveryFills();
    LastOrders();
    assert [FillB, FillC][1..] == [FillC];
    assert FilledQty([FillB, FillC], 1) == 4 + FilledQty([FillC], 1) == 14;
  }

  lemma LastOrders()
    ensures Last.d.orders == WithC.d.orders
  {
    DeliverEvents(Quarantined, 1, false);
  }
}
