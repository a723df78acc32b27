/** Safety of the matching engine over whole runs, and exactly where it ends. */
module EngineRuns {
  import opened Common
  import opened OrderBook
  import opened OrderBookLaws
  import opened Engine
  import opened EngineSafety
  import opened EngineRestart

  predicate Rematches(s: State, step: Step)
    requires Enabled(s, step)
  {
    step.DeliverEvent? && Rematch(s, step.eid, step.recovery)
  }

  lemma StepKeepsInv(s: State, step: Step)
    requires Inv(s) && Enabled(s, step) && !Rematches(s, step)
    ensures Inv(Next(s, step))
  {
    match step
    case Admit(inc, eid) => AdmitKeepsInv(s, inc, eid);
    case AskCancel(id, eid) => AskKeepsInv(s, id, eid);
    case DeliverEvent(eid, recovery) => DeliverKeepsInv(s, eid, recovery);
    case SettleRow(id, filledQty, status) => SettleKeepsInv(s, id, filledQty, status);
    case Crash =>
    case Restart(rows) => BootstrapSound(s, rows);
  }

  lemma AskKeepsInv(s: State, id: OrderId, eid: EventId)
    requires Inv(s) && Enabled(s, AskCancel(id, eid))
    ensures Inv(Next(s, AskCancel(id, eid)))
  {
  }

  /** No delivery of the run matches an order that has already traded. */
  ghost predicate NeverRematches(s: State, steps: seq<Step>)
    requires Runs(s, steps)
    decreases steps
  {
    steps == [] || (!Rematches(s, steps[0]) && NeverRematches(Next(s, steps[0]), steps[1..]))
  }

  lemma {:induction false} RunKeepsInv(s: State, steps: seq<Step>)
    requires Inv(s) && Runs(s, steps) && NeverRematches(s, steps)
    ensures Inv(After(s, steps))
    decreases steps
  {
    if steps != [] {
      StepKeepsInv(s, steps[0]);
      RunKeepsInv(Next(s, steps[0]), steps[1..]);
    }
  }

  lemma InitInv(listedPrice: Option<int>)
    ensures Inv(Init(listedPrice))
  {
  }

  /**
   * Over every run of admissions, deliveries, redeliveries, settlements,
   * crashes and restarts that never rematches: recorded trades of an order
   * never exceed its quantity; it is closed at most once, by a close that
   * reports exactly its trades; and no trade touches it afterwards.
   */
  lemma EngineSafe(listedPrice: Option<int>, steps: seq<Step>)
    requires Runs(Init(listedPrice), steps) && NeverRematches(Init(listedPrice), steps)
    ensures
      var d := After(Init(listedPrice), steps).d;
      && Trades(d.outbox) == d.trades
      && (forall id :: id in d.orders ==> FilledQty(d.trades, id) <= d.orders[id].qty)
      && DistinctCloses(Closes(d.outbox))
      && (forall c :: c in Closes(d.outbox) ==> c.orderId in d.orders && Truthful(c, d.trades, d.orders[c.orderId].qty))
      && ClosesLast(d.outbox)
  {
    InitInv(listedPrice);
    RunKeepsInv(Init(listedPrice), steps);
  }

  // ---------------------------------------------------------------- exactly when a delivery is safe

  /** Matching an order that already traded always breaks the record: its row or its close no longer adds up. */
  lemma RematchBreaks(s: State, eid: EventId, recovery: bool)
    requires Inv(s) && s.up && eid in s.issued && Rematch(s, eid, recovery)
    ensures !Inv(Deliver(s, eid, recovery))
  {
    var inc := s.issued[eid].inc;
    PruneIdle(s);
    var p := Place(s.book, inc);
    var s' := Deliver(s, eid, recovery);
    assert s' == ApplyPlaced(s, eid, inc);
    FilledQtyAppend(s.d.trades, p.result.fills, inc.orderId);
    PlaceConserves(s.book, inc, inc.orderId);
    if p.result.restingQty > 0 {
      RestedRow(s, inc);
    } else {
      ClosedRow(s, inc, eid);
    }
  }

  lemma RestedRow(s: State, inc: Incoming)
    requires inc.orderId !in BookIds(s.book) && Place(s.book, inc).result.restingQty > 0 && inc.qty > 0
    ensures
      var p := Place(s.book, inc);
      exists o :: InBook(p.book, o) && o.orderId == inc.orderId && o.qty == p.result.restingQty && o.totalQty == inc.qty
  {
    var own, opp := SideOf(s.book, inc.side), SideOf(s.book, Opposite(inc.side));
    var m := Match(opp, inc, inc.qty, s.book.lastPrice);
    FinishSides(s.book, inc, m);
    var o := RestingOf(inc, m.remaining, s.book.seqNo + 1);
    InsertElements(own, o);
    assert InBook(Place(s.book, inc).book, o);
  }

  lemma ClosedRow(s: State, inc: Incoming, eid: EventId)
    requires Inv(s) && s.up && inc.orderId !in BookIds(s.book) && Place(s.book, inc).result.restingQty == 0
    requires FilledQty(s.d.trades, inc.orderId) > 0 && inc.orderId in s.d.orders
    ensures !ClosesOk(Commit(s.d, eid, Place(s.book, inc).result))
  {
    var p := Place(s.book, inc);
    var d' := Commit(s.d, eid, p.result);
    var opp := SideOf(s.book, Opposite(inc.side));
    var m := Match(opp, inc, inc.qty, s.book.lastPrice);
    FinishSides(s.book, inc, m);
    MatchConserves(opp, inc, inc.qty, s.book.lastPrice, inc.orderId);
    FilledQtyAppend(s.d.trades, p.result.fills, inc.orderId);
    CommitRead(s.d, eid, p.result);
    var c := p.result.closedOrders[|p.result.closedOrders| - 1];
    assert c.orderId == inc.orderId && c.filledQty == FilledQty(p.result.fills, inc.orderId);
    assert c in Closes(d'.outbox);
  }

  /** A delivery keeps the engine's record exact if and only if it does not match an order that already traded. */
  lemma DeliverSafeIff(s: State, eid: EventId, recovery: bool)
    requires Inv(s) && s.up && eid in s.issued
    ensures Inv(Deliver(s, eid, recovery)) <==> !Rematch(s, eid, recovery)
  {
    if Rematch(s, eid, recovery) {
      RematchBreaks(s, eid, recovery);
    } else {
      DeliverKeepsInv(s, eid, recovery);
    }
  }

  // ---------------------------------------------------------------- a placed event matches once

  /** The step commits a match of this order's placed event. */
  predicate Matches(s: State, step: Step, id: OrderId)
    requires Enabled(s, step)
  {
    && step.DeliverEvent? && s.issued[step.eid].PlacedEvent? && s.issued[step.eid].inc.orderId == id
    && step.eid !in s.seen && step.eid !in s.d.claims
    && var t := Pruned(s);
       && id !in BookIds(t.book) && id !in t.d.markers
       && !(step.recovery && AlreadyApplied(t, s.issued[step.eid]))
  }

  function MatchCount(s: State, steps: seq<Step>, id: OrderId): nat
    requires Runs(s, steps)
    decreases steps
  {
    if steps == [] then 0
    else (if Matches(s, steps[0], id) then 1 else 0) + MatchCount(Next(s, steps[0]), steps[1..], id)
  }

  ghost predicate ClaimedPlacement(s: State, id: OrderId) {
    exists e :: e in s.issued && e in s.d.claims && s.issued[e].PlacedEvent? && s.issued[e].inc.orderId == id
  }

  /** Event bookkeeping holds on every run, with no condition. */
  lemma EventsKept(s: State, step: Step)
    requires EventsOk(s.d, s.issued) && Enabled(s, step)
    ensures EventsOk(Next(s, step).d, Next(s, step).issued)
    ensures s.d.claims <= Next(s, step).d.claims
    ensures forall e :: e in s.issued ==> e in Next(s, step).issued && Next(s, step).issued[e] == s.issued[e]
  {
    match step
    case DeliverEvent(eid, recovery) => DeliverEvents(s, eid, recovery);
    case _ =>
  }

  /** What a handler may do to the event bookkeeping: at most claim the event it handles. */
  predicate ClaimsOnly(s: State, s': State, eid: EventId) {
    && s'.issued == s.issued && s'.d.orders == s.d.orders
    && (s'.d.claims == s.d.claims || s'.d.claims == s.d.claims + {eid})
  }

  lemma PlacedEvents(s: State, eid: EventId, inc: Incoming, recovery: bool)
    ensures ClaimsOnly(s, HandlePlaced(s, eid, inc, recovery), eid)
  {
  }

  lemma CancelEvents(s: State, eid: EventId, id: OrderId, recovery: bool)
    ensures ClaimsOnly(s, HandleCancel(s, eid, id, recovery), eid)
  {
  }

  lemma DeliverEvents(s: State, eid: EventId, recovery: bool)
    requires eid in s.issued
    ensures ClaimsOnly(s, Deliver(s, eid, recovery), eid)
  {
    var t := Pruned(s);
    if eid !in t.seen {
      match s.issued[eid]
      case PlacedEvent(inc) => PlacedEvents(t, eid, inc, recovery);
      case CancelEvent(id) => CancelEvents(t, eid, id, recovery);
    }
  }

  /**
   * Over every run, whatever is redelivered, lost or restarted, the placed
   * event of an order is matched at most once.
   */
  lemma {:induction false} MatchedOnce(s: State, steps: seq<Step>, id: OrderId)
    requires EventsOk(s.d, s.issued) && Runs(s, steps)
    ensures MatchCount(s, steps, id) <= if ClaimedPlacement(s, id) then 0 else 1
    decreases steps
  {
    if steps != [] {
      var s' := Next(s, steps[0]);
      EventsKept(s, steps[0]);
      MatchedOnce(s', steps[1..], id);
      if ClaimedPlacement(s, id) {
        var e :| e in s.issued && e in s.d.claims && s.issued[e].PlacedEvent? && s.issued[e].inc.orderId == id;
        assert e in s'.issued && e in s'.d.claims && s'.issued[e] == s.issued[e];
      }
      if Matches(s, steps[0], id) {
        MatchClaims(s, steps[0], id);
      }
    }
  }

  lemma MatchClaims(s: State, step: Step, id: OrderId)
    requires EventsOk(s.d, s.issued) && Enabled(s, step) && Matches(s, step, id)
    ensures ClaimedPlacement(Next(s, step), id) && !ClaimedPlacement(s, id)
  {
    assert step.eid in Next(s, step).d.claims;
  }
}
