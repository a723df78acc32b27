/**
 * The maker and the exchange as a step machine: requests in flight, orders that
 * may rest in the book, cancellations that take effect later, and snapshots.
 * Over every run the maker's own orders never cross.
 */
module MakerRuns {
  import opened Common
  import opened Liquidity
  import opened MakerQuotes

  /**
   * `live`: the own orders the exchange has accepted and not yet closed, which
   * may rest in the book now or later. `issued`: every id this account was given.
   */
  datatype State = State(maker: Maker, inFlight: set<Order>, live: set<Order>, issued: set<int>)

  datatype Step =
    | Ask(desired: Quote, id: int)
    | Exchange(live: set<Order>)
    | Confirmed(desired: Quote, id: int)
    | Refused(order: Order)
    | Reconcile(snapshot: Snapshot, result: Maker)
    | Remap(plan: seq<Quote>, strictSides: set<Side>, active: map<Slot, Managed>, superseded: seq<Row>)
    | Retire(id: int)

  /** The orders that may exist: tracked, or asked for and not yet answered. */
  predicate Known(st: State, o: Order) {
    Tracks(st.maker, o) || o in st.inFlight
  }

  function OrderFor(desired: Quote, id: int): Order {
    Order(id, desired.side, desired.price)
  }

  predicate OneSide(orders: set<Order>, side: Side) {
    forall o :: o in orders ==> o.side == side
  }

  ghost predicate Enabled(st: State, step: Step) {
    match step
    case Ask(desired, id) =>
      !IsQuoteSufficient(st.maker.active, desired) && CanAdd(desired, st.maker) && id !in st.issued && OneSide(st.inFlight, desired.side)
    case Exchange(live) => live <= st.live + st.inFlight
    case Confirmed(desired, id) => OrderFor(desired, id) in st.inFlight
    case Refused(order) => order in st.inFlight && order !in st.live
    case Reconcile(snapshot, result) =>
      st.inFlight == {} && (forall o :: o in st.live ==> Kept(o.id, snapshot)) && Reconciled(st.maker, snapshot, result)
    case Remap(plan, strictSides, active, superseded) =>
      st.inFlight == {} && Remapped(st.maker.active, plan, strictSides, active, superseded)
    case Retire(id) => id in st.maker.retirable
  }

  ghost function Next(st: State, step: Step): State
    requires Enabled(st, step)
  {
    match step
    case Ask(desired, id) => st.(inFlight := st.inFlight + {OrderFor(desired, id)}, issued := st.issued + {id})
    case Exchange(live) => st.(live := live)
    case Confirmed(desired, id) => st.(maker := Posted(st.maker, desired, id), inFlight := st.inFlight - {OrderFor(desired, id)})
    case Refused(order) => st.(inFlight := st.inFlight - {order})
    case Reconcile(snapshot, result) => st.(maker := result)
    case Remap(plan, strictSides, active, superseded) => st.(maker := Superseding(st.maker, active, superseded))
    case Retire(id) => st.(maker := Retired(st.maker, id))
  }

  ghost predicate NoCross(st: State) {
    forall b, a :: Known(st, b) && Known(st, a) && b.side == Buy && a.side == Sell ==> b.price < a.price
  }

  ghost predicate LiveKnown(st: State) {
    forall o :: o in st.live ==> Known(st, o)
  }

  ghost predicate IdsIssued(st: State) {
    && (forall o :: Known(st, o) ==> o.id in st.issued)
    && (forall o :: o in st.inFlight ==> NewId(st.maker, o.id))
    && (forall o, p :: o in st.inFlight && p in st.inFlight && o.id == p.id ==> o == p)
  }

  ghost predicate Safe(st: State) {
    WellKeyed(st.maker) && NoCross(st) && LiveKnown(st) && IdsIssued(st)
  }

  /** What is known after a step was known before, or is the order just asked for. */
  ghost predicate KnownFrom(st: State, after: State, added: set<Order>) {
    forall o :: Known(after, o) ==> Known(st, o) || o in added
  }

  lemma FewerKnown(st: State, after: State)
    requires NoCross(st) && KnownFrom(st, after, {})
    ensures NoCross(after)
  {
  }

  lemma NotTracked(m: Maker, id: int)
    requires WellKeyed(m)
    ensures NewId(m, id) <==> forall o :: Tracks(m, o) ==> o.id != id
  {
    if !NewId(m, id) {
      if s :| s in m.active && m.active[s].row.order.id == id {
        assert ActiveHas(m.active, m.active[s].row.order);
        assert Tracks(m, m.active[s].row.order);
      } else if id in m.retiring {
        assert Tracks(m, m.retiring[id].order);
      } else if id in m.preserved {
        assert Tracks(m, m.preserved[id].order);
      } else {
        assert Tracks(m, m.retirable[id].order);
      }
    }
  }

  lemma AskKeepsSafe(st: State, desired: Quote, id: int)
    requires Safe(st) && Enabled(st, Ask(desired, id))
    ensures Safe(Next(st, Ask(desired, id)))
  {
    var after := Next(st, Ask(desired, id));
    var order := OrderFor(desired, id);
    NotTracked(st.maker, id);
    assert NewId(st.maker, id) by {
      assert forall o :: Tracks(st.maker, o) ==> Known(st, o);
    }
    forall b, a | Known(after, b) && Known(after, a) && b.side == Buy && a.side == Sell
      ensures b.price < a.price
    {
      if b == order && Tracks(st.maker, a) {
        CanAddMeans(desired, st.maker, a);
      } else if a == order && Tracks(st.maker, b) {
        CanAddMeans(desired, st.maker, b);
      } else if b != order && a != order {
        assert Known(st, b) && Known(st, a);
      }
    }
    assert forall o :: Known(after, o) ==> Known(st, o) || o == order;
    assert forall o :: Known(st, o) ==> Known(after, o);
  }

  lemma ConfirmedKeepsSafe(st: State, desired: Quote, id: int)
    requires Safe(st) && Enabled(st, Confirmed(desired, id))
    ensures Safe(Next(st, Confirmed(desired, id)))
  {
    var after := Next(st, Confirmed(desired, id));
    var order := OrderFor(desired, id);
    assert NewId(st.maker, id) by {
      assert order in st.inFlight;
    }
    PostedWellKeyed(st.maker, desired, id);
    forall o
      ensures Known(after, o) <==> Known(st, o)
    {
      PostedTracks(st.maker, desired, id, o);
    }
    FewerKnown(st, after);
    forall o | o in after.inFlight
      ensures NewId(after.maker, o.id)
    {
      assert NewId(st.maker, o.id) && o.id != id;
    }
  }

  lemma SameTrackedKeepsSafe(st: State, after: State)
    requires Safe(st) && WellKeyed(after.maker) && after == st.(maker := after.maker)
    requires forall o :: Tracks(after.maker, o) ==> Tracks(st.maker, o)
    requires forall o :: o in st.live && Tracks(st.maker, o) ==> Tracks(after.maker, o)
    ensures Safe(after)
  {
    FewerKnown(st, after);
    forall o | o in after.inFlight
      ensures NewId(after.maker, o.id)
    {
      NotTracked(st.maker, o.id);
      NotTracked(after.maker, o.id);
    }
  }

  lemma StepKeepsSafe(st: State, step: Step)
    requires Safe(st) && Enabled(st, step)
    ensures Safe(Next(st, step))
  {
    var after := Next(st, step);
    match step
    case Ask(desired, id) => AskKeepsSafe(st, desired, id);
    case Exchange(live) =>
      assert forall o :: Known(after, o) <==> Known(st, o);
    case Confirmed(desired, id) => ConfirmedKeepsSafe(st, desired, id);
    case Refused(order) =>
      assert KnownFrom(st, after, {});
      FewerKnown(st, after);
    case Reconcile(snapshot, result) =>
      forall o ensures Tracks(result, o) <==> Tracks(st.maker, o) && Kept(o.id, snapshot) {
        ReconciledTracks(st.maker, snapshot, result, o);
      }
      ReconciledWellKeyed(st.maker, snapshot, result);
      SameTrackedKeepsSafe(st, after);
    case Remap(plan, strictSides, active, superseded) =>
      forall o ensures Tracks(after.maker, o) <==> Tracks(st.maker, o) {
        RemappingTracks(st.maker, active, superseded, o);
      }
      RemappingWellKeyed(st.maker, active, superseded);
      SameTrackedKeepsSafe(st, after);
    case Retire(id) =>
      forall o ensures Tracks(after.maker, o) <==> Tracks(st.maker, o) {
        RetiredTracks(st.maker, id, o);
      }
      RetiredWellKeyed(st.maker, id);
      SameTrackedKeepsSafe(st, after);
  }

  lemma RetiredWellKeyed(m: Maker, id: int)
    requires WellKeyed(m) && id in m.retirable
    ensures WellKeyed(Retired(m, id))
  {
    RetiredTracks(m, id, m.retirable[id].order);
  }

  ghost predicate Runs(st: State, steps: seq<Step>)
    decreases steps
  {
    steps == [] || (Enabled(st, steps[0]) && Runs(Next(st, steps[0]), steps[1..]))
  }

  ghost function After(st: State, steps: seq<Step>): State
    requires Runs(st, steps)
    decreases steps
  {
    if steps == [] then st else After(Next(st, steps[0]), steps[1..])
  }

  lemma {:induction false} RunKeepsSafe(st: State, steps: seq<Step>)
    requires Safe(st) && Runs(st, steps)
    ensures Safe(After(st, steps))
    decreases steps
  {
    if steps != [] {
      StepKeepsSafe(st, steps[0]);
      RunKeepsSafe(Next(st, steps[0]), steps[1..]);
    }
  }

  /**
   * From rows that do not cross, over every run: an own order that may rest in
   * the book is tracked or its placement is still unanswered, and none of them
   * could trade with another.
   */
  lemma OwnOrdersNeverCross(st: State, steps: seq<Step>)
    requires Safe(st) && Runs(st, steps)
    ensures forall o :: o in After(st, steps).live ==> Known(After(st, steps), o)
    ensures forall b, a :: b in After(st, steps).live && a in After(st, steps).live && b.side == Buy && a.side == Sell ==> b.price < a.price
  {
    RunKeepsSafe(st, steps);
  }
}
