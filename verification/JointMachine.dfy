/**
 * The exchange as one machine: order admission, the matching engine of every
 * symbol, the outbox they share, and the settlement consumer, over one database.
 */
module JointMachine {
  import opened Common
  import opened Futures
  import opened Bank
  import opened Settlement
  import opened SettlementHolds
  import opened SettlementProgress
  import opened SettlementConfluence
  import opened OrderAdmission
  import opened EngineToSettlement
  import DailySettlement
  import OrderBook
  import Engine
  import EngineRuns

  type Engines = map<Symbol, Engine.State>

  /** `events` is what the outbox ever held, in order of its ids: any of them may reach settlement at any time. */
  datatype State = State(engines: Engines, db: Db, events: seq<Event>)

  /** What admission worked out for an order before it reserves. */
  datatype OrderTerms = OrderTerms(holdPerUnit: int, row: RowSide, marginHeld: int)

  datatype Step =
    | Place(symbol: Symbol, inc: OrderBook.Incoming, eid: EventId, terms: OrderTerms)
    | Work(symbol: Symbol, step: Engine.Step, stamp: int)
    | Receive(k: nat)
    | SettleDaily(symbol: Symbol, day: int, price: int, account: AccountId, row: RowSide)

  function RequestOf(symbol: Symbol, inc: OrderBook.Incoming, terms: OrderTerms): Request {
    Request(inc.orderId, inc.accountId, symbol, inc.side, inc.qty, terms.holdPerUnit, terms.row, terms.marginHeld)
  }

  /** What an engine does by itself; orders come from admission, and rows advance by settlement. */
  predicate OwnStep(step: Engine.Step) {
    !step.Admit? && !step.SettleRow?
  }

  predicate Enabled(st: State, step: Step) {
    match step
    case Place(symbol, inc, eid, terms) =>
      && symbol in st.engines && Engine.Enabled(st.engines[symbol], Engine.Admit(inc, eid))
      && inc.orderId !in st.db.orders && Admissible(RequestOf(symbol, inc, terms))
      && Reserves(InstrumentOf(st.db.market, symbol), inc.side, inc.kind, terms.holdPerUnit)
      && (inc.kind.Limit? ==> inc.kind.price > 0)
    case Work(symbol, step, _) => symbol in st.engines && OwnStep(step) && Engine.Enabled(st.engines[symbol], step)
    case Receive(k) => k < |st.events| && WellFormed(st.events[k])
    case SettleDaily(symbol, _, _, _, _) => !InstrumentOf(st.db.market, symbol).Spot?
  }

  /** The engine reads one order row as settlement left it. */
  function Synced(s: Engine.State, orders: Orders, id: OrderId): Engine.State {
    if id in s.d.orders && id in orders && orders[id].filledQty >= 0 then
      var row := s.d.orders[id].(filledQty := orders[id].filledQty, status := StatusOf(orders[id].status));
      s.(d := s.d.(orders := s.d.orders[id := row]))
    else s
  }

  function SyncedWith(s: Engine.State, orders: Orders, ev: Event): Engine.State {
    if ev.Traded? then Synced(Synced(s, orders, ev.buyOrder), orders, ev.sellOrder) else Synced(s, orders, ev.orderId)
  }

  function SyncedIn(engines: Engines, orders: Orders, ev: Event): Engines {
    if ev.symbol in engines then engines[ev.symbol := SyncedWith(engines[ev.symbol], orders, ev)] else engines
  }

  /** The outbox rows one step of an engine appends. */
  function NewRows(before: Engine.State, after: Engine.State): seq<Engine.OutEvent>
    requires before.d.outbox <= after.d.outbox
  {
    after.d.outbox[|before.d.outbox|..]
  }

  lemma OwnStepExtends(s: Engine.State, step: Engine.Step)
    requires OwnStep(step) && Engine.Enabled(s, step)
    ensures Extends(s, Engine.Next(s, step))
  {
    if step.DeliverEvent? {
      DeliverExtends(s, step.eid, step.recovery);
    }
  }

  function Worked(st: State, symbol: Symbol, step: Engine.Step, stamp: int): State
    requires symbol in st.engines && OwnStep(step) && Engine.Enabled(st.engines[symbol], step)
  {
    var before := st.engines[symbol];
    var after := Engine.Next(before, step);
    OwnStepExtends(before, step);
    st.(engines := st.engines[symbol := after],
        events := st.events + EventsAt(NewRows(before, after), |st.events|, symbol, stamp))
  }

  /** The row, its reservation and the placed event are one transaction; a refused order leaves nothing. */
  function Placed(st: State, symbol: Symbol, inc: OrderBook.Incoming, eid: EventId, terms: OrderTerms): State
    requires Enabled(st, Place(symbol, inc, eid, terms))
  {
    var placed := PlaceOrder(st.db, RequestOf(symbol, inc, terms));
    if placed.Err? then st
    else
      st.(engines := st.engines[symbol := Engine.Next(st.engines[symbol], Engine.Admit(inc, eid))], db := placed.value)
  }

  function Next(st: State, step: Step): State
    requires Enabled(st, step)
  {
    match step
    case Place(symbol, inc, eid, terms) => Placed(st, symbol, inc, eid, terms)
    case Work(symbol, step, stamp) => Worked(st, symbol, step, stamp)
    case Receive(k) =>
      var after := Attempt(st.db, st.events[k]);
      st.(engines := SyncedIn(st.engines, after.orders, st.events[k]), db := after)
    case SettleDaily(symbol, day, price, account, row) =>
      var settled := DailySettlement.SettlePosition(st.db, symbol, day, price, account, row);
      if settled.Ok? then st.(db := settled.value.db) else st
  }

  /** Empty engines, no order yet, nothing settled yet; accounts, holdings and positions as they may be. */
  ghost predicate Start(st: State, n: nat) {
    && st.events == [] && st.db.orders == map[] && HoldsExact(st.db, n) && PositionsAllowed(st.db.positions)
    && (forall s :: s in st.engines ==> st.engines[s] == Engine.Init(st.engines[s].d.listedPrice))
    && (forall i: nat :: Stream(i) !in st.db.processed)
  }

  /** The step delivers a placement that has already traded: see `EngineRuns.DeliverSafeIff`. */
  predicate Rematches(st: State, step: Step)
    requires Enabled(st, step)
  {
    step.Work? && EngineRuns.Rematches(st.engines[step.symbol], step.step)
  }

  /** Order ids lie below `n`, and no delivery of the run rematches. */
  ghost predicate Runs(st: State, steps: seq<Step>, n: nat)
    decreases steps
  {
    steps == [] ||
    (Enabled(st, steps[0]) && !Rematches(st, steps[0]) && (steps[0].Place? ==> 0 <= steps[0].inc.orderId < n) &&
     Runs(Next(st, steps[0]), steps[1..], n))
  }

  ghost function After(st: State, steps: seq<Step>, n: nat): State
    requires Runs(st, steps, n)
    decreases steps
  {
    if steps == [] then st else After(Next(st, steps[0]), steps[1..], n)
  }
}
