/**
 * The settlement consumer as functions on the database: every trade and close
 * event is one transaction that either commits a new database or fails and
 * leaves it alone.
 */
module Settlement {
  import opened Common
  import opened Fees
  import opened Futures
  import opened Bank

  type Symbol = int

  /** What a row of processed events names: a stream event, or one position's settlement on one day. */
  datatype ClaimId = Stream(id: EventId) | Daily(symbol: Symbol, day: int, account: AccountId, row: RowSide)

  datatype Instrument =
    | Spot
    | Future(def: FutureDef)
    | OptionSeries(unitValue: int, writerMarginBps: int, strike: Option<int>)

  datatype Holding = Holding(qty: int, holdQty: int, costBasis: int)
  datatype HoldingKey = HoldingKey(account: AccountId, symbol: Symbol)
  datatype PositionKey = PositionKey(account: AccountId, symbol: Symbol, row: RowSide)
  datatype PositionRow = PositionRow(position: Position, marginHeld: int, leverage: Leverage)
  datatype Status = Open | Partial | Filled | Canceled | Rejected
  datatype OrderRow = OrderRow(account: AccountId, symbol: Symbol, side: Side, qty: int, filledQty: int,
                               holdPerUnit: int, status: Status, row: RowSide)
  datatype RealizedRow = RealizedRow(account: AccountId, symbol: Symbol, ref: ClaimId, closedQty: int, price: int, realized: int)

  type Holdings = map<HoldingKey, Holding>
  type Positions = map<PositionKey, PositionRow>

  datatype Db = Db(
    market: map<Symbol, Instrument>,
    bots: set<AccountId>,
    bank: Bank,
    holdings: Holdings,
    positions: Positions,
    realized: seq<RealizedRow>,
    orders: map<OrderId, OrderRow>,
    processed: set<ClaimId>)

  datatype Event =
    | Traded(eventId: ClaimId, symbol: Symbol, price: int, qty: int, buyer: AccountId, seller: AccountId,
             buyOrder: OrderId, sellOrder: OrderId, ts: int)
    | Ended(eventId: ClaimId, symbol: Symbol, orderId: OrderId, account: AccountId, side: Side, filledQty: int, status: Status)

  /** What the payload check lets through. */
  predicate WellFormed(ev: Event) {
    match ev
    case Traded(_, _, price, qty, _, _, _, _, _) => price > 0 && qty > 0
    case Ended(_, _, _, _, _, filledQty, status) => filledQty >= 0 && IsTerminal(status)
  }

  function InstrumentOf(market: map<Symbol, Instrument>, s: Symbol): Instrument {
    if s in market then market[s] else Spot
  }

  function UnitValue(i: Instrument): int {
    match i
    case Spot => 1
    case Future(def) => def.unitValue
    case OptionSeries(unitValue, _, _) => unitValue
  }

  // ---------------------------------------------------------------- order rows

  predicate IsActive(s: Status) {
    s == Open || s == Partial
  }

  predicate IsTerminal(s: Status) {
    s == Filled || s == Canceled || s == Rejected
  }

  predicate CloseMustWaitForTrades(o: OrderRow, filledQty: int) {
    IsActive(o.status) && filledQty > o.filledQty
  }

  function StateAfterTrade(o: OrderRow, fillQty: int): Result<OrderRow> {
    if !IsActive(o.status) then Err(LateTrade)
    else if o.filledQty + fillQty > o.qty then Err(Overfill)
    else Ok(o.(filledQty := o.filledQty + fillQty, status := if o.filledQty + fillQty >= o.qty then Filled else Partial))
  }

  function StateAfterClose(o: OrderRow, filledQty: int, status: Status): Option<OrderRow> {
    if IsTerminal(o.status) || filledQty < o.filledQty then None
    else Some(o.(filledQty := Min(o.qty, filledQty), status := status))
  }

  // ---------------------------------------------------------------- spot shares

  function Cost(ev: Event): int
    requires ev.Traded?
  {
    ev.price * ev.qty
  }

  /** Cost basis leaves a holding in proportion to the shares sold, rounded down. */
  function BasisReduction(h: Holding, sellQty: int): int {
    if h.qty > 0 then h.costBasis * sellQty / h.qty else 0
  }

  predicate HoldingAllowed(h: Holding) {
    h.qty >= 0 && 0 <= h.holdQty <= h.qty
  }

  function Bought(holdings: Holdings, key: HoldingKey, qty: int, cost: int): Holding {
    if key in holdings then holdings[key].(qty := holdings[key].qty + qty, costBasis := holdings[key].costBasis + cost)
    else Holding(qty, 0, cost)
  }

  function Sold(h: Holding, qty: int): Holding {
    Holding(h.qty - qty, h.holdQty - qty, h.costBasis - BasisReduction(h, qty))
  }

  datatype Shares = Shares(holdings: Holdings, basis: int)

  /** The buyer's holding is written first, so a self-trade sells from the increased holding. */
  function MoveShares(holdings: Holdings, buyer: HoldingKey, seller: HoldingKey, qty: int, cost: int): Result<Shares> {
    var bought := Bought(holdings, buyer, qty, cost);
    var mid := holdings[buyer := bought];
    if !HoldingAllowed(bought) then Err(CheckViolated)
    else if seller !in mid then Err(MissingHolding)
    else if !HoldingAllowed(Sold(mid[seller], qty)) then Err(CheckViolated)
    else Ok(Shares(mid[seller := Sold(mid[seller], qty)], BasisReduction(mid[seller], qty)))
  }

  // ---------------------------------------------------------------- position rows

  function PositionAt(positions: Positions, key: PositionKey): PositionRow {
    if key in positions then positions[key] else PositionRow(FLAT, 0, None)
  }

  /** Options always live on the net row; futures on the row their order names. */
  function LegKey(i: Instrument, symbol: Symbol, order: OrderRow, account: AccountId): PositionKey {
    PositionKey(account, symbol, if i.OptionSeries? then Net else order.row)
  }

  function MarginHeld(i: Instrument, p: Position, leverage: Leverage): int {
    match i
    case Spot => 0
    case Future(def) => if p.qty == 0 then 0 else FuturePositionMargin(def, p.entryValue, leverage)
    case OptionSeries(unitValue, bps, strike) =>
      if strike.Some? then OptionPositionMargin(unitValue, bps, p.qty, strike.value) else 0
  }

  predicate PositionAllowed(row: RowSide, p: PositionRow) {
    p.marginHeld >= 0 && Valid(p.position) && FitsRow(p.position, row) && (p.position.qty == 0 ==> p.marginHeld == 0)
  }

  datatype LegResult = LegResult(positions: Positions, fill: FillResult)

  /** Applies one leg to its position row. */
  function SettleLeg(positions: Positions, i: Instrument, key: PositionKey, side: Side, price: int, qty: int): Result<LegResult>
    requires qty > 0
  {
    var before := PositionAt(positions, key);
    var fill := ApplyFill(UnitValue(i), before.position, key.row, side, price, qty);
    var row := PositionRow(fill.position, MarginHeld(i, fill.position, before.leverage), before.leverage);
    if PositionAllowed(key.row, row) then Ok(LegResult(positions[key := row], fill)) else Err(CheckViolated)
  }

  function RealizedRows(key: PositionKey, ev: Event, fill: FillResult): seq<RealizedRow>
    requires ev.Traded?
  {
    if fill.closedQty == 0 then []
    else [RealizedRow(key.account, ev.symbol, ev.eventId, fill.closedQty, ev.price, fill.realized)]
  }

  datatype Legs = Legs(positions: Positions, buy: FillResult, sell: FillResult)

  /** The buyer's leg is written before the seller's is read. */
  function SettleLegs(db: Db, ev: Event, buy: OrderRow, sell: OrderRow): Result<Legs>
    requires ev.Traded? && ev.qty > 0
  {
    var i := InstrumentOf(db.market, ev.symbol);
    var bought := SettleLeg(db.positions, i, LegKey(i, ev.symbol, buy, ev.buyer), Buy, ev.price, ev.qty);
    if bought.Err? then Err(bought.error)
    else
      var sold := SettleLeg(bought.value.positions, i, LegKey(i, ev.symbol, sell, ev.seller), Sell, ev.price, ev.qty);
      if sold.Err? then Err(sold.error) else Ok(Legs(sold.value.positions, bought.value.fill, sold.value.fill))
  }

  // ---------------------------------------------------------------- cash of a fill

  function DealOf(db: Db, ev: Event): Deal
    requires ev.Traded?
  {
    Deal(ev.buyer, ev.seller,
         TradingFee(TradeNotional(UnitValue(InstrumentOf(db.market, ev.symbol)), ev.price, ev.qty), ev.ts), db.bots)
  }

  function FreedBy(ev: Event, buy: OrderRow, sell: OrderRow): Released
    requires ev.Traded?
  {
    Released(buy.holdPerUnit * ev.qty, sell.holdPerUnit * ev.qty)
  }

  function TermsOf(i: Instrument, ev: Event, legs: Legs): Terms
    requires ev.Traded?
  {
    if i.Future? then Profit(legs.buy.realized, legs.sell.realized) else Premium(Cost(ev) * UnitValue(i))
  }

  // ---------------------------------------------------------------- whole trades

  function SettleSpot(db: Db, ev: Event, buy: OrderRow): Result<Db>
    requires ev.Traded?
  {
    var paid := SpotCash(db.bank, DealOf(db, ev), Cost(ev), buy.holdPerUnit * ev.qty);
    if paid.Err? then Err(paid.error)
    else
      var moved := MoveShares(db.holdings, HoldingKey(ev.buyer, ev.symbol), HoldingKey(ev.seller, ev.symbol), ev.qty, Cost(ev));
      if moved.Err? then Err(moved.error)
      else
        Ok(db.(bank := paid.value, holdings := moved.value.holdings,
               realized := db.realized +
                 [RealizedRow(ev.seller, ev.symbol, ev.eventId, ev.qty, ev.price, Cost(ev) - moved.value.basis)]))
  }

  function SettleDerivative(db: Db, ev: Event, buy: OrderRow, sell: OrderRow): Result<Db>
    requires ev.Traded? && ev.qty > 0
  {
    var i := InstrumentOf(db.market, ev.symbol);
    if i.OptionSeries? && i.strike.None? then Err(MissingSeries)
    else
      var legs := SettleLegs(db, ev, buy, sell);
      if legs.Err? then Err(legs.error)
      else
        var paid := DerivativeCash(db.bank, DealOf(db, ev), TermsOf(i, ev, legs.value), FreedBy(ev, buy, sell));
        if paid.Err? then Err(paid.error)
        else
          Ok(db.(bank := paid.value, positions := legs.value.positions,
                 realized := db.realized + RealizedRows(LegKey(i, ev.symbol, buy, ev.buyer), ev, legs.value.buy) +
                   RealizedRows(LegKey(i, ev.symbol, sell, ev.seller), ev, legs.value.sell)))
  }

  function SettleAssets(db: Db, ev: Event, buy: OrderRow, sell: OrderRow): Result<Db>
    requires ev.Traded? && ev.qty > 0
  {
    if InstrumentOf(db.market, ev.symbol).Spot? then SettleSpot(db, ev, buy) else SettleDerivative(db, ev, buy, sell)
  }

  /** The rows of both orders, advanced by the fill. */
  function AdvanceOrders(db: Db, ev: Event, buy: OrderRow, sell: OrderRow): Result<Db>
    requires ev.Traded?
  {
    var b := StateAfterTrade(buy, ev.qty);
    var s := StateAfterTrade(sell, ev.qty);
    if b.Err? then Err(b.error)
    else if s.Err? then Err(s.error)
    else Ok(db.(orders := db.orders[ev.buyOrder := b.value][ev.sellOrder := s.value]))
  }

  function Claim(db: Db, eventId: ClaimId): Db {
    db.(processed := db.processed + {eventId})
  }

  function SettleTrade(db: Db, ev: Event): Result<Db>
    requires ev.Traded? && WellFormed(ev)
  {
    if ev.buyer !in db.bank.accounts || ev.seller !in db.bank.accounts then Err(MissingAccount)
    else if ev.eventId in db.processed then Ok(db)
    else if ev.buyOrder !in db.orders || ev.sellOrder !in db.orders then Err(MissingOrder)
    else
      var buy, sell := db.orders[ev.buyOrder], db.orders[ev.sellOrder];
      var settled := SettleAssets(Claim(db, ev.eventId), ev, buy, sell);
      if settled.Err? then settled else AdvanceOrders(settled.value, ev, buy, sell)
  }

  // ---------------------------------------------------------------- whole closes

  /** Orders that reserve cash: every buy, and every futures or option order. */
  predicate HoldsCash(i: Instrument, side: Side) {
    side == Buy || !i.Spot?
  }

  /** Releases what the closed order still had reserved. */
  function ReleaseRest(db: Db, ev: Event, order: OrderRow, remaining: int): Result<Db>
    requires ev.Ended?
  {
    if remaining <= 0 then Ok(db)
    else if HoldsCash(InstrumentOf(db.market, ev.symbol), ev.side) then
      var leftover := order.holdPerUnit * remaining;
      if leftover <= 0 then Ok(db)
      else
        var p := PurseOf(db.bank, ev.account);
        var put := PutPurse(db.bank, ev.account, p.(hold := p.hold - leftover));
        if put.Err? then Err(put.error) else Ok(db.(bank := put.value))
    else
      var key := HoldingKey(ev.account, ev.symbol);
      if key !in db.holdings then Err(MissingHolding)
      else
        var h := db.holdings[key].(holdQty := db.holdings[key].holdQty - remaining);
        if HoldingAllowed(h) then Ok(db.(holdings := db.holdings[key := h])) else Err(CheckViolated)
  }

  function CloseOrder(db: Db, ev: Event): Result<Db>
    requires ev.Ended? && WellFormed(ev)
  {
    if ev.account !in db.bank.accounts then Err(MissingAccount)
    else if ev.eventId in db.processed then Ok(db)
    else if ev.orderId in db.orders && CloseMustWaitForTrades(db.orders[ev.orderId], ev.filledQty) then Err(CloseAhead)
    else
      var claimed := Claim(db, ev.eventId);
      if ev.orderId !in db.orders then Ok(claimed)
      else
        var order := db.orders[ev.orderId];
        match StateAfterClose(order, ev.filledQty, ev.status)
        case None => Ok(claimed)
        case Some(next) =>
          ReleaseRest(claimed.(orders := db.orders[ev.orderId := next]), ev, order, order.qty - next.filledQty)
  }

  function Deliver(db: Db, ev: Event): Result<Db>
    requires WellFormed(ev)
  {
    if ev.Traded? then SettleTrade(db, ev) else CloseOrder(db, ev)
  }
}
