/**
 * Which position rows a derivative trade moves, and by how much: the row each
 * order names for a future, the net row for an option, and no other.
 */
module PositionRows {
  import Arithmetic
  import opened Common
  import opened Futures
  import opened FuturesLaws
  import opened Bank
  import opened Settlement
  import opened SettlementHolds
  import opened SettlementProgress

  /** Contracts on a row: a close of a hedge row takes no more than the row holds, everything else the whole fill. */
  predicate LegMoves(before: int, after: int, row: RowSide, side: Side, qty: nat) {
    match (row, side)
    case (Net, Buy) => after == before + qty
    case (Net, Sell) => after == before - qty
    case (Long, Buy) => after == before + qty
    case (Short, Sell) => after == before - qty
    case (Long, Sell) => after == before - Min(qty, Abs(before))
    case (Short, Buy) => after == before + Min(qty, Abs(before))
  }

  function ContractsAt(positions: Positions, key: PositionKey): int {
    if key in positions then positions[key].position.qty else 0
  }

  /** Only the named row differs. */
  ghost predicate OnlyAt(before: Positions, after: Positions, keys: set<PositionKey>) {
    (forall key :: key !in keys ==> (key in after <==> key in before)) &&
    (forall key :: key !in keys && key in before ==> after[key] == before[key])
  }

  /** What a row ties up: nothing when flat, otherwise the initial margin on its entry value, rounded up. */
  predicate MarginOfRow(def: FutureDef, row: PositionRow) {
    var held, value := row.marginHeld, row.position.entryValue * def.unitValue * FutureMarginBps(def, row.leverage).initial;
    if row.position.qty == 0 then held == 0 else 10_000 * (held - 1) < value <= 10_000 * held
  }

  /** What a written option ties up: for every contract owed, the writer's rate on the strike, rounded up; a row that owes nothing ties up nothing. */
  ghost predicate MarginOfWriter(i: Instrument, row: PositionRow)
    requires i.OptionSeries? && i.strike.Some?
  {
    if row.position.qty >= 0 then row.marginHeld == 0
    else exists each :: RoundsUp(each, i.strike.value * i.unitValue * i.writerMarginBps) && row.marginHeld == each * -row.position.qty
  }

  lemma WriterMarginHeld(i: Instrument, row: PositionRow)
    requires i.OptionSeries? && i.strike.Some? && row.marginHeld == MarginHeld(i, row.position, row.leverage)
    ensures MarginOfWriter(i, row)
  {
    assert RoundsUp(CeilBps(i.strike.value * i.unitValue, i.writerMarginBps), i.strike.value * i.unitValue * i.writerMarginBps);
  }

  /** A row ties up what its instrument asks for. */
  ghost predicate TiesUp(i: Instrument, row: PositionRow) {
    (i.Future? ==> MarginOfRow(i.def, row)) && (i.OptionSeries? && i.strike.Some? ==> MarginOfWriter(i, row))
  }

  /** One row moved by a leg, every other row as it was. */
  ghost predicate RowMoved(before: Positions, after: Positions, key: PositionKey, side: Side, qty: nat) {
    OnlyAt(before, after, {key}) && key in after && LegMoves(ContractsAt(before, key), ContractsAt(after, key), key.row, side, qty)
  }

  lemma LegMovesRow(positions: Positions, i: Instrument, key: PositionKey, side: Side, price: int, qty: int)
    requires PositionsAllowed(positions) && price >= 0 && qty > 0 && SettleLeg(positions, i, key, side, price, qty).Ok?
    ensures
      var after := SettleLeg(positions, i, key, side, price, qty).value.positions;
      && RowMoved(positions, after, key, side, qty) && PositionsAllowed(after)
      && after[key].leverage == PositionAt(positions, key).leverage && TiesUp(i, after[key])
  {
    var before := PositionAt(positions, key);
    assert PositionAllowed(key.row, before);
    RowFillExact(UnitValue(i), before.position, key.row, side, price, qty);
    if i.OptionSeries? && i.strike.Some? {
      WriterMarginHeld(i, SettleLeg(positions, i, key, side, price, qty).value.positions[key]);
    }
  }

  /** The rows of both parties moved by their legs, every other row as it was. */
  ghost predicate RowsMoved(before: Positions, after: Positions, buyer: PositionKey, seller: PositionKey, qty: nat) {
    && OnlyAt(before, after, {buyer, seller}) && buyer in after && seller in after
    && LegMoves(ContractsAt(before, buyer), ContractsAt(after, buyer), buyer.row, Buy, qty)
    && LegMoves(ContractsAt(before, seller), ContractsAt(after, seller), seller.row, Sell, qty)
  }

  lemma BothMoved(before: Positions, mid: Positions, after: Positions, buyer: PositionKey, seller: PositionKey, qty: nat)
    requires buyer != seller && RowMoved(before, mid, buyer, Buy, qty) && RowMoved(mid, after, seller, Sell, qty)
    ensures RowsMoved(before, after, buyer, seller, qty) && after[buyer] == mid[buyer]
  {
  }

  lemma LegsMoveRows(positions: Positions, i: Instrument, buyer: PositionKey, seller: PositionKey, price: int, qty: int)
    requires PositionsAllowed(positions) && price >= 0 && qty > 0 && buyer != seller
    requires SettleLeg(positions, i, buyer, Buy, price, qty).Ok?
    requires SettleLeg(SettleLeg(positions, i, buyer, Buy, price, qty).value.positions, i, seller, Sell, price, qty).Ok?
    ensures
      var mid := SettleLeg(positions, i, buyer, Buy, price, qty).value.positions;
      var after := SettleLeg(mid, i, seller, Sell, price, qty).value.positions;
      RowsMoved(positions, after, buyer, seller, qty) && TiesUp(i, after[buyer]) && TiesUp(i, after[seller])
  {
    var mid := SettleLeg(positions, i, buyer, Buy, price, qty).value.positions;
    LegMovesRow(positions, i, buyer, Buy, price, qty);
    LegMovesRow(mid, i, seller, Sell, price, qty);
    BothMoved(positions, mid, SettleLeg(mid, i, seller, Sell, price, qty).value.positions, buyer, seller, qty);
  }

  /**
   * A futures trade moves the row each order names, and no other: an opening
   * fill by its whole quantity, a close of a hedge row by at most what the row
   * holds; and each row then ties up its margin.
   */
  lemma FutureTradeMovesNamedRows(db: Db, ev: Event)
    requires ev.Traded? && WellFormed(ev) && Applies(db, ev) && InstrumentOf(db.market, ev.symbol).Future?
    requires ev.buyer != ev.seller && PositionsAllowed(db.positions)
    ensures ev.buyOrder in db.orders && ev.sellOrder in db.orders
    ensures
      var after, def := SettleTrade(db, ev).value.positions, InstrumentOf(db.market, ev.symbol).def;
      var buyer := PositionKey(ev.buyer, ev.symbol, db.orders[ev.buyOrder].row);
      var seller := PositionKey(ev.seller, ev.symbol, db.orders[ev.sellOrder].row);
      RowsMoved(db.positions, after, buyer, seller, ev.qty) && MarginOfRow(def, after[buyer]) && MarginOfRow(def, after[seller])
  {
    var i := InstrumentOf(db.market, ev.symbol);
    var buyer := PositionKey(ev.buyer, ev.symbol, db.orders[ev.buyOrder].row);
    var seller := PositionKey(ev.seller, ev.symbol, db.orders[ev.sellOrder].row);
    LegsMoveRows(db.positions, i, buyer, seller, ev.price, ev.qty);
  }

  /** An option trade moves both parties' net rows by its whole quantity, and no other row; what is owed then ties up its margin. */
  lemma OptionTradeMovesNetRows(db: Db, ev: Event)
    requires ev.Traded? && WellFormed(ev) && Applies(db, ev) && InstrumentOf(db.market, ev.symbol).OptionSeries?
    requires ev.buyer != ev.seller && PositionsAllowed(db.positions)
    ensures InstrumentOf(db.market, ev.symbol).strike.Some?
    ensures
      var after, i := SettleTrade(db, ev).value.positions, InstrumentOf(db.market, ev.symbol);
      var buyer, seller := PositionKey(ev.buyer, ev.symbol, Net), PositionKey(ev.seller, ev.symbol, Net);
      RowsMoved(db.positions, after, buyer, seller, ev.qty) && MarginOfWriter(i, after[buyer]) && MarginOfWriter(i, after[seller])
  {
    LegsMoveRows(db.positions, InstrumentOf(db.market, ev.symbol), PositionKey(ev.buyer, ev.symbol, Net),
                 PositionKey(ev.seller, ev.symbol, Net), ev.price, ev.qty);
  }

  /** A trade of shares, and a close of any order, moves no position. */
  lemma OtherEventsMoveNoRow(db: Db, ev: Event)
    requires WellFormed(ev) && Deliver(db, ev).Ok? && (ev.Traded? ==> InstrumentOf(db.market, ev.symbol).Spot?)
    ensures Deliver(db, ev).value.positions == db.positions
  {
  }

  /** The initial rate of a leverage is the smallest that covers its share of the value; the maintenance rate two thirds of it, rounded down. */
  lemma LeverageRates(def: FutureDef, times: int)
    requires 1 <= times <= 20
    ensures
      var bps := FutureMarginBps(def, Some(times));
      && (bps.initial - 1) * times < 10_000 <= bps.initial * times
      && 3 * bps.maintenance <= 2 * bps.initial < 3 * bps.maintenance + 3
  {
    Arithmetic.DivBetween(10_000 + times - 1, times);
  }
}
