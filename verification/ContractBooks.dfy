/**
 * The books of one futures or option contract over all accounts: each fill and
 * each daily settlement realizes exactly what the open positions lose in entry
 * value, priced at what changed hands, so profit and loss sum to zero.
 */
module ContractBooks {
  import opened Common
  import opened Futures
  import opened FuturesLaws
  import opened Bank
  import opened BankLaws
  import opened Sums
  import opened Settlement
  import opened SettlementHolds
  import opened SettlementProgress
  import opened DailySettlement

  // ---------------------------------------------------------------- totals of a contract

  function PosAt(positions: Positions, s: Symbol, a: AccountId, row: RowSide): Position {
    PositionAt(positions, PositionKey(a, s, row)).position
  }

  function EntryOf(positions: Positions, s: Symbol, a: AccountId): int {
    SignedEntry(PosAt(positions, s, a, Net)) + SignedEntry(PosAt(positions, s, a, Long)) + SignedEntry(PosAt(positions, s, a, Short))
  }

  function QtyOf(positions: Positions, s: Symbol, a: AccountId): int {
    PosAt(positions, s, a, Net).qty + PosAt(positions, s, a, Long).qty + PosAt(positions, s, a, Short).qty
  }

  function EntryTerms(positions: Positions, s: Symbol): int -> int {
    a => EntryOf(positions, s, a)
  }

  function QtyTerms(positions: Positions, s: Symbol): int -> int {
    a => QtyOf(positions, s, a)
  }

  /** Signed entry value of every open position of the contract, over the accounts below `m`. */
  function Entries(positions: Positions, s: Symbol, m: nat): int {
    Sum(EntryTerms(positions, s), m)
  }

  function Contracts(positions: Positions, s: Symbol, m: nat): int {
    Sum(QtyTerms(positions, s), m)
  }

  function RealizedTerm(r: RealizedRow, s: Symbol): int {
    if r.symbol == s then r.realized else 0
  }

  /** Everything ever realized on the contract, over all accounts. */
  function RealizedOn(rows: seq<RealizedRow>, s: Symbol): int {
    if rows == [] then 0 else RealizedOn(rows[..|rows| - 1], s) + RealizedTerm(rows[|rows| - 1], s)
  }

  function RealizedBy(rows: seq<RealizedRow>, s: Symbol, a: AccountId): int {
    if rows == [] then 0
    else RealizedBy(rows[..|rows| - 1], s, a) + (if rows[|rows| - 1].account == a then RealizedTerm(rows[|rows| - 1], s) else 0)
  }

  lemma RealizedMore(rows: seq<RealizedRow>, r: RealizedRow, s: Symbol, a: AccountId)
    ensures RealizedOn(rows + [r], s) == RealizedOn(rows, s) + RealizedTerm(r, s)
    ensures RealizedBy(rows + [r], s, a) == RealizedBy(rows, s, a) + (if r.account == a then RealizedTerm(r, s) else 0)
  {
    assert (rows + [r])[..|rows + [r]| - 1] == rows;
  }

  // ---------------------------------------------------------------- one leg

  lemma PosAfter(positions: Positions, key: PositionKey, row: PositionRow, a: AccountId, r: RowSide)
    ensures PosAt(positions[key := row], key.symbol, a, r) ==
            if a == key.account && r == key.row then row.position else PosAt(positions, key.symbol, a, r)
  {
    assert PositionKey(a, key.symbol, r) == key <==> a == key.account && r == key.row;
  }

  lemma SetPosition(positions: Positions, key: PositionKey, row: PositionRow, a: AccountId)
    ensures EntryOf(positions[key := row], key.symbol, a) - EntryOf(positions, key.symbol, a) ==
            (if a == key.account then SignedEntry(row.position) - SignedEntry(PositionAt(positions, key).position) else 0)
    ensures QtyOf(positions[key := row], key.symbol, a) - QtyOf(positions, key.symbol, a) ==
            (if a == key.account then row.position.qty - PositionAt(positions, key).position.qty else 0)
  {
    PosAfter(positions, key, row, a, Net);
    PosAfter(positions, key, row, a, Long);
    PosAfter(positions, key, row, a, Short);
    assert key == PositionKey(key.account, key.symbol, key.row);
    match key.row
    case Net =>
    case Long =>
    case Short =>
  }

  lemma SetTotals(positions: Positions, key: PositionKey, row: PositionRow, m: nat)
    requires 0 <= key.account < m
    ensures Entries(positions[key := row], key.symbol, m) - Entries(positions, key.symbol, m) ==
            SignedEntry(row.position) - SignedEntry(PositionAt(positions, key).position)
    ensures Contracts(positions[key := row], key.symbol, m) - Contracts(positions, key.symbol, m) ==
            row.position.qty - PositionAt(positions, key).position.qty
  {
    forall a
      ensures a != key.account ==> EntryOf(positions[key := row], key.symbol, a) == EntryOf(positions, key.symbol, a)
      ensures a != key.account ==> QtyOf(positions[key := row], key.symbol, a) == QtyOf(positions, key.symbol, a)
    {
      SetPosition(positions, key, row, a);
    }
    SetPosition(positions, key, row, key.account);
    SumChange(EntryTerms(positions, key.symbol), EntryTerms(positions[key := row], key.symbol), m, key.account);
    SumChange(QtyTerms(positions, key.symbol), QtyTerms(positions[key := row], key.symbol), m, key.account);
  }

  /** The change a leg makes to a contract: entry value, contracts, and what it realizes. */
  datatype Move = Move(entry: int, qty: int, realized: int)

  /** A move that trades at `price` realizes exactly the entry value it takes out. */
  predicate Priced(move: Move, price: int, unitValue: int) {
    move.realized == (move.entry - move.qty * price) * unitValue
  }

  function LegMove(positions: Positions, i: Instrument, key: PositionKey, side: Side, price: int, qty: int): Move
    requires qty > 0
  {
    var before := PositionAt(positions, key).position;
    var fill := ApplyFill(UnitValue(i), before, key.row, side, price, qty);
    Move(SignedEntry(fill.position) - SignedEntry(before), fill.position.qty - before.qty, fill.realized)
  }

  lemma LegPriced(positions: Positions, i: Instrument, key: PositionKey, side: Side, price: int, qty: int)
    requires PositionsAllowed(positions) && price >= 0 && qty > 0
    ensures Priced(LegMove(positions, i, key, side, price, qty), price, UnitValue(i))
    ensures LegMove(positions, i, key, side, price, qty).qty ==
            Delta(side, qty - OverflowOf(PositionAt(positions, key).position, key.row, side, qty))
  {
    var before := PositionAt(positions, key);
    assert PositionAllowed(key.row, before);
    RowFillExact(UnitValue(i), before.position, key.row, side, price, qty);
  }

  lemma NothingClosedNothingRealized(unitValue: int, p: Position, row: RowSide, side: Side, price: int, qty: nat)
    requires qty > 0 && ApplyFill(unitValue, p, row, side, price, qty).closedQty == 0
    ensures ApplyFill(unitValue, p, row, side, price, qty).realized == 0
  {
  }

  lemma LegBooks(positions: Positions, i: Instrument, key: PositionKey, side: Side, price: int, qty: int, m: nat, a: AccountId)
    requires PositionsAllowed(positions) && price >= 0 && qty > 0 && 0 <= key.account < m
    requires SettleLeg(positions, i, key, side, price, qty).Ok?
    ensures
      var after := SettleLeg(positions, i, key, side, price, qty).value.positions;
      var move := LegMove(positions, i, key, side, price, qty);
      && PositionsAllowed(after)
      && Entries(after, key.symbol, m) == Entries(positions, key.symbol, m) + move.entry
      && Contracts(after, key.symbol, m) == Contracts(positions, key.symbol, m) + move.qty
      && EntryOf(after, key.symbol, a) == EntryOf(positions, key.symbol, a) + (if a == key.account then move.entry else 0)
      && SettleLeg(positions, i, key, side, price, qty).value.fill.realized == move.realized
  {
    var after := SettleLeg(positions, i, key, side, price, qty).value.positions;
    SetTotals(positions, key, after[key], m);
    SetPosition(positions, key, after[key], a);
  }

  // ---------------------------------------------------------------- one fill

  /** The two legs of a fill, the seller's read after the buyer's is written. */
  function BuyMove(db: Db, ev: Event): Move
    requires ev.Traded? && ev.qty > 0 && ev.buyOrder in db.orders
  {
    var i := InstrumentOf(db.market, ev.symbol);
    LegMove(db.positions, i, LegKey(i, ev.symbol, db.orders[ev.buyOrder], ev.buyer), Buy, ev.price, ev.qty)
  }

  function MidPositions(db: Db, ev: Event): Positions
    requires ev.Traded? && ev.qty > 0 && ev.buyOrder in db.orders
  {
    var i := InstrumentOf(db.market, ev.symbol);
    var bought := SettleLeg(db.positions, i, LegKey(i, ev.symbol, db.orders[ev.buyOrder], ev.buyer), Buy, ev.price, ev.qty);
    if bought.Ok? then bought.value.positions else db.positions
  }

  function SellMove(db: Db, ev: Event): Move
    requires ev.Traded? && ev.qty > 0 && ev.buyOrder in db.orders && ev.sellOrder in db.orders
  {
    var i := InstrumentOf(db.market, ev.symbol);
    LegMove(MidPositions(db, ev), i, LegKey(i, ev.symbol, db.orders[ev.sellOrder], ev.seller), Sell, ev.price, ev.qty)
  }

  /** What a fill that applies does to the totals of its contract. */
  ghost predicate FillBooks(db: Db, after: Db, ev: Event, m: nat, a: AccountId)
    requires ev.Traded? && ev.qty > 0 && ev.buyOrder in db.orders && ev.sellOrder in db.orders
  {
    var buy, sell := BuyMove(db, ev), SellMove(db, ev);
    var unitValue := UnitValue(InstrumentOf(db.market, ev.symbol));
    && Priced(buy, ev.price, unitValue) && Priced(sell, ev.price, unitValue)
    && PositionsAllowed(after.positions)
    && Entries(after.positions, ev.symbol, m) == Entries(db.positions, ev.symbol, m) + buy.entry + sell.entry
    && Contracts(after.positions, ev.symbol, m) == Contracts(db.positions, ev.symbol, m) + buy.qty + sell.qty
    && EntryOf(after.positions, ev.symbol, a) == EntryOf(db.positions, ev.symbol, a) +
       (if a == ev.buyer then buy.entry else 0) + (if a == ev.seller then sell.entry else 0)
  }

  lemma LegsBooks(db: Db, ev: Event, m: nat, a: AccountId)
    requires ev.Traded? && WellFormed(ev) && ev.buyOrder in db.orders && ev.sellOrder in db.orders
    requires PositionsAllowed(db.positions) && 0 <= ev.buyer < m && 0 <= ev.seller < m
    requires SettleLegs(db, ev, db.orders[ev.buyOrder], db.orders[ev.sellOrder]).Ok?
    ensures
      var legs := SettleLegs(db, ev, db.orders[ev.buyOrder], db.orders[ev.sellOrder]).value;
      && FillBooks(db, db.(positions := legs.positions), ev, m, a)
      && legs.buy.realized == BuyMove(db, ev).realized && legs.sell.realized == SellMove(db, ev).realized
  {
    var i := InstrumentOf(db.market, ev.symbol);
    var buyKey := LegKey(i, ev.symbol, db.orders[ev.buyOrder], ev.buyer);
    var sellKey := LegKey(i, ev.symbol, db.orders[ev.sellOrder], ev.seller);
    LegBooks(db.positions, i, buyKey, Buy, ev.price, ev.qty, m, a);
    LegPriced(db.positions, i, buyKey, Buy, ev.price, ev.qty);
    var mid := MidPositions(db, ev);
    LegBooks(mid, i, sellKey, Sell, ev.price, ev.qty, m, a);
    LegPriced(mid, i, sellKey, Sell, ev.price, ev.qty);
  }

  lemma RealizedByLegs(rows: seq<RealizedRow>, ev: Event, buyKey: PositionKey, sellKey: PositionKey, legs: Legs, a: AccountId)
    requires ev.Traded? && buyKey.account == ev.buyer && sellKey.account == ev.seller
    requires legs.buy.closedQty == 0 ==> legs.buy.realized == 0
    requires legs.sell.closedQty == 0 ==> legs.sell.realized == 0
    ensures
      var after := rows + RealizedRows(buyKey, ev, legs.buy) + RealizedRows(sellKey, ev, legs.sell);
      && RealizedOn(after, ev.symbol) == RealizedOn(rows, ev.symbol) + legs.buy.realized + legs.sell.realized
      && RealizedBy(after, ev.symbol, a) == RealizedBy(rows, ev.symbol, a) +
         (if a == ev.buyer then legs.buy.realized else 0) + (if a == ev.seller then legs.sell.realized else 0)
  {
    var mid := rows + RealizedRows(buyKey, ev, legs.buy);
    if legs.buy.closedQty == 0 {
      assert mid == rows;
    } else {
      RealizedMore(rows, RealizedRows(buyKey, ev, legs.buy)[0], ev.symbol, a);
    }
    if legs.sell.closedQty == 0 {
      assert mid + RealizedRows(sellKey, ev, legs.sell) == mid;
    } else {
      RealizedMore(mid, RealizedRows(sellKey, ev, legs.sell)[0], ev.symbol, a);
    }
  }
}
