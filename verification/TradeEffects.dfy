/**
 * What one settlement event does, in prices and quantities: the cash, the fee
 * and the shares of each party, the rows of both orders, and what a close gives
 * back.
 */
module TradeEffects {
  import opened Common
  import opened Fees
  import opened Futures
  import opened FuturesLaws
  import opened Bank
  import opened BankLaws
  import opened Settlement
  import opened SettlementHolds
  import opened SettlementProgress
  import SettlementForecast

  /** One side's fee: a basis point of the notional, rounded up to a whole won; none before fees took effect. */
  predicate IsFee(fee: int, notional: int, ts: int) {
    if ts < TRADING_FEES_EFFECTIVE_AT || notional <= 0 then fee == 0 else 10_000 * (fee - 1) < notional <= 10_000 * fee
  }

  /** An account that trades with itself stands on both sides. */
  function Sides(ev: Event, a: AccountId, bought: int, sold: int): int
    requires ev.Traded?
  {
    (if a == ev.buyer then bought else 0) + (if a == ev.seller then sold else 0)
  }

  /** What the trade moves on each side: equity before the fee, and the reservation its orders' fills use up. */
  datatype Move = Move(bought: int, sold: int, buyHeld: int, sellHeld: int, fee: int)

  /** Equity moves by the terms of the trade and one fee a side, unless the account pays none; the hold by what was reserved. */
  predicate PaysOne(before: Purse, after: Purse, ev: Event, m: Move, exempt: bool, a: AccountId)
    requires ev.Traded?
  {
    && Equity(after) == Equity(before) + Sides(ev, a, m.bought, m.sold) - (if exempt then 0 else Sides(ev, a, m.fee, m.fee))
    && after.hold == before.hold - Sides(ev, a, m.buyHeld, m.sellHeld)
  }

  ghost predicate Pays(db: Db, after: Bank, ev: Event, m: Move)
    requires ev.Traded?
  {
    forall a :: PaysOne(PurseOf(db.bank, a), PurseOf(after, a), ev, m, a in db.bots, a)
  }

  /** Both orders have filled by the quantity; an order is filled once nothing is left of it. */
  predicate FillsRow(before: OrderRow, after: OrderRow, qty: int) {
    after == before.(filledQty := before.filledQty + qty, status := after.status) && IsActive(before.status)
    && after.filledQty <= after.qty && after.status == if after.filledQty == after.qty then Status.Filled else Partial
  }

  ghost predicate FillsOrders(db: Db, after: Db, ev: Event)
    requires ev.Traded?
  {
    && ev.buyOrder in db.orders && ev.sellOrder in db.orders && after.orders.Keys == db.orders.Keys
    && (ev.buyOrder != ev.sellOrder ==> FillsRow(db.orders[ev.buyOrder], after.orders[ev.buyOrder], ev.qty))
    && FillsRow(db.orders[ev.sellOrder], after.orders[ev.sellOrder], ev.qty)
    && (forall o :: o in db.orders && o != ev.buyOrder && o != ev.sellOrder ==> after.orders[o] == db.orders[o])
    && after.processed == db.processed + {ev.eventId} && after.market == db.market && after.bots == db.bots
  }

  lemma TradeFillsOrders(db: Db, ev: Event)
    requires ev.Traded? && WellFormed(ev) && Applies(db, ev)
    ensures FillsOrders(db, SettleTrade(db, ev).value, ev)
  {
    TradeSettlesRows(db, ev);
    RowsFill(db, SettleTrade(db, ev).value, ev);
  }

  lemma RowsFill(db: Db, after: Db, ev: Event)
    requires ev.Traded? && WellFormed(ev) && RowsAdvance(db.orders, after.orders, ev)
    requires after.market == db.market && after.bots == db.bots && after.processed == db.processed + {ev.eventId}
    ensures FillsOrders(db, after, ev)
  {
  }

  lemma FeeOfDeal(db: Db, ev: Event, fee: int)
    requires ev.Traded? && WellFormed(ev)
    requires IsFee(fee, ev.price * ev.qty * UnitValue(InstrumentOf(db.market, ev.symbol)), ev.ts)
    ensures DealOf(db, ev) == Deal(ev.buyer, ev.seller, fee, db.bots)
  {
  }

  lemma DueIs(ev: Event, fee: nat, bots: set<AccountId>, a: AccountId)
    requires ev.Traded?
    ensures Due(Deal(ev.buyer, ev.seller, fee, bots), a) == if a in bots then 0 else Sides(ev, a, fee, fee)
  {
  }

  // ---- Shares ----

  predicate SellsFrom(before: Holding, after: Holding, qty: int, given: int) {
    && after == Holding(before.qty - qty, before.holdQty - qty, before.costBasis - given)
    && given * before.qty <= before.costBasis * qty < given * before.qty + before.qty
  }

  /**
   * The shares change hands out of the seller's reservation. The cost joins the
   * buyer's basis, and the seller's basis gives up the share that was sold,
   * rounded down; the difference to the price is the seller's profit.
   */
  ghost predicate MovesShares(db: Db, after: Db, ev: Event, given: int)
    requires ev.Traded?
  {
    var bought, sold := HoldingKey(ev.buyer, ev.symbol), HoldingKey(ev.seller, ev.symbol);
    && sold in db.holdings && sold in after.holdings && bought in after.holdings
    && (forall key :: key != bought && key != sold ==> (key in after.holdings <==> key in db.holdings))
    && (forall key :: key != bought && key != sold && key in db.holdings ==> after.holdings[key] == db.holdings[key])
    && SellsFrom(db.holdings[sold], after.holdings[sold], ev.qty, given)
    && (bought in db.holdings ==>
          after.holdings[bought] == db.holdings[bought].(qty := db.holdings[bought].qty + ev.qty,
                                                         costBasis := db.holdings[bought].costBasis + ev.price * ev.qty))
    && (bought !in db.holdings ==> after.holdings[bought] == Holding(ev.qty, 0, ev.price * ev.qty))
    && after.realized == db.realized + [RealizedRow(ev.seller, ev.symbol, ev.eventId, ev.qty, ev.price, ev.price * ev.qty - given)]
  }

  lemma SharesMove(db: Db, ev: Event) returns (given: int)
    requires ev.Traded? && WellFormed(ev) && Applies(db, ev) && InstrumentOf(db.market, ev.symbol).Spot? && ev.buyer != ev.seller
    ensures MovesShares(db, SettleTrade(db, ev).value, ev, given)
  {
    var h := db.holdings[HoldingKey(ev.seller, ev.symbol)];
    assert h.qty >= ev.qty;
    given := h.costBasis * ev.qty / h.qty;
  }

  lemma SpotPaysOne(p: Purse, ev: Event, bots: set<AccountId>, fee: nat, cost: int, held: int, a: AccountId)
    requires ev.Traded?
    ensures PaysOne(p, SpotFinal(p, Deal(ev.buyer, ev.seller, fee, bots), cost, held, a), ev, Move(-cost, cost, held, 0, fee), a in bots, a)
  {
    SpotMoves(p, Deal(ev.buyer, ev.seller, fee, bots), cost, held, a);
    DueIs(ev, fee, bots, a);
  }

  /** A trade of shares: price times quantity against shares, and the buyer's reservation for them used up. */
  lemma SpotTradePays(db: Db, ev: Event, fee: int)
    requires ev.Traded? && WellFormed(ev) && Applies(db, ev) && InstrumentOf(db.market, ev.symbol).Spot?
    requires IsFee(fee, ev.price * ev.qty, ev.ts)
    ensures ev.buyOrder in db.orders
    ensures
      var cost, held := ev.price * ev.qty, db.orders[ev.buyOrder].holdPerUnit * ev.qty;
      Pays(db, SettleTrade(db, ev).value.bank, ev, Move(-cost, cost, held, 0, fee))
  {
    var after := SpotBankIs(db, ev, fee);
    SpotBankPays(db, ev, fee, ev.price * ev.qty, db.orders[ev.buyOrder].holdPerUnit * ev.qty, after);
  }

  lemma SpotDeal(db: Db, ev: Event, fee: int)
    requires ev.Traded? && WellFormed(ev) && InstrumentOf(db.market, ev.symbol).Spot? && IsFee(fee, ev.price * ev.qty, ev.ts)
    ensures fee >= 0 && DealOf(db, ev) == Deal(ev.buyer, ev.seller, fee, db.bots) && Cost(ev) == ev.price * ev.qty
  {
    assert ev.price * ev.qty * 1 == ev.price * ev.qty;
    FeeOfDeal(db, ev, fee);
  }

  lemma SpotBankIs(db: Db, ev: Event, fee: int) returns (after: Bank)
    requires ev.Traded? && WellFormed(ev) && Applies(db, ev) && InstrumentOf(db.market, ev.symbol).Spot?
    requires IsFee(fee, ev.price * ev.qty, ev.ts)
    ensures fee >= 0 && ev.buyOrder in db.orders && ev.buyer in db.bank.accounts && ev.seller in db.bank.accounts
    ensures after == SettleTrade(db, ev).value.bank
    ensures SpotCash(db.bank, Deal(ev.buyer, ev.seller, fee, db.bots), ev.price * ev.qty, db.orders[ev.buyOrder].holdPerUnit * ev.qty) == Ok(after)
  {
    SettlementForecast.SpotBank(db, ev);
    SpotDeal(db, ev, fee);
    after := SettleTrade(db, ev).value.bank;
  }

  lemma SpotBankPays(db: Db, ev: Event, fee: nat, cost: int, held: int, after: Bank)
    requires ev.Traded? && ev.buyer in db.bank.accounts && ev.seller in db.bank.accounts
    requires SpotCash(db.bank, Deal(ev.buyer, ev.seller, fee, db.bots), cost, held) == Ok(after)
    ensures Pays(db, after, ev, Move(-cost, cost, held, 0, fee))
  {
    var deal := Deal(ev.buyer, ev.seller, fee, db.bots);
    SpotCashEffect(db.bank, deal, cost, held);
    forall a
      ensures PaysOne(PurseOf(db.bank, a), PurseOf(after, a), ev, Move(-cost, cost, held, 0, fee), a in db.bots, a)
    {
      SpotPaysOne(PurseOf(db.bank, a), ev, db.bots, fee, cost, held, a);
    }
  }

  // ---- Futures and options ----

  lemma DerivativeBank(db: Db, ev: Event)
    requires ev.Traded? && WellFormed(ev) && Applies(db, ev) && !InstrumentOf(db.market, ev.symbol).Spot?
    ensures ev.buyOrder in db.orders && ev.sellOrder in db.orders && ev.buyer in db.bank.accounts && ev.seller in db.bank.accounts
    ensures
      var i, buy, sell := InstrumentOf(db.market, ev.symbol), db.orders[ev.buyOrder], db.orders[ev.sellOrder];
      var legs := SettleLegs(db, ev, buy, sell);
      && legs.Ok? && SettleTrade(db, ev).value.positions == legs.value.positions
      && var paid := DerivativeCash(db.bank, DealOf(db, ev), TermsOf(i, ev, legs.value), FreedBy(ev, buy, sell));
         paid.Ok? && SettleTrade(db, ev).value.bank == paid.value
  {
    var claimed, buy, sell := Claim(db, ev.eventId), db.orders[ev.buyOrder], db.orders[ev.sellOrder];
    assert DealOf(claimed, ev) == DealOf(db, ev);
    assert SettleLegs(claimed, ev, buy, sell) == SettleLegs(db, ev, buy, sell);
  }

  function MoveOf(terms: Terms, freed: Released, fee: int): Move {
    match terms
    case Profit(buy, sell) => Move(buy, sell, freed.buy, freed.sell, fee)
    case Premium(premium) => Move(-premium, premium, freed.buy, freed.sell, fee)
  }

  lemma DerivativePaysOne(p: Purse, ev: Event, bots: set<AccountId>, fee: nat, terms: Terms, freed: Released, a: AccountId)
    requires ev.Traded?
    ensures PaysOne(p, DerivativeFinal(p, Deal(ev.buyer, ev.seller, fee, bots), terms, freed, a), ev, MoveOf(terms, freed, fee), a in bots, a)
  {
    DerivativeMoves(p, Deal(ev.buyer, ev.seller, fee, bots), terms, freed, a);
    DueIs(ev, fee, bots, a);
  }

  lemma DerivativePays(db: Db, ev: Event, fee: nat, terms: Terms, freed: Released, m: Move, after: Bank)
    requires m == MoveOf(terms, freed, fee)
    requires ev.Traded? && ev.buyer in db.bank.accounts && ev.seller in db.bank.accounts
    requires DerivativeCash(db.bank, Deal(ev.buyer, ev.seller, fee, db.bots), terms, freed) == Ok(after)
    ensures Pays(db, after, ev, m)
  {
    var deal := Deal(ev.buyer, ev.seller, fee, db.bots);
    DerivativeCashEffect(db.bank, deal, terms, freed);
    forall a
      ensures PaysOne(PurseOf(db.bank, a), PurseOf(after, a), ev, m, a in db.bots, a)
    {
      DerivativePaysOne(PurseOf(db.bank, a), ev, db.bots, fee, terms, freed, a);
    }
  }

  lemma DerivativeTradePays(db: Db, ev: Event, fee: nat, legs: Legs, m: Move)
    requires ev.Traded? && WellFormed(ev) && Applies(db, ev) && !InstrumentOf(db.market, ev.symbol).Spot?
    requires ev.buyOrder in db.orders && ev.sellOrder in db.orders && DealOf(db, ev) == Deal(ev.buyer, ev.seller, fee, db.bots)
    requires SettleLegs(db, ev, db.orders[ev.buyOrder], db.orders[ev.sellOrder]) == Ok(legs)
    requires m == MoveOf(TermsOf(InstrumentOf(db.market, ev.symbol), ev, legs), FreedBy(ev, db.orders[ev.buyOrder], db.orders[ev.sellOrder]), fee)
    ensures Pays(db, SettleTrade(db, ev).value.bank, ev, m)
  {
    DerivativeBank(db, ev);
    var freed := FreedBy(ev, db.orders[ev.buyOrder], db.orders[ev.sellOrder]);
    DerivativePays(db, ev, fee, TermsOf(InstrumentOf(db.market, ev.symbol), ev, legs), freed, m, SettleTrade(db, ev).value.bank);
  }

  /** An option trade: the premium changes hands, and both orders' margins are freed. */
  lemma OptionTradePays(db: Db, ev: Event, fee: int)
    requires ev.Traded? && WellFormed(ev) && Applies(db, ev) && InstrumentOf(db.market, ev.symbol).OptionSeries?
    requires IsFee(fee, ev.price * ev.qty * InstrumentOf(db.market, ev.symbol).unitValue, ev.ts)
    ensures ev.buyOrder in db.orders && ev.sellOrder in db.orders
    ensures
      var premium, buy, sell := ev.price * ev.qty * InstrumentOf(db.market, ev.symbol).unitValue, db.orders[ev.buyOrder], db.orders[ev.sellOrder];
      Pays(db, SettleTrade(db, ev).value.bank, ev, Move(-premium, premium, buy.holdPerUnit * ev.qty, sell.holdPerUnit * ev.qty, fee))
  {
    DerivativeBank(db, ev);
    var legs := SettleLegs(db, ev, db.orders[ev.buyOrder], db.orders[ev.sellOrder]).value;
    var m := OptionMove(db, ev, fee, legs);
    DerivativeTradePays(db, ev, fee, legs, m);
  }

  lemma OptionMove(db: Db, ev: Event, fee: int, legs: Legs) returns (m: Move)
    requires ev.Traded? && WellFormed(ev) && InstrumentOf(db.market, ev.symbol).OptionSeries?
    requires ev.buyOrder in db.orders && ev.sellOrder in db.orders
    requires IsFee(fee, ev.price * ev.qty * InstrumentOf(db.market, ev.symbol).unitValue, ev.ts)
    ensures fee >= 0 && DealOf(db, ev) == Deal(ev.buyer, ev.seller, fee, db.bots)
    ensures m == MoveOf(TermsOf(InstrumentOf(db.market, ev.symbol), ev, legs), FreedBy(ev, db.orders[ev.buyOrder], db.orders[ev.sellOrder]), fee)
    ensures
      var premium, buy, sell := ev.price * ev.qty * InstrumentOf(db.market, ev.symbol).unitValue, db.orders[ev.buyOrder], db.orders[ev.sellOrder];
      m == Move(-premium, premium, buy.holdPerUnit * ev.qty, sell.holdPerUnit * ev.qty, fee)
  {
    FeeOfDeal(db, ev, fee);
    m := MoveOf(TermsOf(InstrumentOf(db.market, ev.symbol), ev, legs), FreedBy(ev, db.orders[ev.buyOrder], db.orders[ev.sellOrder]), fee);
  }

  /** What a row is worth at its entry: contracts held count for, contracts owed against. */
  function EntryAt(positions: Positions, key: PositionKey): int {
    if key !in positions then 0
    else if positions[key].position.qty >= 0 then positions[key].position.entryValue else -positions[key].position.entryValue
  }

  function QtyAt(positions: Positions, key: PositionKey): int {
    if key in positions then positions[key].position.qty else 0
  }

  /** What the move of a row realizes: the entry value it lost, less the contracts it lost at this price. */
  function RealizedAt(before: Positions, after: Positions, key: PositionKey, price: int, unitValue: int): int {
    (EntryAt(after, key) - EntryAt(before, key) - (QtyAt(after, key) - QtyAt(before, key)) * price) * unitValue
  }

  lemma LegRealizes(positions: Positions, i: Instrument, key: PositionKey, side: Side, price: int, qty: int)
    requires PositionsAllowed(positions) && price >= 0 && qty > 0 && SettleLeg(positions, i, key, side, price, qty).Ok?
    ensures
      var leg := SettleLeg(positions, i, key, side, price, qty).value;
      && leg.fill.realized == RealizedAt(positions, leg.positions, key, price, UnitValue(i))
      && PositionsAllowed(leg.positions)
      && (forall other :: other != key ==> EntryAt(leg.positions, other) == EntryAt(positions, other) && QtyAt(leg.positions, other) == QtyAt(positions, other))
  {
    var before := PositionAt(positions, key);
    assert PositionAllowed(key.row, before);
    RowFillExact(UnitValue(i), before.position, key.row, side, price, qty);
  }

  lemma LegsRealize(positions: Positions, i: Instrument, buyer: PositionKey, seller: PositionKey, price: int, qty: int)
    requires PositionsAllowed(positions) && price >= 0 && qty > 0 && buyer != seller
    requires SettleLeg(positions, i, buyer, Buy, price, qty).Ok?
    requires SettleLeg(SettleLeg(positions, i, buyer, Buy, price, qty).value.positions, i, seller, Sell, price, qty).Ok?
    ensures
      var first := SettleLeg(positions, i, buyer, Buy, price, qty).value;
      var second := SettleLeg(first.positions, i, seller, Sell, price, qty).value;
      && first.fill.realized == RealizedAt(positions, second.positions, buyer, price, UnitValue(i))
      && second.fill.realized == RealizedAt(positions, second.positions, seller, price, UnitValue(i))
  {
    LegRealizes(positions, i, buyer, Buy, price, qty);
    var first := SettleLeg(positions, i, buyer, Buy, price, qty).value;
    LegRealizes(first.positions, i, seller, Sell, price, qty);
  }

  /** A futures trade: each party is paid what its own row realized, and both orders' margins are freed. */
  lemma FutureTradePays(db: Db, ev: Event, fee: int)
    requires ev.Traded? && WellFormed(ev) && Applies(db, ev) && InstrumentOf(db.market, ev.symbol).Future?
    requires ev.buyer != ev.seller && PositionsAllowed(db.positions)
    requires IsFee(fee, ev.price * ev.qty * InstrumentOf(db.market, ev.symbol).def.unitValue, ev.ts)
    ensures ev.buyOrder in db.orders && ev.sellOrder in db.orders
    ensures
      var after, unitValue := SettleTrade(db, ev).value, InstrumentOf(db.market, ev.symbol).def.unitValue;
      var buy, sell := db.orders[ev.buyOrder], db.orders[ev.sellOrder];
      var bought := RealizedAt(db.positions, after.positions, PositionKey(ev.buyer, ev.symbol, buy.row), ev.price, unitValue);
      var sold := RealizedAt(db.positions, after.positions, PositionKey(ev.seller, ev.symbol, sell.row), ev.price, unitValue);
      Pays(db, after.bank, ev, Move(bought, sold, buy.holdPerUnit * ev.qty, sell.holdPerUnit * ev.qty, fee))
  {
    DerivativeBank(db, ev);
    FeeOfDeal(db, ev, fee);
    var i, buy, sell := InstrumentOf(db.market, ev.symbol), db.orders[ev.buyOrder], db.orders[ev.sellOrder];
    var legs := SettleLegs(db, ev, buy, sell).value;
    LegsRealize(db.positions, i, PositionKey(ev.buyer, ev.symbol, buy.row), PositionKey(ev.seller, ev.symbol, sell.row), ev.price, ev.qty);
    DerivativeTradePays(db, ev, fee, legs, Move(legs.buy.realized, legs.sell.realized, buy.holdPerUnit * ev.qty, sell.holdPerUnit * ev.qty, fee));
  }

  // ---- Closes ----

  /** What was still reserved for an order: cash for a buy or a derivative order, shares for a sell of shares. */
  ghost predicate GivesBack(db: Db, after: Db, o: OrderRow) {
    var left, cash := o.qty - o.filledQty, o.side == Buy || !InstrumentOf(db.market, o.symbol).Spot?;
    && (forall a :: PurseOf(after.bank, a) ==
          PurseOf(db.bank, a).(hold := PurseOf(db.bank, a).hold - if cash && a == o.account then o.holdPerUnit * left else 0))
    && (forall key :: HoldQtyAt(after.holdings, key) ==
          HoldQtyAt(db.holdings, key) - if !cash && key == HoldingKey(o.account, o.symbol) then left else 0)
    && after.bank.ledger == db.bank.ledger && after.positions == db.positions && after.realized == db.realized
  }

  /**
   * The close of an active order that tells of exactly its fills ends the row
   * with the status it names and gives back what was still reserved. One that
   * tells of fewer only claims its event; one that tells of more fails.
   */
  lemma CloseEnds(db: Db, ev: Event)
    requires ev.Ended? && WellFormed(ev) && ev.eventId !in db.processed && ev.account in db.bank.accounts
    requires ev.orderId in db.orders && Describes(db.orders, ev) && RowOk(db.orders[ev.orderId]) && IsActive(db.orders[ev.orderId].status)
    ensures ev.filledQty > db.orders[ev.orderId].filledQty ==> CloseOrder(db, ev).Err?
    ensures ev.filledQty < db.orders[ev.orderId].filledQty ==> CloseOrder(db, ev) == Ok(db.(processed := db.processed + {ev.eventId}))
    ensures
      var o := db.orders[ev.orderId];
      ev.filledQty == o.filledQty && CloseOrder(db, ev).Ok? ==>
        var after := CloseOrder(db, ev).value;
        && after.orders == db.orders[ev.orderId := o.(status := ev.status)] && GivesBack(db, after, o)
        && after.processed == db.processed + {ev.eventId}
  {
    var o := db.orders[ev.orderId];
    if ev.filledQty == o.filledQty && CloseOrder(db, ev).Ok? {
      CloseEffect(db, ev);
    }
  }
}
