/**
 * Settlement never wedges: as long as events describe what the engine matched,
 * the only event that can fail is a close whose fills have not all settled yet,
 * and then some fill can still settle.
 */
module SettlementProgress {
  import opened Arithmetic
  import opened Common
  import opened Fees
  import opened Futures
  import opened FuturesLaws
  import opened Bank
  import opened BankLaws
  import opened Sums
  import opened Settlement
  import opened SettlementHolds

  // ---------------------------------------------------------------- what is still to come

  predicate Names(ev: Event, o: OrderId) {
    ev.Traded? && (ev.buyOrder == o || ev.sellOrder == o)
  }

  function PendingTerm(events: seq<Event>, done: set<ClaimId>, o: OrderId, i: int): int {
    if 0 <= i < |events| && events[i].eventId !in done && Names(events[i], o) then events[i].qty else 0
  }

  function PendingFills(events: seq<Event>, done: set<ClaimId>, o: OrderId): int -> int {
    i => PendingTerm(events, done, o, i)
  }

  /** Shares or contracts of one order in the fills not yet settled. */
  function PendingQty(events: seq<Event>, done: set<ClaimId>, o: OrderId): int {
    Sum(PendingFills(events, done, o), |events|)
  }

  predicate DistinctIds(events: seq<Event>) {
    forall i, j :: 0 <= i < j < |events| ==> events[i].eventId != events[j].eventId
  }

  /** The instrument's parameters are sane, and a buyer who pays at once reserved at least what this fill costs. */
  predicate Payable(db: Db, ev: Event)
    requires ev.Traded? && ev.buyOrder in db.orders
  {
    var held := db.orders[ev.buyOrder].holdPerUnit;
    match InstrumentOf(db.market, ev.symbol)
    case Spot => held >= ev.price
    case Future(def) => def.unitValue >= 0 && def.initialMarginBps >= 0
    case OptionSeries(unitValue, bps, strike) =>
      unitValue >= 0 && bps >= 0 && strike.Some? && strike.value >= 0 && held >= ev.price * unitValue
  }

  /** What the matching engine and order admission guarantee of a published event. */
  predicate Ready(db: Db, ev: Event) {
    && WellFormed(ev) && Describes(db.orders, ev)
    && match ev
       case Traded(_, _, _, _, buyer, seller, buyOrder, sellOrder, _) =>
         && buyer in db.bank.accounts && seller in db.bank.accounts
         && buyOrder in db.orders && sellOrder in db.orders && Payable(db, ev)
       case Ended(_, _, _, account, _, _, _) => account in db.bank.accounts
  }

  predicate IsPending(db: Db, ev: Event) {
    ev.eventId !in db.processed
  }

  ghost predicate AllReady(db: Db, events: seq<Event>) {
    forall i :: 0 <= i < |events| ==> Ready(db, events[i])
  }

  /** Fills still to come fit into an order that is still active. */
  ghost predicate FillsFit(db: Db, events: seq<Event>, o: OrderId) {
    o in db.orders && PendingQty(events, db.processed, o) > 0 ==>
      IsActive(db.orders[o].status) && db.orders[o].filledQty + PendingQty(events, db.processed, o) <= db.orders[o].qty
  }

  ghost predicate AllFit(db: Db, events: seq<Event>) {
    forall o :: FillsFit(db, events, o)
  }

  /** A pending close reports exactly the fills its order has and will have. */
  ghost predicate CloseTells(db: Db, events: seq<Event>, ev: Event) {
    ev.Ended? && IsPending(db, ev) && ev.orderId in db.orders && IsActive(db.orders[ev.orderId].status) ==>
      ev.filledQty == db.orders[ev.orderId].filledQty + PendingQty(events, db.processed, ev.orderId)
  }

  ghost predicate ClosesTell(db: Db, events: seq<Event>) {
    forall i :: 0 <= i < |events| ==> CloseTells(db, events, events[i])
  }

  predicate PositionsAllowed(positions: Positions) {
    forall key :: key in positions ==> PositionAllowed(key.row, positions[key])
  }

  /** The database and the events still to be settled agree. */
  ghost predicate Consistent(db: Db, events: seq<Event>) {
    DistinctIds(events) && AllReady(db, events) && AllFit(db, events) && ClosesTell(db, events) && PositionsAllowed(db.positions)
  }

  // ---------------------------------------------------------------- a pending trade always settles

  lemma PendingNonNegative(events: seq<Event>, done: set<ClaimId>, o: OrderId)
    requires forall i :: 0 <= i < |events| ==> WellFormed(events[i])
    ensures NonNegative(PendingFills(events, done, o), |events|)
  {
  }

  lemma PendingAtLeast(events: seq<Event>, done: set<ClaimId>, o: OrderId, k: nat)
    requires k < |events| && events[k].eventId !in done && Names(events[k], o)
    requires forall i :: 0 <= i < |events| ==> WellFormed(events[i])
    ensures events[k].qty <= PendingQty(events, done, o)
  {
    PendingNonNegative(events, done, o);
    SumAtLeast(PendingFills(events, done, o), |events|, k);
  }

  lemma RowAccepts(db: Db, events: seq<Event>, k: nat, o: OrderId)
    requires Consistent(db, events) && k < |events| && IsPending(db, events[k]) && Names(events[k], o) && o in db.orders
    ensures StateAfterTrade(db.orders[o], events[k].qty).Ok? && events[k].qty <= Unfilled(db.orders[o])
  {
    assert Ready(db, events[k]);
    assert forall i :: 0 <= i < |events| ==> Ready(db, events[i]);
    PendingAtLeast(events, db.processed, o, k);
    assert FillsFit(db, events, o);
  }

  lemma HeldCovers(db: Db, n: nat, a: AccountId, o: OrderId)
    requires OrdersOk(db.orders, n) && o in db.orders
    ensures 0 <= CashOf(db.orders[o], db.market, a) <= Sum(CashHeld(db.orders, db.market, a), n)
  {
    TermsNonNegative(db, n, a);
    SumAtLeast(CashHeld(db.orders, db.market, a), n, o);
  }

  lemma TermsNonNegative(db: Db, n: nat, a: AccountId)
    requires OrdersOk(db.orders, n)
    ensures NonNegative(CashHeld(db.orders, db.market, a), n)
  {
    forall o | 0 <= o < n
      ensures CashHeld(db.orders, db.market, a)(o) >= 0
    {
      if o in db.orders {
        assert db.orders[o].holdPerUnit * Unfilled(db.orders[o]) >= 0;
      }
    }
  }

  /** After a fill both parties would still have non-negative holds: the rest of the sum is what remains. */
  lemma HoldsCover(db: Db, ev: Event, n: nat, a: AccountId)
    requires ev.Traded? && ev.qty > 0 && ev.buyOrder in db.orders && ev.sellOrder in db.orders && Describes(db.orders, ev)
    requires OrdersOk(db.orders, n) && CashExactFor(db, n, a)
    requires StateAfterTrade(db.orders[ev.buyOrder], ev.qty).Ok? && StateAfterTrade(db.orders[ev.sellOrder], ev.qty).Ok?
    ensures PurseOf(db.bank, a).hold - OfSides(DealOf(db, ev), a, FreedHold(db, ev).buy, FreedHold(db, ev).sell) >= 0
  {
    var after := db.orders[ev.buyOrder := StateAfterTrade(db.orders[ev.buyOrder], ev.qty).value]
                          [ev.sellOrder := StateAfterTrade(db.orders[ev.sellOrder], ev.qty).value];
    OrdersAdvance(db.orders, ev.buyOrder, ev.sellOrder, ev.qty, n);
    TotalsAdvance(db.orders, db.market, ev.buyOrder, ev.sellOrder, ev.qty, n, a, HoldingKey(a, ev.symbol));
    UsesAgree(db, ev, a);
    TermsNonNegative(db.(orders := after), n, a);
    SumNonNegative(CashHeld(after, db.market, a), n);
  }

  lemma ChargedAllowed(deal: Deal, a: AccountId, p: Purse)
    requires PurseAllowed(p)
    ensures PurseAllowed(ChargedPurse(deal, a, p))
  {
    assert Due(deal, a) >= 0;
  }

  lemma SpotCashOk(bank: Bank, deal: Deal, cost: int, held: int)
    requires PurseAllowed(SpotPurse(PurseOf(bank, deal.buyer), deal, cost, held, deal.buyer))
    requires PurseAllowed(SpotPurse(PurseOf(bank, deal.seller), deal, cost, held, deal.seller))
    ensures SpotCash(bank, deal, cost, held).Ok?
  {
    ChargedAllowed(deal, deal.buyer, SpotPurse(PurseOf(bank, deal.buyer), deal, cost, held, deal.buyer));
    ChargedAllowed(deal, deal.seller, SpotPurse(PurseOf(bank, deal.seller), deal, cost, held, deal.seller));
  }

  lemma SpotPurseAllowed(p: Purse, deal: Deal, cost: int, held: int, a: AccountId)
    requires PurseAllowed(p) && 0 <= cost <= held && p.hold - OfSides(deal, a, held, 0) >= 0
    ensures PurseAllowed(SpotPurse(p, deal, cost, held, a))
  {
  }

  lemma LegPurseAllowed(p: Purse, deal: Deal, terms: Terms, freed: Released, a: AccountId)
    requires PurseAllowed(p) && p.hold - OfSides(deal, a, freed.buy, freed.sell) >= 0 && freed.buy >= 0 && freed.sell >= 0
    requires terms.Premium? ==> 0 <= terms.premium <= freed.buy
    ensures PurseAllowed(LegPurse(p, deal, terms, freed, a))
  {
    if terms.Profit? {
      CashExact(p.(hold := p.hold - OfSides(deal, a, freed.buy, freed.sell)), OfSides(deal, a, terms.buy, terms.sell));
    }
  }

  lemma DerivativeCashOk(bank: Bank, deal: Deal, terms: Terms, freed: Released)
    requires deal.buyer in bank.accounts
    requires PurseAllowed(LegPurse(PurseOf(bank, deal.buyer), deal, terms, freed, deal.buyer))
    requires PurseAllowed(LegPurse(PurseOf(bank, deal.seller), deal, terms, freed, deal.seller))
    ensures DerivativeCash(bank, deal, terms, freed).Ok?
  {
    ChargedAllowed(deal, deal.buyer, LegPurse(PurseOf(bank, deal.buyer), deal, terms, freed, deal.buyer));
    ChargedAllowed(deal, deal.seller, LegPurse(PurseOf(bank, deal.seller), deal, terms, freed, deal.seller));
    if PayParty(bank, deal, terms, freed, deal.buyer).Ok? {
      PayPartyEffect(bank, deal, terms, freed, deal.buyer);
      var first := PayParty(bank, deal, terms, freed, deal.buyer).value;
      assert deal.buyer != deal.seller ==> PurseOf(first, deal.seller) == PurseOf(bank, deal.seller);
    }
  }

  lemma SharesMove(db: Db, ev: Event, n: nat)
    requires ev.Traded? && ev.qty > 0 && ev.sellOrder in db.orders && Describes(db.orders, ev) && InstrumentOf(db.market, ev.symbol).Spot?
    requires OrdersOk(db.orders, n) && SharesExactAll(db, n) && HoldingsAllowed(db.holdings)
    requires ev.qty <= Unfilled(db.orders[ev.sellOrder])
    ensures MoveShares(db.holdings, HoldingKey(ev.buyer, ev.symbol), HoldingKey(ev.seller, ev.symbol), ev.qty, Cost(ev)).Ok?
  {
    var seller := HoldingKey(ev.seller, ev.symbol);
    assert SharesExactFor(db, n, seller);
    assert NonNegative(SharesHeld(db.orders, db.market, seller), n);
    SumAtLeast(SharesHeld(db.orders, db.market, seller), n, ev.sellOrder);
  }

  lemma MarginNonNegative(i: Instrument, p: Position, leverage: Leverage)
    requires p.entryValue >= 0
    requires i.Future? ==> i.def.unitValue >= 0 && i.def.initialMarginBps >= 0
    requires i.OptionSeries? ==> i.unitValue >= 0 && i.writerMarginBps >= 0 && i.strike.Some? && i.strike.value >= 0
    ensures MarginHeld(i, p, leverage) >= 0
    ensures p.qty == 0 ==> MarginHeld(i, p, leverage) == 0
  {
    match i
    case Spot =>
    case Future(def) =>
      assert p.entryValue * def.unitValue >= 0;
      assert FutureMarginBps(def, leverage).initial >= 0;
      CeilNonNegative(p.entryValue * def.unitValue, FutureMarginBps(def, leverage).initial);
    case OptionSeries(unitValue, bps, strike) =>
      assert strike.value * unitValue >= 0;
      CeilNonNegative(strike.value * unitValue, bps);
      if p.qty < 0 {
        assert CeilBps(strike.value * unitValue, bps) * -p.qty >= 0;
      }
  }

  lemma CeilNonNegative(value: int, bps: int)
    requires value >= 0 && bps >= 0
    ensures CeilBps(value, bps) >= 0
  {
    assert value * bps >= 0;
  }

  predicate Sane(i: Instrument) {
    match i
    case Spot => true
    case Future(def) => def.unitValue >= 0 && def.initialMarginBps >= 0
    case OptionSeries(unitValue, bps, strike) => unitValue >= 0 && bps >= 0 && strike.Some? && strike.value >= 0
  }

  lemma LegSettles(positions: Positions, i: Instrument, key: PositionKey, side: Side, price: int, qty: int)
    requires PositionsAllowed(positions) && Sane(i) && price >= 0 && qty > 0
    ensures SettleLeg(positions, i, key, side, price, qty).Ok?
    ensures PositionsAllowed(SettleLeg(positions, i, key, side, price, qty).value.positions)
  {
    var before := PositionAt(positions, key);
    assert PositionAllowed(key.row, before);
    RowFillExact(UnitValue(i), before.position, key.row, side, price, qty);
    var fill := ApplyFill(UnitValue(i), before.position, key.row, side, price, qty);
    MarginNonNegative(i, fill.position, before.leverage);
  }

  lemma SpotTradeSettles(db: Db, ev: Event, n: nat)
    requires ev.Traded? && Ready(db, ev) && HoldsExact(db, n) && InstrumentOf(db.market, ev.symbol).Spot?
    requires StateAfterTrade(db.orders[ev.buyOrder], ev.qty).Ok? && StateAfterTrade(db.orders[ev.sellOrder], ev.qty).Ok?
    requires ev.qty <= Unfilled(db.orders[ev.sellOrder])
    ensures SettleSpot(db, ev, db.orders[ev.buyOrder]).Ok?
  {
    var deal, cost, held := DealOf(db, ev), Cost(ev), db.orders[ev.buyOrder].holdPerUnit * ev.qty;
    assert 0 <= cost <= held;
    assert CashExactFor(db, n, ev.buyer) && CashExactFor(db, n, ev.seller);
    HoldsCover(db, ev, n, ev.buyer);
    HoldsCover(db, ev, n, ev.seller);
    SpotPurseAllowed(PurseOf(db.bank, ev.buyer), deal, cost, held, ev.buyer);
    SpotPurseAllowed(PurseOf(db.bank, ev.seller), deal, cost, held, ev.seller);
    SpotCashOk(db.bank, deal, cost, held);
    SharesMove(db, ev, n);
  }

  lemma LegsSettle(db: Db, ev: Event)
    requires ev.Traded? && Ready(db, ev) && PositionsAllowed(db.positions) && Sane(InstrumentOf(db.market, ev.symbol))
    ensures SettleLegs(db, ev, db.orders[ev.buyOrder], db.orders[ev.sellOrder]).Ok?
    ensures PositionsAllowed(SettleLegs(db, ev, db.orders[ev.buyOrder], db.orders[ev.sellOrder]).value.positions)
  {
    var i := InstrumentOf(db.market, ev.symbol);
    var buy, sell := db.orders[ev.buyOrder], db.orders[ev.sellOrder];
    LegSettles(db.positions, i, LegKey(i, ev.symbol, buy, ev.buyer), Buy, ev.price, ev.qty);
    var bought := SettleLeg(db.positions, i, LegKey(i, ev.symbol, buy, ev.buyer), Buy, ev.price, ev.qty).value.positions;
    LegSettles(bought, i, LegKey(i, ev.symbol, sell, ev.seller), Sell, ev.price, ev.qty);
  }

  lemma DerivativeTradeSettles(db: Db, ev: Event, n: nat)
    requires ev.Traded? && Ready(db, ev) && HoldsExact(db, n) && !InstrumentOf(db.market, ev.symbol).Spot?
    requires PositionsAllowed(db.positions)
    requires StateAfterTrade(db.orders[ev.buyOrder], ev.qty).Ok? && StateAfterTrade(db.orders[ev.sellOrder], ev.qty).Ok?
    ensures SettleDerivative(db, ev, db.orders[ev.buyOrder], db.orders[ev.sellOrder]).Ok?
  {
    var i := InstrumentOf(db.market, ev.symbol);
    var buy, sell := db.orders[ev.buyOrder], db.orders[ev.sellOrder];
    LegsSettle(db, ev);
    var terms := TermsOf(i, ev, SettleLegs(db, ev, buy, sell).value);
    var freed := FreedBy(ev, buy, sell);
    FreedCovers(i, ev, buy, sell, terms);
    assert CashExactFor(db, n, ev.buyer) && CashExactFor(db, n, ev.seller);
    HoldsCover(db, ev, n, ev.buyer);
    HoldsCover(db, ev, n, ev.seller);
    LegPurseAllowed(PurseOf(db.bank, ev.buyer), DealOf(db, ev), terms, freed, ev.buyer);
    LegPurseAllowed(PurseOf(db.bank, ev.seller), DealOf(db, ev), terms, freed, ev.seller);
    DerivativeCashOk(db.bank, DealOf(db, ev), terms, freed);
  }

  lemma FreedCovers(i: Instrument, ev: Event, buy: OrderRow, sell: OrderRow, terms: Terms)
    requires ev.Traded? && ev.qty > 0 && ev.price > 0 && buy.holdPerUnit >= 0 && sell.holdPerUnit >= 0 && Sane(i)
    requires terms.Premium? ==> terms.premium == Cost(ev) * UnitValue(i) && buy.holdPerUnit >= ev.price * UnitValue(i)
    ensures FreedBy(ev, buy, sell).buy >= 0 && FreedBy(ev, buy, sell).sell >= 0
    ensures terms.Premium? ==> 0 <= terms.premium <= FreedBy(ev, buy, sell).buy
  {
    MulMono(0, buy.holdPerUnit, ev.qty);
    MulMono(0, sell.holdPerUnit, ev.qty);
    if terms.Premium? {
      PremiumCovered(ev.price, UnitValue(i), ev.qty, buy.holdPerUnit);
    }
  }

  lemma PremiumCovered(price: int, unitValue: int, qty: int, held: int)
    requires price > 0 && unitValue >= 0 && qty > 0 && price * unitValue <= held
    ensures 0 <= price * qty * unitValue <= held * qty
  {
    MulMono(0, unitValue, price);
    MulMono(0, price * unitValue, qty);
    MulMono(price * unitValue, held, qty);
    assert price * qty * unitValue == price * unitValue * qty;
  }

  /** No late trade, no overfill, no broken check: a pending fill always settles. */
  lemma TradeSucceeds(db: Db, events: seq<Event>, k: nat, n: nat)
    requires Consistent(db, events) && HoldsExact(db, n)
    requires k < |events| && events[k].Traded? && IsPending(db, events[k])
    ensures Deliver(db, events[k]).Ok? && events[k].eventId in Deliver(db, events[k]).value.processed
  {
    var ev := events[k];
    assert Ready(db, ev);
    RowAccepts(db, events, k, ev.buyOrder);
    RowAccepts(db, events, k, ev.sellOrder);
    var claimed := Claim(db, ev.eventId);
    ClaimKeeps(db, ev, n);
    if InstrumentOf(db.market, ev.symbol).Spot? {
      SpotTradeSettles(claimed, ev, n);
    } else {
      DerivativeTradeSettles(claimed, ev, n);
    }
  }

  lemma ClaimKeeps(db: Db, ev: Event, n: nat)
    requires HoldsExact(db, n) && Ready(db, ev)
    ensures HoldsExact(Claim(db, ev.eventId), n) && Ready(Claim(db, ev.eventId), ev)
  {
    SameHolds(db, Claim(db, ev.eventId), n);
  }

  // ---------------------------------------------------------------- a close settles once its fills have

  lemma ReleaseSucceeds(db: Db, ev: Event, order: OrderRow, remaining: int, n: nat)
    requires ev.Ended? && ev.account in db.bank.accounts && order.account == ev.account && order.symbol == ev.symbol && order.side == ev.side
    requires PursesAllowed(db.bank) && HoldingsAllowed(db.holdings)
    requires order.holdPerUnit * remaining >= 0
    requires CashOf(order, db.market, ev.account) <= PurseOf(db.bank, ev.account).hold
    requires SharesOf(order, db.market, HoldingKey(ev.account, ev.symbol)) <= HoldQtyAt(db.holdings, HoldingKey(ev.account, ev.symbol))
    requires remaining == Unfilled(order)
    ensures ReleaseRest(db, ev, order, remaining).Ok? && ReleaseRest(db, ev, order, remaining).value.processed == db.processed
  {
  }

  lemma ReservedCovers(db: Db, ev: Event, n: nat)
    requires ev.Ended? && Ready(db, ev) && HoldsExact(db, n) && ev.orderId in db.orders
    ensures CashOf(db.orders[ev.orderId], db.market, ev.account) <= PurseOf(db.bank, ev.account).hold
    ensures
      var key := HoldingKey(ev.account, ev.symbol);
      SharesOf(db.orders[ev.orderId], db.market, key) <= HoldQtyAt(db.holdings, key)
  {
    assert CashExactFor(db, n, ev.account);
    HeldCovers(db, n, ev.account, ev.orderId);
    var key := HoldingKey(ev.account, ev.symbol);
    assert SharesExactFor(db, n, key);
    assert NonNegative(SharesHeld(db.orders, db.market, key), n);
    SumAtLeast(SharesHeld(db.orders, db.market, key), n, ev.orderId);
  }

  /** A close waits exactly while its order has fills to come. */
  lemma CloseWaitsIff(db: Db, events: seq<Event>, k: nat)
    requires Consistent(db, events) && k < |events| && events[k].Ended? && IsPending(db, events[k])
    requires events[k].orderId in db.orders
    ensures CloseMustWaitForTrades(db.orders[events[k].orderId], events[k].filledQty) <==> PendingQty(events, db.processed, events[k].orderId) != 0
  {
    var ev := events[k];
    assert CloseTells(db, events, ev) && FillsFit(db, events, ev.orderId);
    assert forall i :: 0 <= i < |events| ==> Ready(db, events[i]);
    PendingNonNegative(events, db.processed, ev.orderId);
    SumNonNegative(PendingFills(events, db.processed, ev.orderId), |events|);
  }

  lemma CloseApplies(db: Db, ev: Event, n: nat)
    requires ev.Ended? && Ready(db, ev) && IsPending(db, ev) && HoldsExact(db, n)
    requires ev.orderId in db.orders ==> !CloseMustWaitForTrades(db.orders[ev.orderId], ev.filledQty)
    ensures CloseOrder(db, ev).Ok? && ev.eventId in CloseOrder(db, ev).value.processed
  {
    if ev.orderId in db.orders && StateAfterClose(db.orders[ev.orderId], ev.filledQty, ev.status).Some? {
      var o := db.orders[ev.orderId];
      var next := StateAfterClose(o, ev.filledQty, ev.status).value;
      OrderEnds(o, ev.filledQty, ev.status);
      ReservedCovers(db, ev, n);
      assert o.holdPerUnit * Unfilled(o) >= 0;
      ReleaseSucceeds(Claim(db, ev.eventId).(orders := db.orders[ev.orderId := next]), ev, o, Unfilled(o), n);
    }
  }

  /** A pending close fails exactly while its order has fills to come, and only for that reason. */
  lemma CloseSucceedsIff(db: Db, events: seq<Event>, k: nat, n: nat)
    requires Consistent(db, events) && HoldsExact(db, n)
    requires k < |events| && events[k].Ended? && IsPending(db, events[k])
    ensures Deliver(db, events[k]).Ok? <==> PendingQty(events, db.processed, events[k].orderId) == 0 || events[k].orderId !in db.orders
    ensures Deliver(db, events[k]).Err? ==> Deliver(db, events[k]).error == CloseAhead
    ensures Deliver(db, events[k]).Ok? ==> events[k].eventId in Deliver(db, events[k]).value.processed
  {
    assert Ready(db, events[k]);
    if events[k].orderId in db.orders {
      CloseWaitsIff(db, events, k);
    }
    if events[k].orderId !in db.orders || PendingQty(events, db.processed, events[k].orderId) == 0 {
      CloseApplies(db, events[k], n);
    }
  }

  // ---------------------------------------------------------------- progress

  lemma PendingFill(events: seq<Event>, done: set<ClaimId>, o: OrderId) returns (k: nat)
    requires PendingQty(events, done, o) > 0
    ensures k < |events| && events[k].eventId !in done && Names(events[k], o)
  {
    SumZeroEverywhere(events, done, o, |events|);
    k :| k < |events| && PendingTerm(events, done, o, k) != 0;
  }

  lemma {:induction false} SumZeroEverywhere(events: seq<Event>, done: set<ClaimId>, o: OrderId, n: nat)
    requires n <= |events|
    ensures (forall i :: 0 <= i < n ==> PendingTerm(events, done, o, i) == 0) ==> Sum(PendingFills(events, done, o), n) == 0
  {
    if forall i :: 0 <= i < n ==> PendingTerm(events, done, o, i) == 0 {
      SumZero(PendingFills(events, done, o), n);
    }
  }

  /** As long as anything is pending, some pending event succeeds now. */
  lemma NeverWedges(db: Db, events: seq<Event>, k: nat, n: nat) returns (j: nat)
    requires Consistent(db, events) && HoldsExact(db, n)
    requires k < |events| && IsPending(db, events[k])
    ensures j < |events| && IsPending(db, events[j])
    ensures Deliver(db, events[j]).Ok? && events[j].eventId in Deliver(db, events[j]).value.processed
  {
    assert Ready(db, events[k]);
    if events[k].Traded? {
      j := k;
      TradeSucceeds(db, events, k, n);
    } else {
      CloseSucceedsIff(db, events, k, n);
      var o := events[k].orderId;
      if o in db.orders && PendingQty(events, db.processed, o) != 0 {
        assert forall i :: 0 <= i < |events| ==> Ready(db, events[i]);
        PendingNonNegative(events, db.processed, o);
        SumNonNegative(PendingFills(events, db.processed, o), |events|);
        j := PendingFill(events, db.processed, o);
        TradeSucceeds(db, events, j, n);
      } else {
        j := k;
      }
    }
  }
}
