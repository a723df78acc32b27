/**
 * Reservations are exact: in every reachable database an account's cash hold is
 * the sum of what its active orders still reserve, and a holding's share hold is
 * the unfilled total of its active spot sells.
 */
module SettlementHolds {
  import opened Common
  import opened Ledger
  import opened Fees
  import opened Futures
  import opened FuturesLaws
  import opened Bank
  import opened BankLaws
  import opened Sums
  import opened Settlement

  type Orders = map<OrderId, OrderRow>
  type Market = map<Symbol, Instrument>

  // ---------------------------------------------------------------- what orders reserve

  function Unfilled(o: OrderRow): int {
    if IsActive(o.status) then o.qty - o.filledQty else 0
  }

  function CashOf(o: OrderRow, market: Market, a: AccountId): int {
    if o.account == a && HoldsCash(InstrumentOf(market, o.symbol), o.side) then o.holdPerUnit * Unfilled(o) else 0
  }

  function SharesOf(o: OrderRow, market: Market, key: HoldingKey): int {
    if o.account == key.account && o.symbol == key.symbol && !HoldsCash(InstrumentOf(market, o.symbol), o.side) then Unfilled(o) else 0
  }

  function CashHeld(orders: Orders, market: Market, a: AccountId): int -> int {
    o => if o in orders then CashOf(orders[o], market, a) else 0
  }

  function SharesHeld(orders: Orders, market: Market, key: HoldingKey): int -> int {
    o => if o in orders then SharesOf(orders[o], market, key) else 0
  }

  predicate RowOk(o: OrderRow) {
    0 <= o.filledQty <= o.qty && o.holdPerUnit >= 0 && (IsActive(o.status) ==> o.filledQty < o.qty)
  }

  /** Every order id lies below `n`. */
  ghost predicate OrdersOk(orders: Orders, n: nat) {
    forall o :: o in orders ==> 0 <= o < n && RowOk(orders[o])
  }

  ghost predicate CashExactFor(db: Db, n: nat, a: AccountId) {
    PurseOf(db.bank, a).hold == Sum(CashHeld(db.orders, db.market, a), n)
  }

  ghost predicate CashExactAll(db: Db, n: nat) {
    forall a :: a in db.bank.accounts ==> CashExactFor(db, n, a)
  }

  function HoldQtyAt(holdings: Holdings, key: HoldingKey): int {
    if key in holdings then holdings[key].holdQty else 0
  }

  ghost predicate SharesExactFor(db: Db, n: nat, key: HoldingKey) {
    HoldQtyAt(db.holdings, key) == Sum(SharesHeld(db.orders, db.market, key), n)
  }

  ghost predicate SharesExactAll(db: Db, n: nat) {
    forall key :: SharesExactFor(db, n, key)
  }

  ghost predicate PursesAllowed(bank: Bank) {
    forall a :: a in bank.accounts ==> PurseAllowed(PurseOf(bank, a))
  }

  predicate HoldingsAllowed(holdings: Holdings) {
    forall key :: key in holdings ==> HoldingAllowed(holdings[key])
  }

  ghost predicate HoldsExact(db: Db, n: nat) {
    OrdersOk(db.orders, n) && CashExactAll(db, n) && SharesExactAll(db, n) &&
    PursesAllowed(db.bank) && HoldingsAllowed(db.holdings)
  }

  // ---------------------------------------------------------------- events that describe their orders

  predicate DescribesBuy(ev: Event, o: OrderRow)
    requires ev.Traded?
  {
    o.account == ev.buyer && o.symbol == ev.symbol && o.side == Buy
  }

  predicate DescribesSell(ev: Event, o: OrderRow)
    requires ev.Traded?
  {
    o.account == ev.seller && o.symbol == ev.symbol && o.side == Sell
  }

  /** An event names the account, symbol and side its orders were placed with. */
  predicate Describes(orders: Orders, ev: Event) {
    match ev
    case Traded(_, _, _, _, _, _, buyOrder, sellOrder, _) =>
      (buyOrder in orders ==> DescribesBuy(ev, orders[buyOrder])) && (sellOrder in orders ==> DescribesSell(ev, orders[sellOrder]))
    case Ended(_, symbol, orderId, account, side, _, _) =>
      orderId in orders ==>
        orders[orderId].account == account && orders[orderId].symbol == symbol && orders[orderId].side == side
  }

  // ---------------------------------------------------------------- what a settled trade changes

  /** The cash a fill takes out of its orders' reservations, by side; a spot sell reserves shares instead. */
  function FreedHold(db: Db, ev: Event): Released
    requires ev.Traded? && ev.buyOrder in db.orders && ev.sellOrder in db.orders
  {
    Released(db.orders[ev.buyOrder].holdPerUnit * ev.qty,
             if InstrumentOf(db.market, ev.symbol).Spot? then 0 else db.orders[ev.sellOrder].holdPerUnit * ev.qty)
  }

  predicate Applies(db: Db, ev: Event)
    requires ev.Traded? && WellFormed(ev)
  {
    ev.eventId !in db.processed && SettleTrade(db, ev).Ok?
  }

  /** Everything about the purses of a settled trade that later arguments need. */
  ghost predicate PursesSettled(bank: Bank, after: Bank, deal: Deal, freed: Released) {
    && SameAccounts(bank, after) && LedgerFollows(bank, after)
    && (forall c :: PurseOf(after, c).hold == PurseOf(bank, c).hold - OfSides(deal, c, freed.buy, freed.sell))
    && (forall c :: Party(deal, c) ==> PurseAllowed(PurseOf(after, c)))
    && (forall c :: !Party(deal, c) ==> PurseOf(after, c) == PurseOf(bank, c))
  }

  lemma SpotSettled(bank: Bank, deal: Deal, cost: int, held: int)
    requires deal.buyer in bank.accounts && deal.seller in bank.accounts && SpotCash(bank, deal, cost, held).Ok?
    ensures PursesSettled(bank, SpotCash(bank, deal, cost, held).value, deal, Released(held, 0))
  {
    SpotCashEffect(bank, deal, cost, held);
    forall c
      ensures SpotFinal(PurseOf(bank, c), deal, cost, held, c).hold == PurseOf(bank, c).hold - OfSides(deal, c, held, 0)
    {
      SpotMoves(PurseOf(bank, c), deal, cost, held, c);
    }
  }

  lemma DerivativeSettled(bank: Bank, deal: Deal, terms: Terms, freed: Released)
    requires deal.buyer in bank.accounts && deal.seller in bank.accounts && DerivativeCash(bank, deal, terms, freed).Ok?
    ensures PursesSettled(bank, DerivativeCash(bank, deal, terms, freed).value, deal, freed)
  {
    DerivativeCashEffect(bank, deal, terms, freed);
    forall c
      ensures DerivativeFinal(PurseOf(bank, c), deal, terms, freed, c).hold == PurseOf(bank, c).hold - OfSides(deal, c, freed.buy, freed.sell)
    {
      DerivativeMoves(PurseOf(bank, c), deal, terms, freed, c);
    }
  }

  lemma TradeSettlesPurses(db: Db, ev: Event)
    requires ev.Traded? && WellFormed(ev) && Applies(db, ev)
    ensures
      var after := SettleTrade(db, ev).value;
      && ev.buyOrder in db.orders && ev.sellOrder in db.orders
      && PursesSettled(db.bank, after.bank, DealOf(db, ev), FreedHold(db, ev))
  {
    var buy, sell := db.orders[ev.buyOrder], db.orders[ev.sellOrder];
    var claimed := Claim(db, ev.eventId);
    assert DealOf(claimed, ev) == DealOf(db, ev);
    var i := InstrumentOf(db.market, ev.symbol);
    if i.Spot? {
      SpotSettled(db.bank, DealOf(db, ev), Cost(ev), buy.holdPerUnit * ev.qty);
    } else {
      var legs := SettleLegs(claimed, ev, buy, sell).value;
      DerivativeSettled(db.bank, DealOf(db, ev), TermsOf(i, ev, legs), FreedBy(ev, buy, sell));
    }
  }

  /** Both rows advance by the fill, and no other row changes. */
  predicate RowsAdvance(orders: Orders, after: Orders, ev: Event)
    requires ev.Traded?
  {
    && ev.buyOrder in orders && ev.sellOrder in orders
    && StateAfterTrade(orders[ev.buyOrder], ev.qty).Ok? && StateAfterTrade(orders[ev.sellOrder], ev.qty).Ok?
    && after == orders[ev.buyOrder := StateAfterTrade(orders[ev.buyOrder], ev.qty).value]
                      [ev.sellOrder := StateAfterTrade(orders[ev.sellOrder], ev.qty).value]
  }

  lemma TradeSettlesRows(db: Db, ev: Event)
    requires ev.Traded? && WellFormed(ev) && Applies(db, ev)
    ensures
      var after := SettleTrade(db, ev).value;
      && RowsAdvance(db.orders, after.orders, ev)
      && after.market == db.market && after.bots == db.bots && after.processed == db.processed + {ev.eventId}
  {
  }

  lemma TradeSettlesShares(db: Db, ev: Event)
    requires ev.Traded? && WellFormed(ev) && Applies(db, ev)
    ensures
      var after := SettleTrade(db, ev).value;
      if InstrumentOf(db.market, ev.symbol).Spot? then
        var buyer, seller := HoldingKey(ev.buyer, ev.symbol), HoldingKey(ev.seller, ev.symbol);
        && MoveShares(db.holdings, buyer, seller, ev.qty, Cost(ev)).Ok?
        && after.holdings == MoveShares(db.holdings, buyer, seller, ev.qty, Cost(ev)).value.holdings
      else after.holdings == db.holdings
  {
  }

  // ---------------------------------------------------------------- trades keep reservations exact

  lemma RowAdvances(o: OrderRow, qty: int)
    requires RowOk(o) && qty > 0 && StateAfterTrade(o, qty).Ok?
    ensures
      var next := StateAfterTrade(o, qty).value;
      && RowOk(next) && Unfilled(next) == Unfilled(o) - qty && Unfilled(next) >= 0
      && next.account == o.account && next.symbol == o.symbol && next.side == o.side && next.holdPerUnit == o.holdPerUnit
  {
  }

  function UsedCash(o: OrderRow, market: Market, a: AccountId, qty: int): int {
    if o.account == a && HoldsCash(InstrumentOf(market, o.symbol), o.side) then o.holdPerUnit * qty else 0
  }

  function UsedShares(o: OrderRow, market: Market, key: HoldingKey, qty: int): int {
    if o.account == key.account && o.symbol == key.symbol && !HoldsCash(InstrumentOf(market, o.symbol), o.side) then qty else 0
  }

  lemma RowUses(o: OrderRow, market: Market, qty: int, a: AccountId, key: HoldingKey)
    requires RowOk(o) && qty > 0 && StateAfterTrade(o, qty).Ok?
    ensures CashOf(StateAfterTrade(o, qty).value, market, a) == CashOf(o, market, a) - UsedCash(o, market, a, qty)
    ensures SharesOf(StateAfterTrade(o, qty).value, market, key) == SharesOf(o, market, key) - UsedShares(o, market, key, qty)
  {
    RowAdvances(o, qty);
    var u := Unfilled(o);
    assert o.holdPerUnit * (u - qty) == o.holdPerUnit * u - o.holdPerUnit * qty;
  }

  /** Two orders advanced by one fill: every reservation total drops by what the fill uses. */
  lemma TotalsAdvance(orders: Orders, market: Market, b: OrderId, s: OrderId, qty: int, n: nat, a: AccountId, key: HoldingKey)
    requires OrdersOk(orders, n) && b in orders && s in orders && b != s && qty > 0
    requires StateAfterTrade(orders[b], qty).Ok? && StateAfterTrade(orders[s], qty).Ok?
    ensures
      var after := orders[b := StateAfterTrade(orders[b], qty).value][s := StateAfterTrade(orders[s], qty).value];
      && Sum(CashHeld(after, market, a), n) ==
         Sum(CashHeld(orders, market, a), n) - UsedCash(orders[b], market, a, qty) - UsedCash(orders[s], market, a, qty)
      && Sum(SharesHeld(after, market, key), n) ==
         Sum(SharesHeld(orders, market, key), n) - UsedShares(orders[b], market, key, qty) - UsedShares(orders[s], market, key, qty)
  {
    var after := orders[b := StateAfterTrade(orders[b], qty).value][s := StateAfterTrade(orders[s], qty).value];
    RowUses(orders[b], market, qty, a, key);
    RowUses(orders[s], market, qty, a, key);
    SumChangeTwo(CashHeld(orders, market, a), CashHeld(after, market, a), n, b, s);
    SumChangeTwo(SharesHeld(orders, market, key), SharesHeld(after, market, key), n, b, s);
  }

  lemma OrdersAdvance(orders: Orders, b: OrderId, s: OrderId, qty: int, n: nat)
    requires OrdersOk(orders, n) && b in orders && s in orders && qty > 0
    requires StateAfterTrade(orders[b], qty).Ok? && StateAfterTrade(orders[s], qty).Ok?
    ensures OrdersOk(orders[b := StateAfterTrade(orders[b], qty).value][s := StateAfterTrade(orders[s], qty).value], n)
  {
    RowAdvances(orders[b], qty);
    RowAdvances(orders[s], qty);
  }

  /** The fill's use of reservations, seen from the orders, is its use seen from the accounts. */
  lemma UsesAgree(db: Db, ev: Event, a: AccountId)
    requires ev.Traded? && ev.buyOrder in db.orders && ev.sellOrder in db.orders && Describes(db.orders, ev)
    ensures
      OfSides(DealOf(db, ev), a, FreedHold(db, ev).buy, FreedHold(db, ev).sell) ==
      UsedCash(db.orders[ev.buyOrder], db.market, a, ev.qty) + UsedCash(db.orders[ev.sellOrder], db.market, a, ev.qty)
  {
  }

  lemma TradeKeepsCash(db: Db, ev: Event, n: nat)
    requires ev.Traded? && WellFormed(ev) && Applies(db, ev) && Describes(db.orders, ev)
    requires OrdersOk(db.orders, n) && CashExactAll(db, n) && PursesAllowed(db.bank)
    ensures
      var after := SettleTrade(db, ev).value;
      OrdersOk(after.orders, n) && CashExactAll(after, n) && PursesAllowed(after.bank)
  {
    var after := SettleTrade(db, ev).value;
    TradeSettlesRows(db, ev);
    TradeSettlesPurses(db, ev);
    OrdersAdvance(db.orders, ev.buyOrder, ev.sellOrder, ev.qty, n);
    forall a | a in after.bank.accounts
      ensures CashExactFor(after, n, a)
    {
      assert CashExactFor(db, n, a);
      TotalsAdvance(db.orders, db.market, ev.buyOrder, ev.sellOrder, ev.qty, n, a, HoldingKey(a, ev.symbol));
      UsesAgree(db, ev, a);
    }
    PursesStayAllowed(db.bank, after.bank, DealOf(db, ev), FreedHold(db, ev));
  }

  lemma PursesStayAllowed(bank: Bank, after: Bank, deal: Deal, freed: Released)
    requires PursesAllowed(bank) && PursesSettled(bank, after, deal, freed)
    ensures PursesAllowed(after)
  {
  }

  /** Shares move from the seller's hold to the buyer's free holding. */
  lemma MovedHolds(holdings: Holdings, buyer: HoldingKey, seller: HoldingKey, qty: int, cost: int, key: HoldingKey)
    requires qty > 0 && HoldingsAllowed(holdings) && MoveShares(holdings, buyer, seller, qty, cost).Ok?
    ensures
      var after := MoveShares(holdings, buyer, seller, qty, cost).value.holdings;
      && HoldingsAllowed(after)
      && HoldQtyAt(after, key) == HoldQtyAt(holdings, key) - (if key == seller then qty else 0)
  {
  }

  lemma TradeMovesShares(db: Db, ev: Event, key: HoldingKey)
    requires ev.Traded? && WellFormed(ev) && Applies(db, ev) && Describes(db.orders, ev) && HoldingsAllowed(db.holdings)
    requires ev.buyOrder in db.orders && ev.sellOrder in db.orders
    ensures
      var after := SettleTrade(db, ev).value;
      && HoldingsAllowed(after.holdings)
      && HoldQtyAt(after.holdings, key) == HoldQtyAt(db.holdings, key) -
         UsedShares(db.orders[ev.buyOrder], db.market, key, ev.qty) - UsedShares(db.orders[ev.sellOrder], db.market, key, ev.qty)
  {
    TradeSettlesShares(db, ev);
    if InstrumentOf(db.market, ev.symbol).Spot? {
      MovedHolds(db.holdings, HoldingKey(ev.buyer, ev.symbol), HoldingKey(ev.seller, ev.symbol), ev.qty, Cost(ev), key);
    }
  }

  lemma TradeKeepsShares(db: Db, ev: Event, n: nat)
    requires ev.Traded? && WellFormed(ev) && Applies(db, ev) && Describes(db.orders, ev)
    requires OrdersOk(db.orders, n) && SharesExactAll(db, n) && HoldingsAllowed(db.holdings)
    ensures
      var after := SettleTrade(db, ev).value;
      SharesExactAll(after, n) && HoldingsAllowed(after.holdings)
  {
    var after := SettleTrade(db, ev).value;
    TradeSettlesRows(db, ev);
    TradeMovesShares(db, ev, HoldingKey(ev.buyer, ev.symbol));
    forall key
      ensures SharesExactFor(after, n, key)
    {
      assert SharesExactFor(db, n, key);
      TotalsAdvance(db.orders, db.market, ev.buyOrder, ev.sellOrder, ev.qty, n, key.account, key);
      TradeMovesShares(db, ev, key);
    }
  }

  // ---------------------------------------------------------------- closes keep reservations exact

  lemma OrderEnds(o: OrderRow, filledQty: int, status: Status)
    requires RowOk(o) && IsTerminal(status) && !CloseMustWaitForTrades(o, filledQty) && StateAfterClose(o, filledQty, status).Some?
    ensures
      var next := StateAfterClose(o, filledQty, status).value;
      && RowOk(next) && Unfilled(next) == 0 && o.qty - next.filledQty == Unfilled(o) && IsActive(o.status)
      && next.account == o.account && next.symbol == o.symbol && next.side == o.side && next.holdPerUnit == o.holdPerUnit
  {
  }

  lemma TotalsEnd(orders: Orders, market: Market, id: OrderId, next: OrderRow, n: nat, a: AccountId, key: HoldingKey)
    requires OrdersOk(orders, n) && id in orders && Unfilled(next) == 0
    ensures Sum(CashHeld(orders[id := next], market, a), n) == Sum(CashHeld(orders, market, a), n) - CashOf(orders[id], market, a)
    ensures Sum(SharesHeld(orders[id := next], market, key), n) == Sum(SharesHeld(orders, market, key), n) - SharesOf(orders[id], market, key)
  {
    SumChange(CashHeld(orders, market, a), CashHeld(orders[id := next], market, a), n, id);
    SumChange(SharesHeld(orders, market, key), SharesHeld(orders[id := next], market, key), n, id);
  }

  /** A close that takes effect ends an active order and releases exactly what the order still reserved. */
  lemma CloseEffect(db: Db, ev: Event)
    requires ev.Ended? && WellFormed(ev) && CloseOrder(db, ev).Ok? && ev.eventId !in db.processed
    requires ev.orderId in db.orders && Describes(db.orders, ev) && RowOk(db.orders[ev.orderId])
    requires StateAfterClose(db.orders[ev.orderId], ev.filledQty, ev.status).Some?
    ensures
      var after := CloseOrder(db, ev).value;
      var o := db.orders[ev.orderId];
      var next := StateAfterClose(o, ev.filledQty, ev.status).value;
      && after.orders == db.orders[ev.orderId := next] && after.market == db.market
      && SameAccounts(db.bank, after.bank) && after.bank.ledger == db.bank.ledger
      && (forall c :: PurseOf(after.bank, c) ==
            PurseOf(db.bank, c).(hold := PurseOf(db.bank, c).hold - CashOf(o, db.market, c)))
      && (PurseOf(after.bank, ev.account) == PurseOf(db.bank, ev.account) || PurseAllowed(PurseOf(after.bank, ev.account)))
      && (forall key :: HoldQtyAt(after.holdings, key) == HoldQtyAt(db.holdings, key) - SharesOf(o, db.market, key))
      && (HoldingsAllowed(db.holdings) ==> HoldingsAllowed(after.holdings))
  {
    var o := db.orders[ev.orderId];
    OrderEnds(o, ev.filledQty, ev.status);
    var remaining := Unfilled(o);
    assert remaining > 0;
    assert o.holdPerUnit * remaining >= 0;
    if HoldsCash(InstrumentOf(db.market, o.symbol), o.side) && o.holdPerUnit * remaining > 0 {
      var p := PurseOf(db.bank, ev.account);
      WithPurseEffect(db.bank, ev.account, p.(hold := p.hold - o.holdPerUnit * remaining));
    }
  }

  lemma CloseKeepsHolds(db: Db, ev: Event, n: nat)
    requires ev.Ended? && WellFormed(ev) && CloseOrder(db, ev).Ok? && Describes(db.orders, ev) && HoldsExact(db, n)
    ensures HoldsExact(CloseOrder(db, ev).value, n)
  {
    var after := CloseOrder(db, ev).value;
    if ev.eventId !in db.processed && ev.orderId in db.orders && StateAfterClose(db.orders[ev.orderId], ev.filledQty, ev.status).Some? {
      var o := db.orders[ev.orderId];
      var next := StateAfterClose(o, ev.filledQty, ev.status).value;
      CloseEffect(db, ev);
      OrderEnds(o, ev.filledQty, ev.status);
      forall a | a in after.bank.accounts
        ensures CashExactFor(after, n, a)
      {
        assert CashExactFor(db, n, a);
        TotalsEnd(db.orders, db.market, ev.orderId, next, n, a, HoldingKey(a, ev.symbol));
      }
      forall key
        ensures SharesExactFor(after, n, key)
      {
        assert SharesExactFor(db, n, key);
        TotalsEnd(db.orders, db.market, ev.orderId, next, n, key.account, key);
      }
    } else {
      SameHolds(db, after, n);
    }
  }

  lemma SameHolds(db: Db, after: Db, n: nat)
    requires HoldsExact(db, n) && after.bank == db.bank && after.holdings == db.holdings
    requires after.orders == db.orders && after.market == db.market
    ensures HoldsExact(after, n)
  {
    forall a | a in after.bank.accounts
      ensures CashExactFor(after, n, a)
    {
      assert CashExactFor(db, n, a);
    }
    forall key
      ensures SharesExactFor(after, n, key)
    {
      assert SharesExactFor(db, n, key);
    }
  }

  /** Whatever is delivered, whether it applies, repeats or fails, reservations stay exact. */
  lemma DeliverKeepsHolds(db: Db, ev: Event, n: nat)
    requires WellFormed(ev) && Deliver(db, ev).Ok? && Describes(db.orders, ev) && HoldsExact(db, n)
    ensures HoldsExact(Deliver(db, ev).value, n)
  {
    if ev.Ended? {
      CloseKeepsHolds(db, ev, n);
    } else if ev.eventId !in db.processed {
      TradeKeepsCash(db, ev, n);
      TradeKeepsShares(db, ev, n);
    }
  }
}
