/**
 * Derivatives are zero-sum to the won: over any run of fills and daily
 * settlements of one contract that starts and ends flat, profit and loss over
 * all accounts sum to what hedge overflow leaves unpaired, which is nothing
 * when no close overflows, and total equity falls by exactly the fees.
 */
module ZeroSum {
  import opened Common
  import opened Futures
  import opened FuturesLaws
  import opened Bank
  import opened BankLaws
  import opened Sums
  import opened Settlement
  import opened SettlementHolds
  import opened SettlementProgress
  import opened SettlementFunding
  import opened DailySettlement
  import opened ContractBooks

  // ---------------------------------------------------------------- wealth

  /** Balance minus debt, account by account; their sum is the wealth of the accounts below a bound. */
  function EquityTerms(bank: Bank): int -> int {
    a => Equity(PurseOf(bank, a))
  }

  ghost predicate Gains(bank: Bank, after: Bank, deal: Deal, buy: int, sell: int) {
    GainsOf(EquityTerms(bank), EquityTerms(after), deal, buy, sell)
  }

  ghost predicate GainsOf(f: int -> int, g: int -> int, deal: Deal, buy: int, sell: int) {
    forall c :: g(c) == f(c) + OfSides(deal, c, buy, sell)
  }

  lemma SumGains(f: int -> int, g: int -> int, deal: Deal, buy: int, sell: int, m: nat)
    requires 0 <= deal.buyer < m && 0 <= deal.seller < m && GainsOf(f, g, deal, buy, sell)
    ensures Sum(g, m) == Sum(f, m) + buy + sell
  {
    if deal.buyer == deal.seller {
      SumChange(f, g, m, deal.buyer);
    } else {
      SumChangeTwo(f, g, m, deal.buyer, deal.seller);
    }
  }

  lemma OtherTerms(bank: Bank, after: Bank, a: AccountId, m: nat)
    requires OthersKeep(bank, after, a)
    ensures AgreeExcept(EquityTerms(bank), EquityTerms(after), m, a)
  {
  }

  lemma WealthOfOne(bank: Bank, after: Bank, a: AccountId, m: nat)
    requires 0 <= a < m && AgreeExcept(EquityTerms(bank), EquityTerms(after), m, a)
    ensures Sum(EquityTerms(after), m) == Sum(EquityTerms(bank), m) + EquityTerms(after)(a) - EquityTerms(bank)(a)
  {
    SumChange(EquityTerms(bank), EquityTerms(after), m, a);
  }

  function BuyerFee(deal: Deal): int {
    if deal.buyer in deal.exempt then 0 else deal.fee
  }

  function SellerFee(deal: Deal): int {
    if deal.seller in deal.exempt then 0 else deal.fee
  }

  function TermsBuy(terms: Terms): int {
    match terms case Profit(buy, _) => buy case Premium(premium) => -premium
  }

  function TermsSell(terms: Terms): int {
    match terms case Profit(_, sell) => sell case Premium(premium) => premium
  }

  lemma DerivativeGain(p: Purse, deal: Deal, terms: Terms, freed: Released, c: AccountId)
    ensures Equity(DerivativeFinal(p, deal, terms, freed, c)) ==
            Equity(p) + OfSides(deal, c, TermsBuy(terms) - BuyerFee(deal), TermsSell(terms) - SellerFee(deal))
  {
    DerivativeMoves(p, deal, terms, freed, c);
    DueOf(deal, c);
  }

  lemma DerivativeGains(bank: Bank, deal: Deal, terms: Terms, freed: Released)
    requires deal.buyer in bank.accounts && deal.seller in bank.accounts && DerivativeCash(bank, deal, terms, freed).Ok?
    ensures Gains(bank, DerivativeCash(bank, deal, terms, freed).value, deal, TermsBuy(terms) - BuyerFee(deal), TermsSell(terms) - SellerFee(deal))
  {
    var after := DerivativeCash(bank, deal, terms, freed).value;
    DerivativeCashEffect(bank, deal, terms, freed);
    forall c
      ensures EquityTerms(after)(c) ==
              EquityTerms(bank)(c) + OfSides(deal, c, TermsBuy(terms) - BuyerFee(deal), TermsSell(terms) - SellerFee(deal))
    {
      assert PurseOf(after, c) == DerivativeFinal(PurseOf(bank, c), deal, terms, freed, c);
      DerivativeGain(PurseOf(bank, c), deal, terms, freed, c);
    }
  }

  // ---------------------------------------------------------------- one fill of a contract

  predicate IsContract(db: Db, s: Symbol) {
    !InstrumentOf(db.market, s).Spot?
  }

  /** What one fill or settlement changes, in totals and for one account. */
  datatype Change = Change(entry: int, qty: int, realized: int, wealth: int, entryOf: int, realizedBy: int, equityOf: int)

  ghost predicate Changes(db: Db, after: Db, s: Symbol, m: nat, a: AccountId, ch: Change) {
    && Entries(after.positions, s, m) == Entries(db.positions, s, m) + ch.entry
    && Contracts(after.positions, s, m) == Contracts(db.positions, s, m) + ch.qty
    && RealizedOn(after.realized, s) == RealizedOn(db.realized, s) + ch.realized
    && Sum(EquityTerms(after.bank), m) == Sum(EquityTerms(db.bank), m) + ch.wealth
    && EntryOf(after.positions, s, a) == EntryOf(db.positions, s, a) + ch.entryOf
    && RealizedBy(after.realized, s, a) == RealizedBy(db.realized, s, a) + ch.realizedBy
    && EquityTerms(after.bank)(a) == EquityTerms(db.bank)(a) + ch.equityOf
  }

  function FillChange(db: Db, ev: Event, a: AccountId): Change
    requires ev.Traded? && ev.qty > 0 && ev.buyOrder in db.orders && ev.sellOrder in db.orders
  {
    var buy, sell, deal := BuyMove(db, ev), SellMove(db, ev), DealOf(db, ev);
    var i := InstrumentOf(db.market, ev.symbol);
    var terms := if i.Future? then Profit(buy.realized, sell.realized) else Premium(Cost(ev) * UnitValue(i));
    Change(buy.entry + sell.entry, buy.qty + sell.qty, buy.realized + sell.realized,
           TermsBuy(terms) + TermsSell(terms) - BuyerFee(deal) - SellerFee(deal),
           OfSides(deal, a, buy.entry, sell.entry), OfSides(deal, a, buy.realized, sell.realized),
           OfSides(deal, a, TermsBuy(terms) - BuyerFee(deal), TermsSell(terms) - SellerFee(deal)))
  }

  lemma FillParts(db: Db, ev: Event)
    requires ev.Traded? && WellFormed(ev) && Applies(db, ev) && IsContract(db, ev.symbol)
    ensures ev.buyOrder in db.orders && ev.sellOrder in db.orders && ev.buyer in db.bank.accounts && ev.seller in db.bank.accounts
    ensures
      var after, buy, sell, i := SettleTrade(db, ev).value, db.orders[ev.buyOrder], db.orders[ev.sellOrder], InstrumentOf(db.market, ev.symbol);
      var legs := SettleLegs(db, ev, buy, sell);
      && legs.Ok? && after.positions == legs.value.positions
      && after.realized == db.realized + RealizedRows(LegKey(i, ev.symbol, buy, ev.buyer), ev, legs.value.buy) +
           RealizedRows(LegKey(i, ev.symbol, sell, ev.seller), ev, legs.value.sell)
      && var paid := DerivativeCash(db.bank, DealOf(db, ev), TermsOf(i, ev, legs.value), FreedBy(ev, buy, sell));
         paid.Ok? && after.bank == paid.value
  {
    var claimed := Claim(db, ev.eventId);
    assert DealOf(claimed, ev) == DealOf(db, ev);
    assert SettleLegs(claimed, ev, db.orders[ev.buyOrder], db.orders[ev.sellOrder]) == SettleLegs(db, ev, db.orders[ev.buyOrder], db.orders[ev.sellOrder]);
  }

  lemma LegsQuiet(db: Db, ev: Event)
    requires ev.Traded? && ev.qty > 0 && ev.buyOrder in db.orders && ev.sellOrder in db.orders
    requires SettleLegs(db, ev, db.orders[ev.buyOrder], db.orders[ev.sellOrder]).Ok?
    ensures
      var legs := SettleLegs(db, ev, db.orders[ev.buyOrder], db.orders[ev.sellOrder]).value;
      && (legs.buy.closedQty == 0 ==> legs.buy.realized == 0) && (legs.sell.closedQty == 0 ==> legs.sell.realized == 0)
  {
    var i := InstrumentOf(db.market, ev.symbol);
    var buyKey := LegKey(i, ev.symbol, db.orders[ev.buyOrder], ev.buyer);
    var sellKey := LegKey(i, ev.symbol, db.orders[ev.sellOrder], ev.seller);
    if LegResultOf(db.positions, i, buyKey, Buy, ev).closedQty == 0 {
      NothingClosedNothingRealized(UnitValue(i), PositionAt(db.positions, buyKey).position, buyKey.row, Buy, ev.price, ev.qty);
    }
    if LegResultOf(MidPositions(db, ev), i, sellKey, Sell, ev).closedQty == 0 {
      NothingClosedNothingRealized(UnitValue(i), PositionAt(MidPositions(db, ev), sellKey).position, sellKey.row, Sell, ev.price, ev.qty);
    }
  }

  function LegResultOf(positions: Positions, i: Instrument, key: PositionKey, side: Side, ev: Event): FillResult
    requires ev.Traded? && ev.qty > 0
  {
    ApplyFill(UnitValue(i), PositionAt(positions, key).position, key.row, side, ev.price, ev.qty)
  }

  lemma FillChanges(db: Db, ev: Event, m: nat, a: AccountId)
    requires ev.Traded? && WellFormed(ev) && Applies(db, ev) && IsContract(db, ev.symbol)
    requires PositionsAllowed(db.positions) && 0 <= ev.buyer < m && 0 <= ev.seller < m
    ensures ev.buyOrder in db.orders && ev.sellOrder in db.orders
    ensures Changes(db, SettleTrade(db, ev).value, ev.symbol, m, a, FillChange(db, ev, a))
    ensures PositionsAllowed(SettleTrade(db, ev).value.positions)
  {
    FillParts(db, ev);
    var buy, sell, i := db.orders[ev.buyOrder], db.orders[ev.sellOrder], InstrumentOf(db.market, ev.symbol);
    LegsBooks(db, ev, m, a);
    LegsQuiet(db, ev);
    var legs := SettleLegs(db, ev, buy, sell).value;
    RealizedByLegs(db.realized, ev, LegKey(i, ev.symbol, buy, ev.buyer), LegKey(i, ev.symbol, sell, ev.seller), legs, a);
    var terms, deal := TermsOf(i, ev, legs), DealOf(db, ev);
    BankChanges(db.bank, deal, terms, FreedBy(ev, buy, sell), m, a);
  }

  lemma BankChanges(bank: Bank, deal: Deal, terms: Terms, freed: Released, m: nat, a: AccountId)
    requires deal.buyer in bank.accounts && deal.seller in bank.accounts && DerivativeCash(bank, deal, terms, freed).Ok?
    requires 0 <= deal.buyer < m && 0 <= deal.seller < m
    ensures
      var after := DerivativeCash(bank, deal, terms, freed).value;
      var buy, sell := TermsBuy(terms) - BuyerFee(deal), TermsSell(terms) - SellerFee(deal);
      && Sum(EquityTerms(after), m) == Sum(EquityTerms(bank), m) + buy + sell
      && EquityTerms(after)(a) == EquityTerms(bank)(a) + OfSides(deal, a, buy, sell)
  {
    var after := DerivativeCash(bank, deal, terms, freed).value;
    DerivativeGains(bank, deal, terms, freed);
    SumGains(EquityTerms(bank), EquityTerms(after), deal, TermsBuy(terms) - BuyerFee(deal), TermsSell(terms) - SellerFee(deal), m);
  }

  // ---------------------------------------------------------------- one daily settlement of a contract

  function ExpiryChange(db: Db, s: Symbol, price: int, account: AccountId, row: RowSide, a: AccountId): Change {
    var p := PosAt(db.positions, s, account, row);
    if p.qty == 0 then Change(0, 0, 0, 0, 0, 0, 0)
    else
      var realized := FinalFill(UnitValue(InstrumentOf(db.market, s)), p, price).realized;
      var paid := Payoff(InstrumentOf(db.market, s), p, price);
      Change(-SignedEntry(p), -p.qty, realized, paid, if a == account then -SignedEntry(p) else 0,
             if a == account then realized else 0, if a == account then paid else 0)
  }

  lemma ExpiryBooks(db: Db, after: Db, s: Symbol, price: int, account: AccountId, row: RowSide, m: nat, a: AccountId)
    requires 0 <= account < m && Settled(db, after, s, price, account, row)
    ensures
      var ch := ExpiryChange(db, s, price, account, row, a);
      && Entries(after.positions, s, m) == Entries(db.positions, s, m) + ch.entry
      && Contracts(after.positions, s, m) == Contracts(db.positions, s, m) + ch.qty
      && EntryOf(after.positions, s, a) == EntryOf(db.positions, s, a) + ch.entryOf
  {
    var key := PositionKey(account, s, row);
    SetTotals(db.positions, key, after.positions[key], m);
    SetPosition(db.positions, key, after.positions[key], a);
  }

  lemma ExpiryWealth(db: Db, after: Db, s: Symbol, price: int, account: AccountId, row: RowSide, m: nat, a: AccountId)
    requires 0 <= account < m && Settled(db, after, s, price, account, row)
    ensures
      var ch := ExpiryChange(db, s, price, account, row, a);
      Sum(EquityTerms(after.bank), m) == Sum(EquityTerms(db.bank), m) + ch.wealth && EquityTerms(after.bank)(a) == EquityTerms(db.bank)(a) + ch.equityOf
  {
    OtherTerms(db.bank, after.bank, account, m);
    WealthOfOne(db.bank, after.bank, account, m);
    OtherTerms(db.bank, after.bank, account, if a >= 0 then a + 1 else 0);
    assert a != account ==> PurseOf(after.bank, a) == PurseOf(db.bank, a);
  }

  lemma ExpiryChanges(db: Db, s: Symbol, day: int, price: int, account: AccountId, row: RowSide, m: nat, a: AccountId)
    requires 0 <= account < m && account in db.bank.accounts && PursesAllowed(db.bank)
    requires SettlePosition(db, s, day, price, account, row).value.realized.Some?
    ensures Changes(db, SettlePosition(db, s, day, price, account, row).value.db, s, m, a, ExpiryChange(db, s, price, account, row, a))
  {
    SettlePositionEffect(db, s, day, price, account, row);
    var after := SettlePosition(db, s, day, price, account, row).value.db;
    ExpiryBooks(db, after, s, price, account, row, m, a);
    ExpiryWealth(db, after, s, price, account, row, m, a);
    var p := PosAt(db.positions, s, account, row);
    var fill := FinalFill(UnitValue(InstrumentOf(db.market, s)), p, price);
    RealizedMore(db.realized, RealizedRow(account, s, Daily(s, day, account, row), fill.closedQty, price, fill.realized), s, a);
  }

  lemma ExpiryPriced(db: Db, s: Symbol, price: int, account: AccountId, row: RowSide, a: AccountId)
    requires PositionsAllowed(db.positions) && price >= 0
    ensures
      var ch := ExpiryChange(db, s, price, account, row, a);
      ch.realized == (ch.entry - ch.qty * price) * UnitValue(InstrumentOf(db.market, s))
  {
    var p := PosAt(db.positions, s, account, row);
    assert PositionAllowed(row, PositionAt(db.positions, PositionKey(account, s, row)));
    if p.qty != 0 {
      FillExact(UnitValue(InstrumentOf(db.market, s)), p, CloseSide(p), price, Abs(p.qty));
    }
  }
}
