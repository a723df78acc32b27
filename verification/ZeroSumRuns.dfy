/** The zero-sum law over whole runs of fills and daily settlements of one contract. */
module ZeroSumRuns {
  import opened Arithmetic
  import opened Common
  import opened Futures
  import opened FuturesLaws
  import opened Bank
  import opened BankLaws
  import opened Sums
  import opened Settlement
  import opened SettlementHolds
  import opened SettlementProgress
  import opened DailySettlement
  import opened ContractBooks
  import opened ZeroSum

  /** One contract on one day: every position closes at the one settlement price. */
  datatype Contract = Contract(symbol: Symbol, day: int, price: int, accounts: nat)

  datatype Step = Fill(event: Event) | Expire(account: AccountId, row: RowSide)

  /** Fills apply once, on this contract; settlements name accounts that exist. */
  predicate StepOk(db: Db, k: Contract, step: Step) {
    match step
    case Fill(ev) =>
      && ev.Traded? && WellFormed(ev) && ev.symbol == k.symbol && Applies(db, ev)
      && 0 <= ev.buyer < k.accounts && 0 <= ev.seller < k.accounts
    case Expire(account, row) => account in db.bank.accounts && 0 <= account < k.accounts
  }

  ghost predicate Sound(db: Db, k: Contract) {
    IsContract(db, k.symbol) && PositionsAllowed(db.positions) && PursesAllowed(db.bank) && k.price >= 0
  }

  function Next(db: Db, k: Contract, step: Step): Db
    requires StepOk(db, k, step)
  {
    match step
    case Fill(ev) => SettleTrade(db, ev).value
    case Expire(account, row) =>
      var r := SettlePosition(db, k.symbol, k.day, k.price, account, row);
      if r.Ok? then r.value.db else db
  }

  ghost predicate Runs(db: Db, k: Contract, steps: seq<Step>)
    decreases steps
  {
    steps == [] || (StepOk(db, k, steps[0]) && Runs(Next(db, k, steps[0]), k, steps[1..]))
  }

  ghost function After(db: Db, k: Contract, steps: seq<Step>): Db
    requires Runs(db, k, steps)
    decreases steps
  {
    if steps == [] then db else After(Next(db, k, steps[0]), k, steps[1..])
  }

  // ---------------------------------------------------------------- tallies

  /** A change together with the fees it paid, in all and by one account, and what overflow left unpaired. */
  datatype Tally = Tally(change: Change, fees: int, feesOf: int, unpaired: int)

  const NOTHING := Change(0, 0, 0, 0, 0, 0, 0)

  function Plus(x: Change, y: Change): Change {
    Change(x.entry + y.entry, x.qty + y.qty, x.realized + y.realized, x.wealth + y.wealth,
           x.entryOf + y.entryOf, x.realizedBy + y.realizedBy, x.equityOf + y.equityOf)
  }

  /** `unpaired` prices the contracts that found no counterpart at how far the fill was from settlement. */
  function FillTally(db: Db, ev: Event, price: int, a: AccountId): Tally
    requires ev.Traded? && ev.qty > 0 && ev.buyOrder in db.orders && ev.sellOrder in db.orders
  {
    var deal := DealOf(db, ev);
    var ch := FillChange(db, ev, a);
    Tally(ch, BuyerFee(deal) + SellerFee(deal), OfSides(deal, a, BuyerFee(deal), SellerFee(deal)), ch.qty * (price - ev.price))
  }

  function StepTally(db: Db, k: Contract, step: Step, a: AccountId): Tally
    requires StepOk(db, k, step)
  {
    match step
    case Fill(ev) => FillTally(db, ev, k.price, a)
    case Expire(account, row) =>
      var r := SettlePosition(db, k.symbol, k.day, k.price, account, row);
      Tally(if r.Ok? && r.value.realized.Some? then ExpiryChange(db, k.symbol, k.price, account, row, a) else NOTHING, 0, 0, 0)
  }

  ghost function Tallies(db: Db, k: Contract, steps: seq<Step>, a: AccountId): seq<Tally>
    requires Runs(db, k, steps)
    decreases steps
  {
    if steps == [] then [] else [StepTally(db, k, steps[0], a)] + Tallies(Next(db, k, steps[0]), k, steps[1..], a)
  }

  function Total(tallies: seq<Tally>): Tally {
    if tallies == [] then Tally(NOTHING, 0, 0, 0)
    else
      var first, rest := tallies[0], Total(tallies[1..]);
      Tally(Plus(first.change, rest.change), first.fees + rest.fees, first.feesOf + rest.feesOf, first.unpaired + rest.unpaired)
  }

  ghost function RunTally(db: Db, k: Contract, steps: seq<Step>, a: AccountId): Tally
    requires Runs(db, k, steps)
  {
    Total(Tallies(db, k, steps, a))
  }

  lemma ChangesPlus(x: Db, y: Db, z: Db, s: Symbol, m: nat, a: AccountId, first: Change, rest: Change)
    requires Changes(x, y, s, m, a, first) && Changes(y, z, s, m, a, rest)
    ensures Changes(x, z, s, m, a, Plus(first, rest))
  {
  }

  lemma StepChanges(db: Db, k: Contract, step: Step, a: AccountId)
    requires StepOk(db, k, step) && Sound(db, k)
    ensures Changes(db, Next(db, k, step), k.symbol, k.accounts, a, StepTally(db, k, step, a).change)
    ensures Sound(Next(db, k, step), k) && Next(db, k, step).market == db.market
  {
    match step
    case Fill(ev) =>
      FillChanges(db, ev, k.accounts, a);
      FillKeepsSound(db, ev);
    case Expire(account, row) =>
      SettlePositionEffect(db, k.symbol, k.day, k.price, account, row);
      ExpiryKeepsSound(db, k, account, row);
      if SettlePosition(db, k.symbol, k.day, k.price, account, row).value.realized.Some? {
        ExpiryChanges(db, k.symbol, k.day, k.price, account, row, k.accounts, a);
      }
  }

  lemma FillKeepsSound(db: Db, ev: Event)
    requires ev.Traded? && WellFormed(ev) && Applies(db, ev) && PursesAllowed(db.bank)
    ensures PursesAllowed(SettleTrade(db, ev).value.bank) && SettleTrade(db, ev).value.market == db.market
  {
    TradeSettlesPurses(db, ev);
    TradeSettlesRows(db, ev);
    PursesStayAllowed(db.bank, SettleTrade(db, ev).value.bank, DealOf(db, ev), FreedHold(db, ev));
  }

  lemma ExpiryKeepsSound(db: Db, k: Contract, account: AccountId, row: RowSide)
    requires account in db.bank.accounts && Sound(db, k)
    ensures
      var after := SettlePosition(db, k.symbol, k.day, k.price, account, row);
      after.Ok? && PositionsAllowed(after.value.db.positions) && after.value.db.market == db.market
  {
    SettlePositionEffect(db, k.symbol, k.day, k.price, account, row);
  }

  lemma {:induction false} RunChanges(db: Db, k: Contract, steps: seq<Step>, a: AccountId)
    requires Runs(db, k, steps) && Sound(db, k)
    ensures Changes(db, After(db, k, steps), k.symbol, k.accounts, a, RunTally(db, k, steps, a).change)
    ensures Sound(After(db, k, steps), k) && After(db, k, steps).market == db.market
    decreases steps
  {
    if steps != [] {
      var next := Next(db, k, steps[0]);
      StepChanges(db, k, steps[0], a);
      RunChanges(next, k, steps[1..], a);
      assert Tallies(db, k, steps, a)[1..] == Tallies(next, k, steps[1..], a);
      ChangesPlus(db, next, After(db, k, steps), k.symbol, k.accounts, a,
                  StepTally(db, k, steps[0], a).change, RunTally(next, k, steps[1..], a).change);
    }
  }

  // ---------------------------------------------------------------- what tallies obey

  /** The laws of a tally: profit is entry value priced at settlement plus what is unpaired, and cash follows it. */
  predicate Lawful(t: Tally, i: Instrument, price: int) {
    var u := UnitValue(i);
    var ch := t.change;
    && ch.realized == (ch.entry - ch.qty * price + t.unpaired) * u
    && (i.Future? ==> ch.wealth == ch.realized - t.fees && ch.equityOf == ch.realizedBy - t.feesOf)
    && (i.OptionSeries? ==> t.unpaired == 0 && ch.wealth == -(ch.qty * price) * u - t.fees && ch.equityOf == ch.realizedBy - ch.entryOf * u - t.feesOf)
  }

  lemma LawfulPlus(x: Tally, y: Tally, i: Instrument, price: int)
    requires Lawful(x, i, price) && Lawful(y, i, price)
    ensures Lawful(Tally(Plus(x.change, y.change), x.fees + y.fees, x.feesOf + y.feesOf, x.unpaired + y.unpaired), i, price)
  {
    var u := UnitValue(i);
    Distribute(x.change.qty, y.change.qty, price);
    Distribute(x.change.entry - x.change.qty * price + x.unpaired, y.change.entry - y.change.qty * price + y.unpaired, u);
    Distribute(-(x.change.qty * price), -(y.change.qty * price), u);
    Distribute(x.change.entryOf, y.change.entryOf, u);
  }

  /** Contracts a hedge close asked for beyond what its row held. */
  function BuyOverflow(db: Db, ev: Event): nat
    requires ev.Traded? && ev.qty > 0 && ev.buyOrder in db.orders
  {
    var key := LegKey(InstrumentOf(db.market, ev.symbol), ev.symbol, db.orders[ev.buyOrder], ev.buyer);
    OverflowOf(PositionAt(db.positions, key).position, key.row, Buy, ev.qty)
  }

  function SellOverflow(db: Db, ev: Event): nat
    requires ev.Traded? && ev.qty > 0 && ev.buyOrder in db.orders && ev.sellOrder in db.orders
  {
    var key := LegKey(InstrumentOf(db.market, ev.symbol), ev.symbol, db.orders[ev.sellOrder], ev.seller);
    OverflowOf(PositionAt(MidPositions(db, ev), key).position, key.row, Sell, ev.qty)
  }

  lemma LegStaysAllowed(positions: Positions, i: Instrument, key: PositionKey, side: Side, price: int, qty: int)
    requires PositionsAllowed(positions) && qty > 0 && SettleLeg(positions, i, key, side, price, qty).Ok?
    ensures PositionsAllowed(SettleLeg(positions, i, key, side, price, qty).value.positions)
  {
  }

  lemma MidAllowed(db: Db, ev: Event)
    requires ev.Traded? && ev.qty > 0 && ev.buyOrder in db.orders && PositionsAllowed(db.positions)
    ensures PositionsAllowed(MidPositions(db, ev))
  {
    var i := InstrumentOf(db.market, ev.symbol);
    var key := LegKey(i, ev.symbol, db.orders[ev.buyOrder], ev.buyer);
    if SettleLeg(db.positions, i, key, Buy, ev.price, ev.qty).Ok? {
      LegStaysAllowed(db.positions, i, key, Buy, ev.price, ev.qty);
    }
  }

  /** Each leg is priced at the fill, and moves what the fill asked for less its overflow. */
  lemma BuyMoves(db: Db, ev: Event)
    requires ev.Traded? && WellFormed(ev) && ev.buyOrder in db.orders && PositionsAllowed(db.positions)
    ensures Priced(BuyMove(db, ev), ev.price, UnitValue(InstrumentOf(db.market, ev.symbol)))
    ensures BuyMove(db, ev).qty == ev.qty - BuyOverflow(db, ev)
    ensures InstrumentOf(db.market, ev.symbol).OptionSeries? ==> BuyOverflow(db, ev) == 0
  {
    var i := InstrumentOf(db.market, ev.symbol);
    LegPriced(db.positions, i, LegKey(i, ev.symbol, db.orders[ev.buyOrder], ev.buyer), Buy, ev.price, ev.qty);
  }

  lemma SellMoves(db: Db, ev: Event)
    requires ev.Traded? && WellFormed(ev) && ev.buyOrder in db.orders && ev.sellOrder in db.orders && PositionsAllowed(db.positions)
    ensures Priced(SellMove(db, ev), ev.price, UnitValue(InstrumentOf(db.market, ev.symbol)))
    ensures SellMove(db, ev).qty == SellOverflow(db, ev) - ev.qty
    ensures InstrumentOf(db.market, ev.symbol).OptionSeries? ==> SellOverflow(db, ev) == 0
  {
    var i := InstrumentOf(db.market, ev.symbol);
    MidAllowed(db, ev);
    LegPriced(MidPositions(db, ev), i, LegKey(i, ev.symbol, db.orders[ev.sellOrder], ev.seller), Sell, ev.price, ev.qty);
  }

  /** A tally of two priced moves, in the algebra of one fill. */
  lemma FillLaw(i: Instrument, deal: Deal, buy: Move, sell: Move, premium: int, a: AccountId, fill: int, price: int, qty: int, t: Tally)
    requires Priced(buy, fill, UnitValue(i)) && Priced(sell, fill, UnitValue(i)) && !i.Spot?
    requires i.OptionSeries? ==> buy.qty == qty && sell.qty == -qty && premium == fill * qty * UnitValue(i)
    requires
      var terms := if i.Future? then Profit(buy.realized, sell.realized) else Premium(premium);
      t == Tally(Change(buy.entry + sell.entry, buy.qty + sell.qty, buy.realized + sell.realized,
                        TermsBuy(terms) + TermsSell(terms) - BuyerFee(deal) - SellerFee(deal),
                        OfSides(deal, a, buy.entry, sell.entry), OfSides(deal, a, buy.realized, sell.realized),
                        OfSides(deal, a, TermsBuy(terms) - BuyerFee(deal), TermsSell(terms) - SellerFee(deal))),
                 BuyerFee(deal) + SellerFee(deal), OfSides(deal, a, BuyerFee(deal), SellerFee(deal)),
                 (buy.qty + sell.qty) * (price - fill))
    ensures Lawful(t, i, price)
  {
    var u := UnitValue(i);
    RealizedLaw(buy, sell, fill, price, u);
    if i.OptionSeries? {
      assert t.unpaired == 0 && t.change.qty * price == 0;
      PremiumLaw(buy, sell, fill, qty, u);
      assert OfSides(deal, a, buy.entry, sell.entry) * u == OfSides(deal, a, buy.entry * u, sell.entry * u);
    }
  }

  lemma RealizedLaw(buy: Move, sell: Move, fill: int, price: int, u: int)
    requires Priced(buy, fill, u) && Priced(sell, fill, u)
    ensures
      var entry, qty := buy.entry + sell.entry, buy.qty + sell.qty;
      buy.realized + sell.realized == (entry - qty * price + qty * (price - fill)) * u
  {
    var qty := buy.qty + sell.qty;
    Distribute(buy.entry - buy.qty * fill, sell.entry - sell.qty * fill, u);
    Distribute(buy.qty, sell.qty, fill);
    assert qty * (price - fill) == qty * price - qty * fill;
  }

  lemma PremiumLaw(buy: Move, sell: Move, fill: int, qty: int, u: int)
    requires Priced(buy, fill, u) && Priced(sell, fill, u) && buy.qty == qty && sell.qty == -qty
    ensures buy.realized - buy.entry * u == -(fill * qty * u)
    ensures sell.realized - sell.entry * u == fill * qty * u
  {
    Distribute(buy.entry, -(qty * fill), u);
    Distribute(sell.entry, qty * fill, u);
    assert sell.qty * fill == -(qty * fill);
  }

  /** A tally of one position closed at the settlement price. */
  lemma ClosedLaw(i: Instrument, entry: int, qty: int, price: int, realized: int, paid: int, mine: bool, t: Tally)
    requires !i.Spot? && realized == (-entry - -qty * price) * UnitValue(i)
    requires paid == if i.OptionSeries? then qty * price * UnitValue(i) else realized
    requires t == Tally(Change(-entry, -qty, realized, paid, if mine then -entry else 0, if mine then realized else 0, if mine then paid else 0), 0, 0, 0)
    ensures Lawful(t, i, price)
  {
    var u := UnitValue(i);
    assert -qty * price == -(qty * price);
    Distribute(-entry, qty * price, u);
  }

  lemma ExpiryLaw(db: Db, k: Contract, account: AccountId, row: RowSide, a: AccountId)
    requires Sound(db, k)
    ensures Lawful(Tally(ExpiryChange(db, k.symbol, k.price, account, row, a), 0, 0, 0), InstrumentOf(db.market, k.symbol), k.price)
  {
    var i := InstrumentOf(db.market, k.symbol);
    var p := PosAt(db.positions, k.symbol, account, row);
    ExpiryPriced(db, k.symbol, k.price, account, row, a);
    if p.qty != 0 {
      var fill := FinalFill(UnitValue(i), p, k.price);
      ClosedLaw(i, SignedEntry(p), p.qty, k.price, fill.realized, Payoff(i, p, k.price), a == account,
                Tally(ExpiryChange(db, k.symbol, k.price, account, row, a), 0, 0, 0));
    }
  }

  lemma FillStepLaw(db: Db, ev: Event, price: int, a: AccountId)
    requires ev.Traded? && WellFormed(ev) && ev.buyOrder in db.orders && ev.sellOrder in db.orders
    requires PositionsAllowed(db.positions) && IsContract(db, ev.symbol)
    ensures Lawful(FillTally(db, ev, price, a), InstrumentOf(db.market, ev.symbol), price)
  {
    BuyMoves(db, ev);
    SellMoves(db, ev);
    var i := InstrumentOf(db.market, ev.symbol);
    FillLaw(i, DealOf(db, ev), BuyMove(db, ev), SellMove(db, ev), Cost(ev) * UnitValue(i), a, ev.price, price, ev.qty, FillTally(db, ev, price, a));
  }

  lemma StepLaw(db: Db, k: Contract, step: Step, a: AccountId)
    requires StepOk(db, k, step) && Sound(db, k)
    ensures Lawful(StepTally(db, k, step, a), InstrumentOf(db.market, k.symbol), k.price)
  {
    match step
    case Fill(ev) =>
      FillParts(db, ev);
      FillStepLaw(db, ev, k.price, a);
    case Expire(account, row) =>
      ExpiryLaw(db, k, account, row, a);
  }

  ghost predicate AllLawful(tallies: seq<Tally>, i: Instrument, price: int) {
    forall j :: 0 <= j < |tallies| ==> Lawful(tallies[j], i, price)
  }

  lemma OneMoreLawful(t: Tally, rest: seq<Tally>, i: Instrument, price: int)
    requires Lawful(t, i, price) && AllLawful(rest, i, price)
    ensures AllLawful([t] + rest, i, price)
  {
  }

  lemma {:induction false} RunTallies(db: Db, k: Contract, steps: seq<Step>, a: AccountId, i: Instrument)
    requires Runs(db, k, steps) && Sound(db, k) && i == InstrumentOf(db.market, k.symbol)
    ensures AllLawful(Tallies(db, k, steps, a), i, k.price)
    decreases steps
  {
    if steps != [] {
      StepChanges(db, k, steps[0], a);
      StepLaw(db, k, steps[0], a);
      var next := Next(db, k, steps[0]);
      RunTallies(next, k, steps[1..], a, i);
      OneMoreLawful(StepTally(db, k, steps[0], a), Tallies(next, k, steps[1..], a), i, k.price);
    }
  }

  lemma {:induction false} TotalLaw(tallies: seq<Tally>, i: Instrument, price: int)
    requires AllLawful(tallies, i, price)
    ensures Lawful(Total(tallies), i, price)
  {
    if tallies != [] {
      assert Lawful(tallies[0], i, price);
      TotalLaw(tallies[1..], i, price);
      LawfulPlus(tallies[0], Total(tallies[1..]), i, price);
    }
  }

  // ---------------------------------------------------------------- runs that start and end flat

  /** No account holds an open position of the contract. */
  predicate Flat(positions: Positions, s: Symbol, accounts: nat) {
    forall a, row :: 0 <= a < accounts ==> PosAt(positions, s, a, row).qty == 0
  }

  lemma FlatOne(positions: Positions, s: Symbol, accounts: nat, a: AccountId)
    requires Flat(positions, s, accounts) && PositionsAllowed(positions) && 0 <= a < accounts
    ensures EntryOf(positions, s, a) == 0 && QtyOf(positions, s, a) == 0
  {
    forall row
      ensures PosAt(positions, s, a, row) == FLAT
    {
      assert PosAt(positions, s, a, row).qty == 0;
      assert PositionAllowed(row, PositionAt(positions, PositionKey(a, s, row)));
    }
  }

  lemma FlatTotals(positions: Positions, s: Symbol, accounts: nat)
    requires Flat(positions, s, accounts) && PositionsAllowed(positions)
    ensures Entries(positions, s, accounts) == 0 && Contracts(positions, s, accounts) == 0
  {
    forall a | 0 <= a < accounts
      ensures EntryTerms(positions, s)(a) == 0 && QtyTerms(positions, s)(a) == 0
    {
      FlatOne(positions, s, accounts, a);
    }
    SumZero(EntryTerms(positions, s), accounts);
    SumZero(QtyTerms(positions, s), accounts);
  }

  ghost predicate FlatRun(db: Db, k: Contract, steps: seq<Step>) {
    Runs(db, k, steps) && Sound(db, k) && Flat(db.positions, k.symbol, k.accounts) &&
    Flat(After(db, k, steps).positions, k.symbol, k.accounts)
  }

  /** What the laws come to when neither entry value nor contracts remain. */
  predicate FlatLawful(t: Tally, i: Instrument) {
    && t.change.realized == t.unpaired * UnitValue(i)
    && (i.Future? ==> t.change.wealth == t.change.realized - t.fees)
    && (i.OptionSeries? ==> t.change.realized == 0 && t.change.wealth == -t.fees)
    && (i.OptionSeries? && t.change.entryOf == 0 ==> t.change.equityOf == t.change.realizedBy - t.feesOf)
  }

  lemma FlatLaw(t: Tally, i: Instrument, price: int)
    requires Lawful(t, i, price) && t.change.entry == 0 && t.change.qty == 0
    ensures FlatLawful(t, i)
  {
    assert 0 * price == 0;
  }

  /** A flat run's change takes no entry value and no contracts, in all and for any one account. */
  lemma FlatChange(db: Db, k: Contract, steps: seq<Step>, a: AccountId)
    requires FlatRun(db, k, steps)
    ensures
      var ch := RunTally(db, k, steps, a).change;
      && ch.entry == 0 && ch.qty == 0 && (0 <= a < k.accounts ==> ch.entryOf == 0)
      && Changes(db, After(db, k, steps), k.symbol, k.accounts, a, ch)
  {
    var end := After(db, k, steps);
    RunChanges(db, k, steps, a);
    FlatTotals(db.positions, k.symbol, k.accounts);
    FlatTotals(end.positions, k.symbol, k.accounts);
    if 0 <= a < k.accounts {
      FlatOne(db.positions, k.symbol, k.accounts, a);
      FlatOne(end.positions, k.symbol, k.accounts, a);
    }
  }

  lemma FlatTally(db: Db, k: Contract, steps: seq<Step>, a: AccountId, i: Instrument)
    requires Runs(db, k, steps) && Sound(db, k) && i == InstrumentOf(db.market, k.symbol)
    requires RunTally(db, k, steps, a).change.entry == 0 && RunTally(db, k, steps, a).change.qty == 0
    ensures FlatLawful(RunTally(db, k, steps, a), i)
  {
    RunTallies(db, k, steps, a, i);
    TotalLaw(Tallies(db, k, steps, a), i, k.price);
    FlatLaw(Total(Tallies(db, k, steps, a)), i, k.price);
  }

  /** The differences a run makes are those its change says. */
  lemma RunDiffers(db: Db, end: Db, s: Symbol, m: nat, a: AccountId, ch: Change)
    requires Changes(db, end, s, m, a, ch)
    ensures RealizedOn(end.realized, s) - RealizedOn(db.realized, s) == ch.realized
    ensures Sum(EquityTerms(end.bank), m) - Sum(EquityTerms(db.bank), m) == ch.wealth
    ensures RealizedBy(end.realized, s, a) - RealizedBy(db.realized, s, a) == ch.realizedBy
    ensures EquityTerms(end.bank)(a) - EquityTerms(db.bank)(a) == ch.equityOf
  {
  }

  /**
   * A future, flat before and after: profit and loss over all accounts sum to
   * exactly what overflow left unpaired, so they sum to zero if and only if that
   * does; and total equity moves by the same amount less the fees.
   */
  lemma FuturesZeroSum(db: Db, k: Contract, steps: seq<Step>)
    requires FlatRun(db, k, steps) && InstrumentOf(db.market, k.symbol).Future?
    ensures
      var t, u := RunTally(db, k, steps, 0), UnitValue(InstrumentOf(db.market, k.symbol));
      && RealizedOn(After(db, k, steps).realized, k.symbol) - RealizedOn(db.realized, k.symbol) == t.unpaired * u
      && Sum(EquityTerms(After(db, k, steps).bank), k.accounts) - Sum(EquityTerms(db.bank), k.accounts) == t.unpaired * u - t.fees
  {
    FlatChange(db, k, steps, 0);
    FlatTally(db, k, steps, 0, InstrumentOf(db.market, k.symbol));
    RunDiffers(db, After(db, k, steps), k.symbol, k.accounts, 0, RunTally(db, k, steps, 0).change);
  }

  /** An option, flat before and after: profit and loss sum to zero and total equity falls by exactly the fees. */
  lemma OptionsZeroSum(db: Db, k: Contract, steps: seq<Step>)
    requires FlatRun(db, k, steps) && InstrumentOf(db.market, k.symbol).OptionSeries?
    ensures
      var t := RunTally(db, k, steps, 0);
      && RealizedOn(After(db, k, steps).realized, k.symbol) - RealizedOn(db.realized, k.symbol) == 0
      && Sum(EquityTerms(After(db, k, steps).bank), k.accounts) - Sum(EquityTerms(db.bank), k.accounts) == -t.fees
  {
    FlatChange(db, k, steps, 0);
    FlatTally(db, k, steps, 0, InstrumentOf(db.market, k.symbol));
    RunDiffers(db, After(db, k, steps), k.symbol, k.accounts, 0, RunTally(db, k, steps, 0).change);
  }

  /** Each account's option cash - premiums and payoffs, fees aside - is exactly the profit recorded for it. */
  lemma OptionCashIsRealized(db: Db, k: Contract, steps: seq<Step>, a: AccountId)
    requires FlatRun(db, k, steps) && InstrumentOf(db.market, k.symbol).OptionSeries? && 0 <= a < k.accounts
    ensures
      var t, end := RunTally(db, k, steps, a), After(db, k, steps);
      EquityTerms(end.bank)(a) - EquityTerms(db.bank)(a) ==
      RealizedBy(end.realized, k.symbol, a) - RealizedBy(db.realized, k.symbol, a) - t.feesOf
  {
    FlatChange(db, k, steps, a);
    FlatTally(db, k, steps, a, InstrumentOf(db.market, k.symbol));
    RunDiffers(db, After(db, k, steps), k.symbol, k.accounts, a, RunTally(db, k, steps, a).change);
  }

  // ---------------------------------------------------------------- without overflow

  predicate Paired(db: Db, step: Step)
    requires step.Fill? ==> step.event.Traded? && step.event.qty > 0 && step.event.buyOrder in db.orders && step.event.sellOrder in db.orders
  {
    step.Fill? ==> BuyOverflow(db, step.event) == SellOverflow(db, step.event)
  }

  /** No fill closes more of a hedge row than it holds, or both sides overflow alike. */
  ghost predicate NeverOverflows(db: Db, k: Contract, steps: seq<Step>)
    requires Runs(db, k, steps)
    decreases steps
  {
    steps == [] || (Paired(db, steps[0]) && NeverOverflows(Next(db, k, steps[0]), k, steps[1..]))
  }

  lemma PairedFill(db: Db, ev: Event, price: int)
    requires ev.Traded? && WellFormed(ev) && ev.buyOrder in db.orders && ev.sellOrder in db.orders && PositionsAllowed(db.positions)
    requires BuyOverflow(db, ev) == SellOverflow(db, ev)
    ensures FillTally(db, ev, price, 0).unpaired == 0
  {
    BuyMoves(db, ev);
    SellMoves(db, ev);
    assert FillChange(db, ev, 0).qty == 0;
  }

  lemma PairedStep(db: Db, k: Contract, step: Step)
    requires StepOk(db, k, step) && Sound(db, k) && Paired(db, step)
    ensures StepTally(db, k, step, 0).unpaired == 0
  {
    if step.Fill? {
      PairedFill(db, step.event, k.price);
    }
  }

  predicate AllPaired(tallies: seq<Tally>) {
    forall j :: 0 <= j < |tallies| ==> tallies[j].unpaired == 0
  }

  lemma OneMorePaired(t: Tally, rest: seq<Tally>)
    requires t.unpaired == 0 && AllPaired(rest)
    ensures AllPaired([t] + rest)
  {
  }

  lemma {:induction false} TotalPaired(tallies: seq<Tally>)
    requires AllPaired(tallies)
    ensures Total(tallies).unpaired == 0
  {
    if tallies != [] {
      TotalPaired(tallies[1..]);
    }
  }

  lemma {:induction false} PairedTallies(db: Db, k: Contract, steps: seq<Step>)
    requires Runs(db, k, steps) && Sound(db, k) && NeverOverflows(db, k, steps)
    ensures AllPaired(Tallies(db, k, steps, 0))
    decreases steps
  {
    if steps != [] {
      var next := Next(db, k, steps[0]);
      StepChanges(db, k, steps[0], 0);
      PairedStep(db, k, steps[0]);
      PairedTallies(next, k, steps[1..]);
      OneMorePaired(StepTally(db, k, steps[0], 0), Tallies(next, k, steps[1..], 0));
    }
  }

  lemma NothingUnpaired(db: Db, k: Contract, steps: seq<Step>)
    requires Runs(db, k, steps) && Sound(db, k) && NeverOverflows(db, k, steps)
    ensures RunTally(db, k, steps, 0).unpaired == 0
  {
    PairedTallies(db, k, steps);
    TotalPaired(Tallies(db, k, steps, 0));
  }

  /** Without overflow a future is zero-sum, and total equity falls by exactly the fees. */
  lemma PairedFuturesAreZeroSum(db: Db, k: Contract, steps: seq<Step>)
    requires FlatRun(db, k, steps) && InstrumentOf(db.market, k.symbol).Future? && NeverOverflows(db, k, steps)
    ensures RealizedOn(After(db, k, steps).realized, k.symbol) - RealizedOn(db.realized, k.symbol) == 0
    ensures Sum(EquityTerms(After(db, k, steps).bank), k.accounts) - Sum(EquityTerms(db.bank), k.accounts) == -RunTally(db, k, steps, 0).fees
  {
    FuturesZeroSum(db, k, steps);
    NothingUnpaired(db, k, steps);
  }
}
