/**
 * The recovery planner refuses nothing it could plan: from a database read as
 * it is, a plan is issue-free if and only if the consumer could settle the
 * missing trades one by one.
 */
module RecoveryComplete {
  import opened Common
  import opened Ledger
  import opened Fees
  import opened Bank
  import opened BankLaws
  import opened Sums
  import opened Settlement
  import opened SettlementHolds
  import opened SettlementProgress
  import opened SettlementConfluence
  import opened Recovery
  import opened RecoveryReplay
  import opened RecoveryPlan
  import opened RecoveryEffects
  import opened RecoverySettles

  predicate BasisOk(holdings: Holdings) {
    forall key :: key in holdings ==> holdings[key].costBasis >= 0
  }

  /** What orders, trades and holdings look like when the engine and settlement wrote them. */
  ghost predicate Written(db: Db, input: Input) {
    && (forall i :: 0 <= i < |input.trades| ==> input.trades[i].symbol in input.symbols && Describes(db.orders, input.trades[i]))
    && (forall o :: o in db.orders ==>
          db.orders[o].qty > 0 && db.orders[o].account in db.bank.accounts && (db.orders[o].status == Rejected ==> db.orders[o].filledQty == 0))
    && BasisOk(db.holdings)
  }

  // ---------------------------------------------------------------- what settled trades say of the order rows

  /** A row after some of the missing trades, with the contracts they moved. */
  predicate Grown(x: OrderRow, y: OrderRow, moved: int) {
    SameTerms(x, y) && moved >= 0 && y.filledQty == x.filledQty + moved <= x.qty && (moved > 0 ==> IsActive(x.status)) && (moved == 0 ==> y == x)
  }

  function MovedQty(trades: seq<Event>, k: nat, o: OrderId): int
    requires k <= |trades|
  {
    PendingQty(trades, {}, o) - PendingQty(trades, DoneIds(trades, k), o)
  }

  ghost predicate RowsGrown(db: Db, input: Input, k: nat, orders: Orders)
    requires k <= |input.trades|
  {
    forall o :: o in db.orders ==> o in orders && Grown(db.orders[o], orders[o], MovedQty(input.trades, k, o))
  }

  ghost predicate BooksKept(db: Db, input: Input, k: nat, d: Db)
    requires k <= |input.trades|
  {
    SameTermsAll(db, d) && d.processed == db.processed + DoneIds(input.trades, k) && HoldsExact(d, input.bound) && BasisOk(d.holdings)
  }

  /** The database after `k` trades, as far as orders and bookkeeping go. */
  ghost predicate SettledSoFar(db: Db, input: Input, k: nat, d: Db)
    requires k <= |input.trades|
  {
    BooksKept(db, input, k, d) && RowsGrown(db, input, k, d.orders)
  }

  lemma GrowsMore(x: OrderRow, y: OrderRow, z: OrderRow, moved: int, qty: int)
    requires Grown(x, y, moved) && qty > 0 && Advanced(y, z, qty) && SameTerms(y, z)
    ensures Grown(x, z, moved + qty)
  {
  }

  lemma BasisStays(holdings: Holdings, buyer: HoldingKey, seller: HoldingKey, qty: int, cost: int)
    requires BasisOk(holdings) && qty > 0 && cost >= 0 && MoveShares(holdings, buyer, seller, qty, cost).Ok?
    ensures BasisOk(MoveShares(holdings, buyer, seller, qty, cost).value.holdings)
  {
    var bought := Bought(holdings, buyer, qty, cost);
    var mid := holdings[buyer := bought];
    SoldBasis(mid[seller], qty);
  }

  lemma SoldBasis(h: Holding, qty: int)
    requires h.costBasis >= 0 && qty > 0 && HoldingAllowed(Sold(h, qty))
    ensures Sold(h, qty).costBasis >= 0
  {
    Arithmetic.MulMono(qty, h.qty, h.costBasis);
    Arithmetic.DivMono(h.costBasis * qty, h.costBasis * h.qty, h.qty);
    Arithmetic.DivIs(h.costBasis * h.qty, h.qty, h.costBasis);
  }

  lemma TermsChain(x: Db, y: Db, z: Db)
    requires SameTermsAll(x, y) && SameTermsAll(y, z)
    ensures SameTermsAll(x, z)
  {
    forall o | o in x.orders ensures SameTerms(x.orders[o], z.orders[o]) {
      assert o in y.orders.Keys;
      assert SameTerms(x.orders[o], y.orders[o]) && SameTerms(y.orders[o], z.orders[o]);
    }
  }

  lemma DescribesStays(db: Db, d: Db, t: Event)
    requires SameTermsAll(db, d) && Describes(db.orders, t)
    ensures Describes(d.orders, t)
  {
    assert forall o :: o in d.orders ==> o in db.orders.Keys;
  }

  lemma RowsGrow(db: Db, input: Input, k: nat, d: Db, o: OrderId)
    requires k < |input.trades| && DistinctIds(input.trades) && o in db.orders && o in d.orders && SameTermsAll(db, d)
    requires Grown(db.orders[o], d.orders[o], MovedQty(input.trades, k, o))
    requires var t := input.trades[k]; t.Traded? && WellFormed(t) && Applies(d, t) && Describes(d.orders, t)
    ensures
      var after := SettleTrade(d, input.trades[k]).value.orders;
      o in after && Grown(db.orders[o], after[o], MovedQty(input.trades, k + 1, o))
  {
    var t := input.trades[k];
    NextPending(input.trades, k, o);
    TradeTerms(d, t);
    TradeRow(d, t, o);
    if Names(t, o) {
      GrowsMore(db.orders[o], d.orders[o], SettleTrade(d, t).value.orders[o], MovedQty(input.trades, k, o), t.qty);
    }
  }

  lemma TradeIsFresh(db: Db, input: Input, k: nat, d: Db)
    requires ReadFrom(db, input) && k < |input.trades| && d.processed == db.processed + DoneIds(input.trades, k)
    ensures input.trades[k].eventId !in d.processed
    ensures d.processed + {input.trades[k].eventId} == db.processed + DoneIds(input.trades, k + 1)
  {
    NextPending(input.trades, k, 0);
  }

  lemma BooksStayKept(db: Db, input: Input, k: nat, d: Db)
    requires ReadFrom(db, input) && Written(db, input) && k < |input.trades| && BooksKept(db, input, k, d)
    requires SettleTrade(d, input.trades[k]).Ok?
    ensures BooksKept(db, input, k + 1, SettleTrade(d, input.trades[k]).value)
  {
    var t := input.trades[k];
    DescribesStays(db, d, t);
    TradeIsFresh(db, input, k, d);
    TradeTerms(d, t);
    TermsChain(db, d, SettleTrade(d, t).value);
    TradeSettlesRows(d, t);
    DeliverKeepsHolds(d, t, input.bound);
    SpotBasis(db, input, k, d);
  }

  lemma RowsStayGrown(db: Db, input: Input, k: nat, d: Db)
    requires k < |input.trades| && DistinctIds(input.trades) && SameTermsAll(db, d) && RowsGrown(db, input, k, d.orders)
    requires var t := input.trades[k]; t.Traded? && WellFormed(t) && Applies(d, t) && Describes(d.orders, t)
    ensures RowsGrown(db, input, k + 1, SettleTrade(d, input.trades[k]).value.orders)
  {
    var after := SettleTrade(d, input.trades[k]).value.orders;
    forall o | o in db.orders
      ensures o in after && Grown(db.orders[o], after[o], MovedQty(input.trades, k + 1, o))
    {
      RowsGrow(db, input, k, d, o);
    }
  }

  lemma OneMoreSettled(db: Db, input: Input, k: nat, d: Db)
    requires ReadFrom(db, input) && Written(db, input) && k < |input.trades| && SettledSoFar(db, input, k, d)
    requires SettleTrade(d, input.trades[k]).Ok?
    ensures SettledSoFar(db, input, k + 1, SettleTrade(d, input.trades[k]).value)
  {
    TradeIsFresh(db, input, k, d);
    DescribesStays(db, d, input.trades[k]);
    BooksStayKept(db, input, k, d);
    RowsStayGrown(db, input, k, d);
  }

  lemma SpotBasis(db: Db, input: Input, k: nat, d: Db)
    requires ReadFrom(db, input) && Written(db, input) && k < |input.trades| && SameTermsAll(db, d) && BasisOk(d.holdings)
    requires input.trades[k].eventId !in d.processed && SettleTrade(d, input.trades[k]).Ok?
    ensures BasisOk(SettleTrade(d, input.trades[k]).value.holdings)
  {
    var t := input.trades[k];
    TradeSettlesShares(d, t);
    if InstrumentOf(d.market, t.symbol).Spot? {
      Arithmetic.MulMono(0, t.qty, t.price);
      BasisStays(d.holdings, HoldingKey(t.buyer, t.symbol), HoldingKey(t.seller, t.symbol), t.qty, Cost(t));
    }
  }

  lemma NothingSettledYet(db: Db, input: Input)
    requires ReadFrom(db, input) && Written(db, input)
    ensures SettledSoFar(db, input, 0, db)
  {
    assert DoneIds(input.trades, 0) == {};
    assert db.processed + {} == db.processed;
  }

  lemma {:induction false} PrefixSettles(db: Db, trades: seq<Event>, k: nat)
    requires AllTrades(trades) && AllWellFormed(trades) && k <= |trades| && SettleAll(db, trades).Ok?
    ensures SettleAll(db, trades[..k]).Ok?
  {
    if k < |trades| {
      assert trades[..|trades| - 1][..k] == trades[..k];
      PrefixSettles(db, trades[..|trades| - 1], k);
    } else {
      assert trades[..k] == trades;
    }
  }

  ghost predicate SettlesSoFar(db: Db, input: Input, k: nat)
    requires AllTrades(input.trades) && AllWellFormed(input.trades) && k <= |input.trades|
  {
    SettleAll(db, input.trades[..k]).Ok? && SettledSoFar(db, input, k, SettleAll(db, input.trades[..k]).value)
  }

  lemma SettledNext(db: Db, input: Input, k: nat)
    requires ReadFrom(db, input) && Written(db, input) && k < |input.trades| && SettlesSoFar(db, input, k)
    requires SettleAll(db, input.trades[..k + 1]).Ok?
    ensures SettlesSoFar(db, input, k + 1)
  {
    SettleMore(db, input.trades, k);
    OneMoreSettled(db, input, k, SettleAll(db, input.trades[..k]).value);
  }

  lemma {:induction false} SettledUpTo(db: Db, input: Input, k: nat)
    requires ReadFrom(db, input) && Written(db, input) && k <= |input.trades| && SettleAll(db, input.trades).Ok?
    ensures SettlesSoFar(db, input, k)
    decreases k
  {
    PrefixSettles(db, input.trades, k);
    if k == 0 {
      NothingSettledYet(db, input);
      assert input.trades[..0] == [];
    } else {
      SettledUpTo(db, input, k - 1);
      SettledNext(db, input, k - 1);
    }
  }

  /** Missing trades that settle fit their orders, whatever state those are in. */
  lemma OrderFits(db: Db, input: Input, o: OrderId)
    requires ReadFrom(db, input) && Written(db, input) && SettleAll(db, input.trades).Ok? && o in input.orders
    ensures OrderValid(input, o) && Usable(input, o)
  {
    SettledUpTo(db, input, |input.trades|);
    NothingPending(input.trades, o);
    assert FilledIsSettled(input, o);
    ValidOrderIff(input.orders[o], QtyIn(input.recorded, o));
  }

  lemma OrdersDoFit(db: Db, input: Input)
    requires ReadFrom(db, input) && Written(db, input) && SettleAll(db, input.trades).Ok?
    ensures OrdersFit(input, input.bound)
  {
    forall o | o in input.orders ensures OrderValid(input, o) && Usable(input, o) {
      OrderFits(db, input, o);
    }
  }

  // ---------------------------------------------------------------- the reservations can be rebuilt

  lemma ReservationsDoFit(db: Db, input: Input)
    requires ReadFrom(db, input) && OrdersFit(input, input.bound)
    ensures PrestateOk(input) && IsPre(input, input)
  {
    forall a | a in input.accounts
      ensures CashTargetOk(input, a) && input.accounts[a] == input.accounts[a].(hold := Sum(CashTerms(input, a, false), input.bound))
    {
      TargetsAreHolds(db, input, a, HoldingKey(a, 0));
      assert CashExactFor(db, input.bound, a) && PurseAllowed(PurseOf(db.bank, a));
    }
    forall key
      ensures ShareTargetOk(input, key)
      ensures key in input.holdings ==> input.holdings[key] == input.holdings[key].(holdQty := Sum(ShareTerms(input, key, false), input.bound))
    {
      TargetsAreHolds(db, input, key.account, key);
      assert SharesExactFor(db, input.bound, key);
    }
  }

  // ---------------------------------------------------------------- every missing trade replays

  lemma FreeCashFits(bank: Bank, deal: Deal, t: Event, held: int)
    requires t.Traded? && deal.fee == 0 && deal.buyer == t.buyer && deal.seller == t.seller
    requires t.buyer in bank.accounts && t.seller in bank.accounts && SpotCash(bank, deal, Cost(t), held).Ok?
    ensures var after := CashAfter(bank.accounts, t, held); CashFits(after[t.buyer]) && CashFits(after[t.seller])
  {
    var logged := Logged(bank, SpotRows(bank, deal, Cost(t)));
    var buyer := SpotPurse(PurseOf(bank, t.buyer), deal, Cost(t), held, t.buyer);
    FreeCharge(logged, deal, t.buyer, buyer);
    if t.buyer != t.seller {
      FreeCharge(WithPurse(logged, t.buyer, buyer), deal, t.seller, SpotPurse(PurseOf(bank, t.seller), deal, Cost(t), held, t.seller));
    }
  }

  lemma SharesDoFit(holdings: Holdings, t: Event)
    requires t.Traded? && t.qty > 0 && t.price > 0 && BasisOk(holdings)
    requires MoveShares(holdings, HoldingKey(t.buyer, t.symbol), HoldingKey(t.seller, t.symbol), t.qty, Cost(t)).Ok?
    ensures SharesFit(SellerSource(holdings, t), t)
  {
    Arithmetic.MulMono(0, t.qty, t.price);
    SoldBasis(SellerSource(holdings, t).value, t.qty);
  }

  lemma TradeDoesFit(db: Db, input: Input, k: nat, d: Db)
    requires ReadFrom(db, input) && Written(db, input) && OrdersFit(input, input.bound) && k < |input.trades|
    requires SameTermsAll(db, d) && input.trades[k].eventId !in d.processed && SettleTrade(d, input.trades[k]).Ok?
    ensures TradeFits(input, d.bank.accounts, input.trades[k])
    ensures
      var t := input.trades[k];
      t.buyOrder in d.orders && d.orders[t.buyOrder].holdPerUnit == input.orders[t.buyOrder].holdPerUnit && InstrumentOf(d.market, t.symbol).Spot?
  {
    var t := input.trades[k];
    assert t.buyOrder in d.orders.Keys && t.sellOrder in d.orders.Keys;
    assert t.buyOrder in db.orders && t.sellOrder in db.orders;
    assert Describes(db.orders, t) && InstrumentOf(db.market, db.orders[t.buyOrder].symbol).Spot?;
    assert SameTerms(db.orders[t.buyOrder], d.orders[t.buyOrder]);
  }

  /** A trade the consumer can settle replays on the same tables. */
  lemma ReplaysOn(input: Input, s: Replayed, d: Db, t: Event)
    requires t.Traded? && WellFormed(t) && t.ts < TRADING_FEES_EFFECTIVE_AT && t.eventId !in d.processed && SettleTrade(d, t).Ok?
    requires TradeFits(input, d.bank.accounts, t) && t.buyOrder in d.orders && InstrumentOf(d.market, t.symbol).Spot?
    requires d.orders[t.buyOrder].holdPerUnit == input.orders[t.buyOrder].holdPerUnit
    requires s.accounts == d.bank.accounts && s.holdings == d.holdings && BasisOk(d.holdings)
    ensures ReplayTrade(input, s, t).Some?
  {
    FeeFree(d, t);
    SpotIs(d, t);
    FreeCashFits(d.bank, DealOf(d, t), t, d.orders[t.buyOrder].holdPerUnit * t.qty);
    SharesDoFit(d.holdings, t);
  }

  lemma SettlesSoReplays(db: Db, input: Input, k: nat, d: Db)
    requires ReadFrom(db, input) && Written(db, input) && NoFeesDue(input.trades) && OrdersFit(input, input.bound)
    requires k < |input.trades| && AtStep(db, input, k, d) && SettledSoFar(db, input, k, d) && SettleTrade(d, input.trades[k]).Ok?
    ensures ReplayTrade(input, StateAt(input, k), input.trades[k]).Some?
  {
    TradeIsFresh(db, input, k, d);
    TradeDoesFit(db, input, k, d);
    ReplaysOn(input, StateAt(input, k), d, input.trades[k]);
  }

  lemma SpotIs(d: Db, t: Event)
    requires t.Traded? && WellFormed(t) && Applies(d, t) && InstrumentOf(d.market, t.symbol).Spot?
    ensures t.buyOrder in d.orders && t.buyer in d.bank.accounts && t.seller in d.bank.accounts
    ensures SpotCash(d.bank, DealOf(d, t), Cost(t), d.orders[t.buyOrder].holdPerUnit * t.qty).Ok?
    ensures MoveShares(d.holdings, HoldingKey(t.buyer, t.symbol), HoldingKey(t.seller, t.symbol), t.qty, Cost(t)).Ok?
  {
    assert DealOf(Claim(d, t.eventId), t) == DealOf(d, t);
  }

  lemma {:induction false} ReplaysUpTo(db: Db, input: Input, k: nat)
    requires ReadFrom(db, input) && Written(db, input) && NoFeesDue(input.trades) && Recovery.IdsBelow(input.orders, input.bound)
    requires OrdersFit(input, input.bound) && SettleAll(db, input.trades).Ok? && k <= |input.trades|
    ensures SettlesTo(db, input, k) && ReplayAll(input, Start(input), input.trades[..k]).clean
    decreases k
  {
    if k == 0 {
      StartIs(db, input);
      assert input.trades[..0] == [];
    } else {
      ReplaysUpTo(db, input, k - 1);
      ReplaysOneMore(db, input, k - 1);
    }
  }

  lemma CleanMore(input: Input, k: nat)
    requires AllTrades(input.trades) && k < |input.trades| && ReplayAll(input, Start(input), input.trades[..k]).clean
    requires ReplayTrade(input, StateAt(input, k), input.trades[k]).Some?
    ensures ReplayAll(input, Start(input), input.trades[..k + 1]).clean
  {
    ReplayMore(input, Start(input), input.trades, k);
  }

  lemma SettlesToNext(db: Db, input: Input, k: nat, d: Db)
    requires AllTrades(input.trades) && AllWellFormed(input.trades) && k < |input.trades|
    requires SettleAll(db, input.trades[..k]) == Ok(d) && SettleTrade(d, input.trades[k]).Ok?
    requires AtStep(db, input, k + 1, SettleTrade(d, input.trades[k]).value)
    ensures SettlesTo(db, input, k + 1)
  {
    SettleMore(db, input.trades, k);
  }

  lemma TradeSettles(db: Db, input: Input, k: nat)
    requires AllTrades(input.trades) && AllWellFormed(input.trades) && k < |input.trades| && SettleAll(db, input.trades).Ok?
    ensures SettleAll(db, input.trades[..k]).Ok? && SettleTrade(SettleAll(db, input.trades[..k]).value, input.trades[k]).Ok?
  {
    PrefixSettles(db, input.trades, k);
    PrefixSettles(db, input.trades, k + 1);
    SettleMore(db, input.trades, k);
  }

  lemma ReplaysOneMore(db: Db, input: Input, k: nat)
    requires ReadFrom(db, input) && Written(db, input) && NoFeesDue(input.trades) && Recovery.IdsBelow(input.orders, input.bound)
    requires OrdersFit(input, input.bound) && SettleAll(db, input.trades).Ok? && k < |input.trades|
    requires SettlesTo(db, input, k) && ReplayAll(input, Start(input), input.trades[..k]).clean
    ensures SettlesTo(db, input, k + 1) && ReplayAll(input, Start(input), input.trades[..k + 1]).clean
  {
    var d := SettleAll(db, input.trades[..k]).value;
    SettledUpTo(db, input, k);
    TradeSettles(db, input, k);
    ReplaysFrom(db, input, k, d);
    SettlesToNext(db, input, k, d);
    CleanMore(input, k);
  }

  lemma ReplaysFrom(db: Db, input: Input, k: nat, d: Db)
    requires ReadFrom(db, input) && Written(db, input) && NoFeesDue(input.trades) && Recovery.IdsBelow(input.orders, input.bound)
    requires OrdersFit(input, input.bound) && k < |input.trades|
    requires AtStep(db, input, k, d) && SettledSoFar(db, input, k, d) && SettleTrade(d, input.trades[k]).Ok?
    ensures ReplayTrade(input, StateAt(input, k), input.trades[k]).Some?
    ensures AtStep(db, input, k + 1, SettleTrade(d, input.trades[k]).value)
  {
    SettlesSoReplays(db, input, k, d);
    ReplayMore(input, Start(input), input.trades, k);
    StepFollows(db, input, k, d);
  }

  // ---------------------------------------------------------------- exactly when

  /**
   * Nothing stands against the plan if and only if the consumer could settle
   * the missing pre-fee trades: the planner refuses no database it could
   * recover, and accepts none it could not.
   */
  lemma PlannableIffSettles(db: Db, input: Input)
    requires ReadFrom(db, input) && Written(db, input) && NoFeesDue(input.trades) && Recovery.IdsBelow(input.orders, input.bound)
    ensures (exists pre :: NothingStands(input, pre)) <==> SettleAll(db, input.trades).Ok?
  {
    if SettleAll(db, input.trades).Ok? {
      SettlesSoPlannable(db, input);
    }
    if pre :| NothingStands(input, pre) {
      PlannableSoSettles(db, input, pre);
    }
  }

  lemma SettlesSoPlannable(db: Db, input: Input)
    requires ReadFrom(db, input) && Written(db, input) && NoFeesDue(input.trades) && Recovery.IdsBelow(input.orders, input.bound)
    requires SettleAll(db, input.trades).Ok?
    ensures NothingStands(input, input)
  {
    OrdersDoFit(db, input);
    ReservationsDoFit(db, input);
    ReplaysUpTo(db, input, |input.trades|);
    assert input.trades[..|input.trades|] == input.trades;
  }

  lemma PlannableSoSettles(db: Db, input: Input, pre: Input)
    requires ReadFrom(db, input) && Recovery.IdsBelow(input.orders, input.bound) && NothingStands(input, pre)
    ensures SettleAll(db, input.trades).Ok?
  {
    NothingToAdjust(db, input, pre);
    SettleUpTo(db, input, |input.trades|);
    assert input.trades[..|input.trades|] == input.trades;
  }

  /** An order that contradicts its history always spoils the plan: a rejected one with trades, an overfill, or an ended one with trades to come. */
  lemma ContradictionSpoils(input: Input, pre: Input, o: OrderId)
    requires o in input.orders && Recovery.IdsBelow(input.orders, input.bound)
    requires
      var row, recorded := input.orders[o], QtyIn(input.recorded, o);
      (row.status == Rejected && recorded != 0) || recorded > row.qty || (IsTerminal(row.status) && row.filledQty != recorded)
    ensures !NothingStands(input, pre)
  {
    ValidOrderIff(input.orders[o], QtyIn(input.recorded, o));
  }
}
