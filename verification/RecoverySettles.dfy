/**
 * An issue-free recovery plan is the ordinary pre-fee spot settlement of the
 * missing trades: applying it leaves exactly the database that settling them one
 * by one would have left.
 */
module RecoverySettles {
  import opened Common
  import opened Ledger
  import opened Fees
  import opened Futures
  import opened Bank
  import opened BankLaws
  import opened Sums
  import opened Settlement
  import opened SettlementHolds
  import opened SettlementProgress
  import opened SettlementConfluence
  import opened Recovery
  import opened RecoveryReplay
  import opened RecoveryPlan
  import opened RecoveryEffects

  /** The consumer, settling every trade in turn. */
  function SettleAll(db: Db, trades: seq<Event>): Result<Db>
    requires AllTrades(trades) && AllWellFormed(trades)
  {
    if trades == [] then Ok(db)
    else
      var before := SettleAll(db, trades[..|trades| - 1]);
      if before.Err? then before else SettleTrade(before.value, trades[|trades| - 1])
  }

  /**
   * The planner read this database: its reservations are exact, every order's
   * filled quantity is its settled fills, and the market is spot.
   */
  ghost predicate ReadFrom(db: Db, input: Input) {
    && input.accounts == db.bank.accounts && input.holdings == db.holdings && input.orders == db.orders
    && HoldsExact(db, input.bound) && TrueSums(input) && AllTrades(input.trades) && AllWellFormed(input.trades)
    && (forall i :: 0 <= i < |input.trades| ==> input.trades[i].eventId !in db.processed)
    && (forall o :: o in db.orders ==> InstrumentOf(db.market, db.orders[o].symbol).Spot? && FilledIsSettled(input, o))
  }

  predicate FilledIsSettled(input: Input, o: OrderId)
    requires o in input.orders
  {
    QtyIn(input.recorded, o) == input.orders[o].filledQty + QtyIn(input.unsettled, o) &&
    (IsActive(input.orders[o].status) ==> input.orders[o].status == StatusFor(input.orders[o], input.orders[o].filledQty))
  }

  // ---------------------------------------------------------------- nothing to adjust

  lemma ReservedIsUnfilled(db: Db, input: Input, o: OrderId)
    requires ReadFrom(db, input) && o in input.orders && OrderValid(input, o) && Usable(input, o)
    ensures Reserved(input, o, false) == Unfilled(input.orders[o])
  {
    assert FilledIsSettled(input, o);
  }

  lemma TargetsAreHolds(db: Db, input: Input, a: AccountId, key: HoldingKey)
    requires ReadFrom(db, input) && OrdersFit(input, input.bound)
    ensures Sum(CashTerms(input, a, false), input.bound) == Sum(CashHeld(db.orders, db.market, a), input.bound)
    ensures Sum(ShareTerms(input, key, false), input.bound) == Sum(SharesHeld(db.orders, db.market, key), input.bound)
  {
    forall o | 0 <= o < input.bound
      ensures CashTerms(input, a, false)(o) == CashHeld(db.orders, db.market, a)(o)
      ensures ShareTerms(input, key, false)(o) == SharesHeld(db.orders, db.market, key)(o)
    {
      if o in input.orders {
        ReservedIsUnfilled(db, input, o);
      }
    }
    SumSame(CashTerms(input, a, false), CashHeld(db.orders, db.market, a), input.bound);
    SumSame(ShareTerms(input, key, false), SharesHeld(db.orders, db.market, key), input.bound);
  }

  /** Exact reservations leave nothing to rebuild. */
  lemma NothingToAdjust(db: Db, input: Input, pre: Input)
    requires ReadFrom(db, input) && OrdersFit(input, input.bound) && IsPre(input, pre)
    ensures pre == input
  {
    forall a | a in input.accounts
      ensures pre.accounts[a] == input.accounts[a]
    {
      TargetsAreHolds(db, input, a, HoldingKey(a, 0));
      assert CashExactFor(db, input.bound, a);
    }
    forall key | key in input.holdings
      ensures pre.holdings[key] == input.holdings[key]
    {
      TargetsAreHolds(db, input, key.account, key);
      assert SharesExactFor(db, input.bound, key);
    }
    assert pre.accounts == input.accounts && pre.holdings == input.holdings;
  }

  // ---------------------------------------------------------------- one trade, settled and replayed

  /** Without a fee, spot cash is the replayed accounts and the two consideration rows. */
  lemma FreeSpotCash(bank: Bank, deal: Deal, t: Event, held: int)
    requires t.Traded? && deal.fee == 0 && deal.buyer == t.buyer && deal.seller == t.seller
    requires t.buyer in bank.accounts && t.seller in bank.accounts && DebtOf(bank, t.buyer) >= 0 && DebtOf(bank, t.seller) >= 0
    requires var after := CashAfter(bank.accounts, t, held); CashFits(after[t.buyer]) && CashFits(after[t.seller])
    ensures SpotCash(bank, deal, Cost(t), held) ==
            Ok(Bank(CashAfter(bank.accounts, t, held), bank.debts, bank.ledger + RecoveryReplay.RowsOf(bank.accounts, t)))
  {
    var logged := Logged(bank, SpotRows(bank, deal, Cost(t)));
    var buyer := SpotPurse(PurseOf(bank, t.buyer), deal, Cost(t), held, t.buyer);
    var seller := SpotPurse(PurseOf(bank, t.seller), deal, Cost(t), held, t.seller);
    FreeCharge(logged, deal, t.buyer, buyer);
    var first := WithPurse(logged, t.buyer, buyer);
    var after := CashAfter(bank.accounts, t, held);
    assert SpotRows(bank, deal, Cost(t)) == RecoveryReplay.RowsOf(bank.accounts, t);
    if t.buyer != t.seller {
      FreeCharge(first, deal, t.seller, seller);
      assert WithPurse(first, t.seller, seller).accounts == after;
    } else {
      assert first.accounts == after;
    }
  }

  lemma FreeCharge(bank: Bank, deal: Deal, a: AccountId, p: Purse)
    requires deal.fee == 0
    ensures Charge(bank, deal, a, p) == if PurseAllowed(p) then Ok(WithPurse(bank, a, p)) else Err(CheckViolated)
  {
    assert Due(deal, a) == 0;
    assert FeeRowsOf(deal, a, p) == [];
    assert bank.ledger + [] == bank.ledger;
  }

  lemma SharesAsReplayed(holdings: Holdings, t: Event)
    requires t.Traded? && t.qty > 0 && HoldingsAllowed(holdings) && SharesFit(SellerSource(holdings, t), t)
    ensures
      var buyer, seller, source := HoldingKey(t.buyer, t.symbol), HoldingKey(t.seller, t.symbol), SellerSource(holdings, t).value;
      MoveShares(holdings, buyer, seller, t.qty, Cost(t)) ==
      Ok(Shares(holdings[buyer := BuyerHolding(holdings, t)][seller := Sold(source, t.qty)], BasisReduction(source, t.qty)))
  {
  }

  /** The row an order has after the first `k` missing trades. */
  function RowAt(input: Input, k: nat, o: OrderId): OrderRow
    requires k <= |input.trades| && o in input.orders
  {
    var row := input.orders[o];
    var filled := QtyIn(input.recorded, o) - PendingQty(input.trades, DoneIds(input.trades, k), o);
    if IsActive(row.status) then row.(filledQty := filled, status := StatusFor(row, filled)) else row
  }

  /** The database after settling the first `k` trades is the original with the replayed tables. */
  ghost predicate AtStep(db: Db, input: Input, k: nat, d: Db)
    requires AllTrades(input.trades) && k <= |input.trades|
  {
    var s := StateAt(input, k);
    && d == db.(bank := d.bank, holdings := d.holdings, realized := d.realized, orders := d.orders, processed := d.processed)
    && d.bank == Bank(s.accounts, db.bank.debts, db.bank.ledger + s.ledger)
    && d.holdings == s.holdings && d.realized == db.realized + s.realized
    && d.processed == db.processed + DoneIds(input.trades, k)
    && RowsAt(input, k, d.orders)
  }

  ghost predicate RowsAt(input: Input, k: nat, orders: Orders)
    requires k <= |input.trades|
  {
    orders.Keys == input.orders.Keys && forall o :: o in input.orders ==> orders[o] == RowAt(input, k, o)
  }

  /** A named order is active, and its row advances by the trade. */
  lemma RowAdvancesTo(db: Db, input: Input, k: nat, o: OrderId)
    requires ReadFrom(db, input) && k < |input.trades| && o in input.orders && OrderValid(input, o)
    ensures Names(input.trades[k], o) ==> StateAfterTrade(RowAt(input, k, o), input.trades[k].qty) == Ok(RowAt(input, k + 1, o))
    ensures !Names(input.trades[k], o) ==> RowAt(input, k + 1, o) == RowAt(input, k, o)
  {
    NextPending(input.trades, k, o);
    assert FilledIsSettled(input, o);
    if Names(input.trades[k], o) {
      PendingAtLeast(input.trades, {}, o, k);
      PendingAtLeast(input.trades, DoneIds(input.trades, k), o, k);
      PendingFalls(input.trades, k + 1, o);
      FilledGrows(input.orders[o], QtyIn(input.recorded, o), PendingQty(input.trades, DoneIds(input.trades, k + 1), o), input.trades[k].qty);
    }
  }

  lemma FilledGrows(row: OrderRow, recorded: int, left: int, qty: int)
    requires IsActive(row.status) && qty > 0 && left >= 0 && recorded - left - qty >= 0 && recorded <= row.qty
    ensures
      var before := row.(filledQty := recorded - left - qty, status := StatusFor(row, recorded - left - qty));
      StateAfterTrade(before, qty) == Ok(row.(filledQty := recorded - left, status := StatusFor(row, recorded - left)))
  {
  }

  /** What is pending never exceeds what was unsettled, and is never negative. */
  lemma {:induction false} PendingFalls(trades: seq<Event>, k: nat, o: OrderId)
    requires k <= |trades| && DistinctIds(trades) && AllWellFormed(trades)
    ensures 0 <= PendingQty(trades, DoneIds(trades, k), o)
    ensures forall j :: 0 <= j < k && Names(trades[j], o) ==>
      PendingQty(trades, DoneIds(trades, k), o) + trades[j].qty <= PendingQty(trades, {}, o)
    ensures PendingQty(trades, DoneIds(trades, k), o) <= PendingQty(trades, {}, o)
  {
    PendingNonNegative(trades, DoneIds(trades, k), o);
    SumNonNegative(PendingFills(trades, DoneIds(trades, k), o), |trades|);
    if k == 0 {
      assert DoneIds(trades, 0) == {};
    } else {
      PendingFalls(trades, k - 1, o);
      NextPending(trades, k - 1, o);
    }
  }

  lemma OrdersAdvanceTo(db: Db, input: Input, k: nat, orders: Orders, after: Orders)
    requires ReadFrom(db, input) && OrdersFit(input, input.bound) && k < |input.trades| && RowsAt(input, k, orders)
    requires var t := input.trades[k]; t.buyOrder in input.orders && t.sellOrder in input.orders && t.buyOrder != t.sellOrder
    requires
      var t := input.trades[k];
      after == orders[t.buyOrder := RowAt(input, k + 1, t.buyOrder)][t.sellOrder := RowAt(input, k + 1, t.sellOrder)]
    ensures RowsAt(input, k + 1, after)
  {
    forall o | o in input.orders
      ensures o in after && after[o] == RowAt(input, k + 1, o)
    {
      assert o in orders.Keys;
      RowAdvancesTo(db, input, k, o);
    }
    assert after.Keys == input.orders.Keys;
  }

  lemma FeeFree(db: Db, t: Event)
    requires t.Traded? && t.ts < TRADING_FEES_EFFECTIVE_AT
    ensures DealOf(db, t).fee == 0
  {
  }

  /** The rows one replayed trade writes. */
  function LedgerRows(s: Replayed, t: Event): seq<Row>
    requires t.Traded? && t.buyer in s.accounts && t.seller in s.accounts
  {
    RecoveryReplay.RowsOf(s.accounts, t)
  }

  function RealizedRowOf(s: Replayed, t: Event): RealizedRow
    requires t.Traded? && SellerSource(s.holdings, t).Some?
  {
    RealizedRow(t.seller, t.symbol, t.eventId, t.qty, t.price, Cost(t) - BasisReduction(SellerSource(s.holdings, t).value, t.qty))
  }

  lemma ReplayWrites(input: Input, s: Replayed, t: Event)
    requires t.Traded? && ReplayTrade(input, s, t).Some?
    ensures
      var next, held := ReplayTrade(input, s, t).value, if t.buyOrder in input.orders then input.orders[t.buyOrder].holdPerUnit * t.qty else 0;
      && TradeFits(input, s.accounts, t) && SharesFit(SellerSource(s.holdings, t), t)
      && next.accounts == CashAfter(s.accounts, t, held) && CashFits(next.accounts[t.buyer]) && CashFits(next.accounts[t.seller])
      && next.holdings == s.holdings[HoldingKey(t.buyer, t.symbol) := BuyerHolding(s.holdings, t)]
                                    [HoldingKey(t.seller, t.symbol) := Sold(SellerSource(s.holdings, t).value, t.qty)]
      && next.ledger == s.ledger + LedgerRows(s, t) && next.realized == s.realized + [RealizedRowOf(s, t)]
  {
  }

  /** The consumer's settlement of one fee-free spot trade, on the tables the planner replays it on. */
  lemma SpotAsReplayed(d: Db, input: Input, s: Replayed, t: Event, buy: OrderRow)
    requires t.Traded? && ReplayTrade(input, s, t).Some? && d.bank.accounts == s.accounts && d.holdings == s.holdings
    requires TradeFits(input, s.accounts, t) && buy.holdPerUnit == input.orders[t.buyOrder].holdPerUnit
    requires DealOf(d, t).fee == 0 && DebtOf(d.bank, t.buyer) >= 0 && DebtOf(d.bank, t.seller) >= 0 && HoldingsAllowed(d.holdings)
    requires SellerSource(s.holdings, t).Some?
    ensures
      var next := ReplayTrade(input, s, t).value;
      SettleSpot(d, t, buy) ==
      Ok(d.(bank := Bank(next.accounts, d.bank.debts, d.bank.ledger + LedgerRows(s, t)), holdings := next.holdings,
            realized := d.realized + [RealizedRowOf(s, t)]))
  {
    ReplayWrites(input, s, t);
    FreeSpotCash(d.bank, DealOf(d, t), t, buy.holdPerUnit * t.qty);
    SharesAsReplayed(d.holdings, t);
  }

  lemma StepAssets(db: Db, input: Input, k: nat, d: Db)
    requires ReadFrom(db, input) && NoFeesDue(input.trades)
    requires k < |input.trades| && AtStep(db, input, k, d) && HoldingsAllowed(d.holdings)
    requires ReplayTrade(input, StateAt(input, k), input.trades[k]) == Some(StateAt(input, k + 1))
    ensures
      var t, s := input.trades[k], StateAt(input, k + 1);
      t.buyOrder in input.orders && t.sellOrder in input.orders && t.buyOrder != t.sellOrder &&
      SettleAssets(Claim(d, t.eventId), t, RowAt(input, k, t.buyOrder), RowAt(input, k, t.sellOrder)) ==
      Ok(Claim(d, t.eventId).(bank := Bank(s.accounts, db.bank.debts, db.bank.ledger + s.ledger), holdings := s.holdings,
                              realized := db.realized + s.realized))
  {
    var t, s := input.trades[k], StateAt(input, k);
    ReplayWrites(input, s, t);
    assert InstrumentOf(db.market, input.orders[t.buyOrder].symbol).Spot?;
    FeeFree(Claim(d, t.eventId), t);
    ReplayKeepsKeys(input, Start(input), input.trades[..k]);
    assert t.buyer in s.accounts.Keys && t.seller in s.accounts.Keys;
    DebtsThere(db, d, input, k, t);
    SpotAsReplayed(Claim(d, t.eventId), input, s, t, RowAt(input, k, t.buyOrder));
    Associates(db.bank.ledger, s.ledger, LedgerRows(s, t));
    Associates(db.realized, s.realized, [RealizedRowOf(s, t)]);
  }

  lemma Associates<T>(x: seq<T>, y: seq<T>, z: seq<T>)
    ensures x + y + z == x + (y + z)
  {
  }

  lemma DebtsThere(db: Db, d: Db, input: Input, k: nat, t: Event)
    requires AllTrades(input.trades) && k <= |input.trades| && AtStep(db, input, k, d) && PursesAllowed(db.bank)
    requires t.Traded? && t.buyer in db.bank.accounts && t.seller in db.bank.accounts
    ensures DebtOf(d.bank, t.buyer) >= 0 && DebtOf(d.bank, t.seller) >= 0
  {
    assert PurseAllowed(PurseOf(db.bank, t.buyer)) && PurseAllowed(PurseOf(db.bank, t.seller));
  }

  /** A missing trade that replays settles, and leads to the next replayed state. */
  lemma StepFollows(db: Db, input: Input, k: nat, d: Db)
    requires ReadFrom(db, input) && OrdersFit(input, input.bound) && NoFeesDue(input.trades) && Recovery.IdsBelow(input.orders, input.bound)
    requires k < |input.trades| && AtStep(db, input, k, d) && HoldingsAllowed(d.holdings)
    requires ReplayTrade(input, StateAt(input, k), input.trades[k]) == Some(StateAt(input, k + 1))
    ensures SettleTrade(d, input.trades[k]).Ok? && AtStep(db, input, k + 1, SettleTrade(d, input.trades[k]).value)
  {
    var t := input.trades[k];
    StepAssets(db, input, k, d);
    NextPending(input.trades, k, t.buyOrder);
    RowAdvancesTo(db, input, k, t.buyOrder);
    RowAdvancesTo(db, input, k, t.sellOrder);
    assert t.buyOrder in d.orders.Keys && t.sellOrder in d.orders.Keys;
    var after := d.orders[t.buyOrder := RowAt(input, k + 1, t.buyOrder)][t.sellOrder := RowAt(input, k + 1, t.sellOrder)];
    OrdersAdvanceTo(db, input, k, d.orders, after);
    StepIs(db, input, k, d, after);
    var s := StateAt(input, k + 1);
    SettleTradeIs(d, t, Claim(d, t.eventId).(bank := Bank(s.accounts, db.bank.debts, db.bank.ledger + s.ledger), holdings := s.holdings,
                                             realized := db.realized + s.realized),
                  RowAt(input, k + 1, t.buyOrder), RowAt(input, k + 1, t.sellOrder));
  }

  /** One missing trade settles, and leads to the next replayed state. */
  lemma StepSettles(db: Db, input: Input, k: nat, d: Db)
    requires ReadFrom(db, input) && Plannable(input, input) && Recovery.IdsBelow(input.orders, input.bound)
    requires k < |input.trades| && AtStep(db, input, k, d)
    ensures SettleTrade(d, input.trades[k]).Ok? && AtStep(db, input, k + 1, SettleTrade(d, input.trades[k]).value)
  {
    StateStep(input, k);
    ReservedThroughout(input, input, k);
    StepFollows(db, input, k, d);
  }

  /** A trade settles by its assets and then its two order rows. */
  lemma SettleTradeIs(d: Db, t: Event, assets: Db, buy: OrderRow, sell: OrderRow)
    requires t.Traded? && WellFormed(t) && t.eventId !in d.processed && t.buyer in d.bank.accounts && t.seller in d.bank.accounts
    requires t.buyOrder in d.orders && t.sellOrder in d.orders
    requires SettleAssets(Claim(d, t.eventId), t, d.orders[t.buyOrder], d.orders[t.sellOrder]) == Ok(assets)
    requires StateAfterTrade(d.orders[t.buyOrder], t.qty) == Ok(buy) && StateAfterTrade(d.orders[t.sellOrder], t.qty) == Ok(sell)
    ensures SettleTrade(d, t) == Ok(assets.(orders := assets.orders[t.buyOrder := buy][t.sellOrder := sell]))
  {
  }

  lemma StepIs(db: Db, input: Input, k: nat, d: Db, after: Orders)
    requires AllTrades(input.trades) && k < |input.trades| && AtStep(db, input, k, d) && RowsAt(input, k + 1, after)
    requires DoneIds(input.trades, k + 1) == DoneIds(input.trades, k) + {input.trades[k].eventId}
    ensures
      var t, s := input.trades[k], StateAt(input, k + 1);
      AtStep(db, input, k + 1,
             Claim(d, t.eventId).(bank := Bank(s.accounts, db.bank.debts, db.bank.ledger + s.ledger), holdings := s.holdings,
                                  realized := db.realized + s.realized, orders := after))
  {
    var t := input.trades[k];
    assert d.processed + {t.eventId} == db.processed + DoneIds(input.trades, k + 1);
  }

  // ---------------------------------------------------------------- all of them

  lemma StartIs(db: Db, input: Input)
    requires ReadFrom(db, input) && OrdersFit(input, input.bound)
    ensures AtStep(db, input, 0, db)
  {
    assert DoneIds(input.trades, 0) == {};
    assert input.trades[..0] == [];
    assert db.bank.ledger + [] == db.bank.ledger && db.realized + [] == db.realized && db.processed + {} == db.processed;
    forall o | o in input.orders
      ensures db.orders[o] == RowAt(input, 0, o)
    {
      assert FilledIsSettled(input, o);
      assert OrderValid(input, o);
    }
  }

  ghost predicate SettlesTo(db: Db, input: Input, k: nat)
    requires AllTrades(input.trades) && AllWellFormed(input.trades) && k <= |input.trades|
  {
    SettleAll(db, input.trades[..k]).Ok? && AtStep(db, input, k, SettleAll(db, input.trades[..k]).value)
  }

  lemma SettleOneMore(db: Db, input: Input, k: nat)
    requires ReadFrom(db, input) && Plannable(input, input) && Recovery.IdsBelow(input.orders, input.bound) && k < |input.trades|
    requires SettlesTo(db, input, k)
    ensures SettlesTo(db, input, k + 1)
  {
    SettleMore(db, input.trades, k);
    StepSettles(db, input, k, SettleAll(db, input.trades[..k]).value);
  }

  lemma {:induction false} SettleUpTo(db: Db, input: Input, k: nat)
    requires ReadFrom(db, input) && Plannable(input, input) && Recovery.IdsBelow(input.orders, input.bound) && k <= |input.trades|
    ensures SettlesTo(db, input, k)
    decreases k
  {
    if k == 0 {
      StartIs(db, input);
      assert input.trades[..0] == [];
    } else {
      SettleUpTo(db, input, k - 1);
      SettleOneMore(db, input, k - 1);
    }
  }

  lemma SettleMore(db: Db, trades: seq<Event>, k: nat)
    requires AllTrades(trades) && AllWellFormed(trades) && k < |trades|
    ensures
      var before := SettleAll(db, trades[..k]);
      SettleAll(db, trades[..k + 1]) == if before.Err? then before else SettleTrade(before.value, trades[k])
  {
    assert trades[..k + 1][..k] == trades[..k];
  }

  /** The database the applied plan leaves. */
  ghost predicate PlanApplied(db: Db, plan: Plan, after: Db) {
    && after == db.(bank := after.bank, holdings := after.holdings, realized := after.realized, orders := after.orders, processed := after.processed)
    && AccountsApplied(db.bank.accounts, plan, after.bank.accounts) && HoldingsApplied(db.holdings, plan, after.holdings)
    && OrdersApplied(db.orders, plan, after.orders)
    && after.bank.debts == db.bank.debts && after.bank.ledger == db.bank.ledger + plan.ledger && after.realized == db.realized + plan.realized
    && (forall id :: id in after.processed <==> id in db.processed || id in plan.processed)
  }

  lemma {:induction false} SettledIds(input: Input, k: nat, id: ClaimId)
    requires AllTrades(input.trades) && k <= |input.trades| && Outcome(input).clean
    ensures id in StateAt(input, k).settled <==> id in DoneIds(input.trades, k)
    decreases k
  {
    if k == 0 {
      assert input.trades[..0] == [];
    } else {
      SettledIds(input, k - 1, id);
      StateStep(input, k - 1);
      assert DoneIds(input.trades, k) == DoneIds(input.trades, k - 1) + {input.trades[k - 1].eventId};
    }
  }

  lemma EndOrders(input: Input, plan: Plan, orders: Orders)
    requires RowsAt(input, |input.trades|, orders) && OrdersFit(input, input.bound) && Recovery.IdsBelow(input.orders, input.bound)
    requires PlansOrders(input, plan.orders, input.bound)
    ensures OrdersApplied(input.orders, plan, orders)
  {
    forall o | o in input.orders
      ensures orders[o] == AppliedOrder(input.orders, plan, o)
    {
      NothingPending(input.trades, o);
      PlannedRow(input, plan, o);
    }
  }

  /**
   * Settling the missing trades one by one succeeds, and leaves exactly the
   * database that applying the issue-free plan leaves; there was nothing to adjust.
   */
  lemma PlanEqualsSettlement(db: Db, input: Input, pre: Input, plan: Plan)
    requires ReadFrom(db, input) && Accepted(input, pre, plan)
    ensures pre == input && plan.accountReservations.Keys == {} && plan.holdingReservations.Keys == {}
    ensures SettleAll(db, input.trades).Ok? && PlanApplied(db, plan, SettleAll(db, input.trades).value)
  {
    NothingToAdjust(db, input, pre);
    SettleUpTo(db, input, |input.trades|);
    assert input.trades[..|input.trades|] == input.trades;
    var after := SettleAll(db, input.trades).value;
    EndTables(db, input, plan, after);
  }

  lemma EndAccounts(input: Input, plan: Plan, a: AccountId)
    requires AllTrades(input.trades) && IsPre(input, input) && Plans(input, input, plan) && a in input.accounts
    ensures a in Outcome(input).state.accounts && Outcome(input).state.accounts[a] == AppliedAccount(input.accounts, plan, a)
  {
    ReplayKeepsKeys(input, Start(input), input.trades);
    AccountWritten(input.accounts, input.accounts, Outcome(input).state, plan, a);
  }

  lemma EndHoldings(input: Input, plan: Plan, key: HoldingKey)
    requires AllTrades(input.trades) && IsPre(input, input) && Plans(input, input, plan)
    ensures
      var end := Outcome(input).state.holdings;
      (key in end <==> key in input.holdings || key in plan.holdings) &&
      (key in end ==> end[key] == AppliedHolding(input.holdings, plan, key))
  {
    ReplayKeepsKeys(input, Start(input), input.trades);
    HoldingWritten(input.holdings, input.holdings, Outcome(input).state.holdings, plan, key);
  }

  lemma EndBanks(input: Input, plan: Plan)
    requires AllTrades(input.trades) && IsPre(input, input) && Plans(input, input, plan)
    ensures AccountsApplied(input.accounts, plan, Outcome(input).state.accounts)
    ensures HoldingsApplied(input.holdings, plan, Outcome(input).state.holdings)
    ensures plan.accountReservations.Keys == {} && plan.holdingReservations.Keys == {}
  {
    ReplayKeepsKeys(input, Start(input), input.trades);
    forall a | a in input.accounts
      ensures Outcome(input).state.accounts[a] == AppliedAccount(input.accounts, plan, a)
    {
      EndAccounts(input, plan, a);
    }
    forall key
      ensures key in Outcome(input).state.holdings <==> key in input.holdings || key in plan.holdings
      ensures key in Outcome(input).state.holdings ==> Outcome(input).state.holdings[key] == AppliedHolding(input.holdings, plan, key)
    {
      EndHoldings(input, plan, key);
    }
    assert forall a :: a !in plan.accountReservations;
    assert forall key :: key !in plan.holdingReservations;
  }

  lemma EndTables(db: Db, input: Input, plan: Plan, after: Db)
    requires ReadFrom(db, input) && Accepted(input, input, plan) && AtStep(db, input, |input.trades|, after)
    ensures PlanApplied(db, plan, after)
    ensures plan.accountReservations.Keys == {} && plan.holdingReservations.Keys == {}
  {
    assert input.trades[..|input.trades|] == input.trades;
    EndBanks(input, plan);
    EndOrders(input, plan, after.orders);
    forall id
      ensures id in after.processed <==> id in db.processed || id in plan.processed
    {
      SettledIds(input, |input.trades|, id);
    }
  }
}
