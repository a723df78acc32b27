/**
 * A spot buy reserved with its fee is always funded: however matching splits it,
 * the fills and their rounded-up fees cost at most the reservation they use, so
 * no fee ever becomes debt and spot balances are confluent too.
 */
module SettlementFunding {
  import opened Arithmetic
  import opened Common
  import opened Fees
  import opened Futures
  import opened Bank
  import opened BankLaws
  import opened Settlement
  import opened SettlementHolds
  import opened SettlementProgress
  import opened SettlementConfluence
  import opened SettlementForecast

  // ---------------------------------------------------------------- fees of a split

  /** A fee is at most `x` as soon as the notional is at most ten thousand times `x`. */
  lemma FeeAtMost(notional: int, at: int, x: int)
    requires x >= 0 && notional <= 10_000 * x
    ensures TradingFee(notional, at) <= x
  {
  }

  /** The fee of a fill is at most the reserved fee of each of its shares. */
  lemma FeePerUnit(unitValue: int, price: int, qty: int, ts: int, bound: int, at: int)
    requires unitValue >= 0 && 0 <= price <= bound && qty > 0 && at >= TRADING_FEES_EFFECTIVE_AT
    ensures TradingFee(TradeNotional(unitValue, price, qty), ts) <= TradingFee(TradeNotional(unitValue, bound, 1), at) * qty
  {
    var fee := TradingFee(TradeNotional(unitValue, bound, 1), at);
    assert TradeNotional(unitValue, bound, 1) == bound * unitValue;
    MulMono(0, bound, unitValue);
    assert bound * unitValue <= 10_000 * fee;
    MulMono(price, bound, unitValue);
    MulMono(price * unitValue, 10_000 * fee, qty);
    assert price * qty * unitValue == price * unitValue * qty;
    assert 10_000 * fee * qty == 10_000 * (fee * qty);
    FeeAtMost(TradeNotional(unitValue, price, qty), ts, fee * qty);
  }

  datatype Part = Part(price: int, qty: int, ts: int)

  predicate PartsWithin(parts: seq<Part>, bound: int) {
    forall i :: 0 <= i < |parts| ==> 0 <= parts[i].price <= bound && parts[i].qty > 0
  }

  function TotalCost(parts: seq<Part>): int {
    if parts == [] then 0
    else
      var p := parts[|parts| - 1];
      TotalCost(parts[..|parts| - 1]) + p.price * p.qty + TradingFee(TradeNotional(1, p.price, p.qty), p.ts)
  }

  function TotalQty(parts: seq<Part>): int {
    if parts == [] then 0 else TotalQty(parts[..|parts| - 1]) + parts[|parts| - 1].qty
  }

  /** Any split of an order into fills at or below its bound costs at most the reservation the fills use. */
  lemma {:induction false} AnySplitIsFunded(parts: seq<Part>, bound: int, at: int)
    requires PartsWithin(parts, bound) && bound > 0 && at >= TRADING_FEES_EFFECTIVE_AT
    ensures TotalCost(parts) <= OrderHoldWithFee(bound, 1, bound, at) * TotalQty(parts)
  {
    if parts != [] {
      var p := parts[|parts| - 1];
      var hold := OrderHoldWithFee(bound, 1, bound, at);
      AnySplitIsFunded(parts[..|parts| - 1], bound, at);
      FillIsFunded(p.price, p.qty, p.ts, bound, at);
      assert hold * (TotalQty(parts[..|parts| - 1]) + p.qty) == hold * TotalQty(parts[..|parts| - 1]) + hold * p.qty;
    }
  }

  lemma FillIsFunded(price: int, qty: int, ts: int, bound: int, at: int)
    requires 0 <= price <= bound && bound > 0 && qty > 0 && at >= TRADING_FEES_EFFECTIVE_AT
    ensures price * qty + TradingFee(TradeNotional(1, price, qty), ts) <= OrderHoldWithFee(bound, 1, bound, at) * qty
  {
    FeePerUnit(1, price, qty, ts, bound, at);
    MulMono(price, bound, qty);
    var fee := TradingFee(TradeNotional(1, bound, 1), at);
    assert (bound + fee) * qty == bound * qty + fee * qty;
  }

  /**
   * A reservation made before fees took effect may fall short: one share bought
   * at its bound costs its price and a fee, against the price alone.
   */
  lemma LegacyHoldFallsShort(bound: int, at: int, ts: int)
    requires bound > 0 && at < TRADING_FEES_EFFECTIVE_AT <= ts
    ensures OrderHoldWithFee(bound, 1, bound, at) < TotalCost([Part(bound, 1, ts)])
  {
    var parts := [Part(bound, 1, ts)];
    assert parts[..0] == [];
    assert TotalCost(parts) == TotalCost(parts[..0]) + bound * 1 + TradingFee(TradeNotional(1, bound, 1), ts);
  }

  // ---------------------------------------------------------------- no debt from a funded fill

  /** Fees become debt exactly when they would take the balance below the hold. */
  lemma FeeDebtIff(cash: Cash, hold: int, due: int)
    requires due >= 0
    ensures Charged(cash, hold, due).debt > cash.debt <==> due > 0 && cash.balance - due < hold
    ensures due == 0 || cash.balance - due >= hold ==> Charged(cash, hold, due) == Cash(cash.balance - due, cash.debt)
  {
  }

  /** The reservation of the fill covers its cost and the buyer's fee, unless the buyer pays none. */
  predicate FeeCovered(deal: Deal, cost: int, held: int) {
    0 <= cost <= held && deal.fee <= cost && (deal.buyer !in deal.exempt ==> cost + deal.fee <= held)
  }

  lemma SpotNeedsNoDebt(p: Purse, deal: Deal, cost: int, held: int, c: AccountId)
    requires p.balance >= p.hold && FeeCovered(deal, cost, held)
    ensures
      var after := SpotFinal(p, deal, cost, held, c);
      after.debt == p.debt && after.balance == p.balance + OfSides(deal, c, -cost, cost) - Due(deal, c) >= after.hold
  {
    if Party(deal, c) {
      var q := SpotPurse(p, deal, cost, held, c);
      DueOf(deal, c);
      FeeDebtIff(Cash(q.balance, q.debt), q.hold, Due(deal, c));
    } else {
      OutsidersPayNothing(deal, c);
    }
  }

  lemma DueOf(deal: Deal, c: AccountId)
    ensures Due(deal, c) == if c in deal.exempt then 0 else OfSides(deal, c, deal.fee, deal.fee)
  {
  }

  // ---------------------------------------------------------------- confluent balances

  ghost predicate Covered(db: Db, ev: Event) {
    ev.Traded? && ev.buyOrder in db.orders ==>
      FeeCovered(DealOf(db, ev), Cost(ev), db.orders[ev.buyOrder].holdPerUnit * ev.qty)
  }

  ghost predicate AllCovered(db: Db, events: seq<Event>) {
    forall i :: 0 <= i < |events| ==> Covered(db, events[i])
  }

  /** A spot buy whose hold was fixed with its fee, filled at or below its bound, is covered. */
  lemma ReservedIsCovered(db: Db, ev: Event, bound: int, at: int)
    requires ev.Traded? && WellFormed(ev) && ev.buyOrder in db.orders && InstrumentOf(db.market, ev.symbol).Spot?
    requires ev.price <= bound && at >= TRADING_FEES_EFFECTIVE_AT
    requires db.orders[ev.buyOrder].holdPerUnit == OrderHoldWithFee(bound, 1, bound, at)
    ensures Covered(db, ev)
  {
    FillIsFunded(ev.price, ev.qty, ev.ts, bound, at);
    MulMono(0, ev.qty, ev.price);
    FeeAtMost(TradeNotional(1, ev.price, ev.qty), ev.ts, Cost(ev));
  }

  lemma CoveredStays(base: Db, db: Db, ev: Event)
    requires Covered(base, ev) && SameTermsAll(base, db)
    ensures Covered(db, ev)
  {
    if ev.Traded? && ev.buyOrder in db.orders {
      assert ev.buyOrder in base.orders.Keys;
    }
  }

  lemma DeliveryKeepsDebts(db: Db, ev: Event, c: AccountId, n: nat)
    requires WellFormed(ev) && Describes(db.orders, ev) && HoldsExact(db, n) && Deliver(db, ev).Ok? && Covered(db, ev)
    requires ev.Traded? ==> InstrumentOf(db.market, ev.symbol).Spot?
    requires c in db.bank.accounts
    ensures PurseOf(Deliver(db, ev).value.bank, c).debt == PurseOf(db.bank, c).debt
  {
    if ev.Ended? {
      CloseKeepsEquity(db, ev, c);
    } else if ev.eventId !in db.processed {
      SpotBank(db, ev);
      var held := db.orders[ev.buyOrder].holdPerUnit * ev.qty;
      SpotDebts(db.bank, DealOf(db, ev), Cost(ev), held, c);
    }
  }

  lemma SpotDebts(bank: Bank, deal: Deal, cost: int, held: int, c: AccountId)
    requires deal.buyer in bank.accounts && deal.seller in bank.accounts && SpotCash(bank, deal, cost, held).Ok?
    requires PurseOf(bank, c).balance >= PurseOf(bank, c).hold && FeeCovered(deal, cost, held)
    ensures PurseOf(SpotCash(bank, deal, cost, held).value, c).debt == PurseOf(bank, c).debt
  {
    SpotCashEffect(bank, deal, cost, held);
    SpotNeedsNoDebt(PurseOf(bank, c), deal, cost, held, c);
  }

  lemma DeliverTerms(db: Db, events: seq<Event>, k: nat, n: nat)
    requires Consistent(db, events) && HoldsExact(db, n) && k < |events| && WellFormed(events[k]) && Deliver(db, events[k]).Ok?
    ensures SameTermsAll(db, Deliver(db, events[k]).value)
  {
    assert Ready(db, events[k]);
    if events[k].Ended? {
      CloseTerms(db, events[k]);
    } else if IsPending(db, events[k]) {
      TradeTerms(db, events[k]);
    }
  }

  lemma TermsTrans(x: Db, y: Db, z: Db)
    requires SameTermsAll(x, y) && SameTermsAll(y, z)
    ensures SameTermsAll(x, z)
  {
    forall o | o in x.orders
      ensures SameTerms(x.orders[o], z.orders[o])
    {
      assert o in y.orders.Keys;
      assert SameTerms(x.orders[o], y.orders[o]) && SameTerms(y.orders[o], z.orders[o]);
    }
  }

  /** Funded spot fills never touch a debt, in any order of delivery. */
  lemma {:induction false} FundedRunKeepsDebts(base: Db, events: seq<Event>, order: seq<nat>, n: nat, c: AccountId)
    requires Consistent(base, events) && HoldsExact(base, n) && Plan(events) && SpotOnly(base, events) && InRange(order, |events|)
    requires AllCovered(base, events) && c in base.bank.accounts
    ensures SameTermsAll(base, DeliverAll(base, events, order))
    ensures PurseOf(DeliverAll(base, events, order).bank, c).debt == PurseOf(base.bank, c).debt
  {
    if order != [] {
      var earlier, k := order[..|order| - 1], order[|order| - 1];
      var before := DeliverAll(base, events, earlier);
      FundedRunKeepsDebts(base, events, earlier, n, c);
      RunKeepsPlan(base, events, earlier, n);
      if Deliver(before, events[k]).Ok? {
        assert Ready(before, events[k]) && Covered(base, events[k]);
        CoveredStays(base, before, events[k]);
        assert c in before.bank.accounts.Keys;
        DeliveryKeepsDebts(before, events[k], c, n);
        DeliverTerms(before, events, k, n);
        TermsTrans(base, before, Deliver(before, events[k]).value);
      }
    }
  }

  /** With every fill funded, even balances and debts do not depend on the order of delivery. */
  lemma ConfluentBalances(base: Db, events: seq<Event>, first: seq<nat>, second: seq<nat>, n: nat, c: AccountId)
    requires Consistent(base, events) && HoldsExact(base, n) && Plan(events) && SpotOnly(base, events) && AllCovered(base, events)
    requires InRange(first, |events|) && InRange(second, |events|) && c in base.bank.accounts
    requires AllSettled(DeliverAll(base, events, first), events) && AllSettled(DeliverAll(base, events, second), events)
    ensures PurseOf(DeliverAll(base, events, first).bank, c) == PurseOf(DeliverAll(base, events, second).bank, c)
  {
    FundedRunKeepsDebts(base, events, first, n, c);
    FundedRunKeepsDebts(base, events, second, n, c);
    Confluent(base, events, first, second, n);
    assert c in DeliverAll(base, events, first).bank.accounts.Keys;
  }
}
