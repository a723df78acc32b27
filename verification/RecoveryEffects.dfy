/** Applying an issue-free plan, and planning again: there is nothing left to do. */
module RecoveryEffects {
  import opened Common
  import opened Bank
  import opened Sums
  import opened Settlement
  import opened SettlementHolds
  import opened SettlementProgress
  import opened Recovery
  import opened RecoveryReplay
  import opened RecoveryPlan

  // ---------------------------------------------------------------- applying a plan

  /** Stage one restores reservations, stage two writes the replayed accounts over them. */
  function AppliedAccount(before: Accounts, plan: Plan, a: AccountId): Account
    requires a in before
  {
    if a in plan.accounts then plan.accounts[a]
    else if a in plan.accountReservations then before[a].(hold := plan.accountReservations[a].to)
    else before[a]
  }

  function AppliedHolding(before: Holdings, plan: Plan, key: HoldingKey): Holding
    requires key in before || key in plan.holdings
  {
    if key in plan.holdings then plan.holdings[key]
    else if key in plan.holdingReservations then before[key].(holdQty := plan.holdingReservations[key].to)
    else before[key]
  }

  function AppliedOrder(before: Orders, plan: Plan, o: OrderId): OrderRow
    requires o in before
  {
    if o in plan.orders then before[o].(filledQty := plan.orders[o].filledQty, status := plan.orders[o].status) else before[o]
  }

  ghost predicate AccountsApplied(before: Accounts, plan: Plan, after: Accounts) {
    after.Keys == before.Keys && forall a :: a in before ==> after[a] == AppliedAccount(before, plan, a)
  }

  ghost predicate HoldingsApplied(before: Holdings, plan: Plan, after: Holdings) {
    (forall key :: key in after <==> key in before || key in plan.holdings) &&
    forall key :: key in after && (key in before || key in plan.holdings) ==> after[key] == AppliedHolding(before, plan, key)
  }

  ghost predicate OrdersApplied(before: Orders, plan: Plan, after: Orders) {
    after.Keys == before.Keys && forall o :: o in before ==> after[o] == AppliedOrder(before, plan, o)
  }

  /** The planner's input once the plan is applied: nothing unsettled, the same matching history. */
  ghost predicate IsNext(input: Input, plan: Plan, next: Input) {
    && next == input.(trades := [], unsettled := map[], accounts := next.accounts, holdings := next.holdings, orders := next.orders)
    && AccountsApplied(input.accounts, plan, next.accounts)
    && HoldingsApplied(input.holdings, plan, next.holdings)
    && OrdersApplied(input.orders, plan, next.orders)
  }

  lemma AccountWritten(before: Accounts, pre: Accounts, s: Replayed, plan: Plan, a: AccountId)
    requires a in before && a in pre && a in s.accounts && pre[a] == before[a].(hold := pre[a].hold)
    requires AccountChanges(plan.accountReservations, before, pre) && ChangedAccounts(plan.accounts, pre, s)
    ensures AppliedAccount(before, plan, a) == s.accounts[a]
  {
  }

  lemma HoldingWritten(before: Holdings, pre: Holdings, after: Holdings, plan: Plan, key: HoldingKey)
    requires pre.Keys == before.Keys && before.Keys <= after.Keys
    requires key in before ==> pre[key] == before[key].(holdQty := pre[key].holdQty)
    requires HoldingChanges(plan.holdingReservations, before, pre) && ChangedHoldings(plan.holdings, pre, after)
    ensures key in after <==> key in before || key in plan.holdings
    ensures key in after ==> AppliedHolding(before, plan, key) == after[key]
  {
  }

  lemma {:induction false} ReplayKeepsKeys(input: Input, start: Replayed, trades: seq<Event>)
    requires AllTrades(trades)
    ensures ReplayAll(input, start, trades).state.accounts.Keys == start.accounts.Keys
    ensures start.holdings.Keys <= ReplayAll(input, start, trades).state.holdings.Keys
  {
    if trades != [] {
      ReplayKeepsKeys(input, start, trades[..|trades| - 1]);
      var before := ReplayAll(input, start, trades[..|trades| - 1]).state;
      if ReplayTrade(input, before, trades[|trades| - 1]).Some? {
        StepKeepsKeys(input, before, trades[|trades| - 1]);
      }
    }
  }

  lemma StepKeepsKeys(input: Input, s: Replayed, t: Event)
    requires t.Traded? && ReplayTrade(input, s, t).Some?
    ensures ReplayTrade(input, s, t).value.accounts.Keys == s.accounts.Keys
    ensures s.holdings.Keys <= ReplayTrade(input, s, t).value.holdings.Keys
  {
  }

  ghost predicate Accepted(input: Input, pre: Input, plan: Plan) {
    Recovery.IdsBelow(input.orders, input.bound) && AllTrades(pre.trades) && TrueSums(input) && Plannable(input, pre) && Plans(input, pre, plan)
  }

  /** Applying an issue-free plan writes exactly the replayed tables. */
  lemma AppliedTables(input: Input, pre: Input, plan: Plan, next: Input, a: AccountId, key: HoldingKey)
    requires Accepted(input, pre, plan) && IsNext(input, plan, next)
    ensures
      var end := Outcome(pre).state;
      && (a in next.accounts <==> a in end.accounts) && (a in end.accounts ==> next.accounts[a] == end.accounts[a])
      && (key in next.holdings <==> key in end.holdings) && (key in end.holdings ==> next.holdings[key] == end.holdings[key])
  {
    var end := Outcome(pre).state;
    ReplayKeepsKeys(pre, Start(pre), pre.trades);
    if a in input.accounts {
      AccountWritten(input.accounts, pre.accounts, end, plan, a);
    }
    assert key in input.holdings <==> key in pre.holdings;
    HoldingWritten(input.holdings, pre.holdings, end.holdings, plan, key);
  }

  // ---------------------------------------------------------------- planning again

  /** An order whose planned change is applied fits its history, needs no change, and reserves its remainder. */
  lemma SettledOrderFits(input: Input, pre: Input, plan: Plan, next: Input, o: OrderId)
    requires Accepted(input, pre, plan) && IsNext(input, plan, next) && o in input.orders
    ensures o in next.orders && OrderValid(next, o) && Usable(next, o) && Usable(input, o) && !OrderChanges(next, o)
    ensures Reserved(next, o, false) == Reserved(input, o, true)
    ensures
      next.orders[o].account == input.orders[o].account && next.orders[o].symbol == input.orders[o].symbol &&
      next.orders[o].side == input.orders[o].side && next.orders[o].holdPerUnit == input.orders[o].holdPerUnit
  {
    assert OrderValid(input, o) && Usable(input, o);
    assert o in next.orders.Keys;
    assert next.orders[o] == AppliedOrder(input.orders, plan, o);
    assert input.orders[o].account in next.accounts.Keys;
    PlannedRow(input, plan, o);
  }

  lemma PlannedRow(input: Input, plan: Plan, o: OrderId)
    requires PlansOrders(input, plan.orders, input.bound) && Recovery.IdsBelow(input.orders, input.bound) && o in input.orders && OrderValid(input, o)
    ensures
      var row, recorded := input.orders[o], QtyIn(input.recorded, o);
      AppliedOrder(input.orders, plan, o) ==
      if IsActive(row.status) then row.(filledQty := recorded, status := StatusFor(row, recorded)) else row
  {
  }

  lemma SameTargets(input: Input, pre: Input, plan: Plan, next: Input, a: AccountId, key: HoldingKey)
    requires Accepted(input, pre, plan) && IsNext(input, plan, next)
    ensures Sum(CashTerms(next, a, false), input.bound) == Sum(CashTerms(input, a, true), input.bound)
    ensures Sum(ShareTerms(next, key, false), input.bound) == Sum(ShareTerms(input, key, true), input.bound)
  {
    forall o | 0 <= o < input.bound
      ensures CashTerms(next, a, false)(o) == CashTerms(input, a, true)(o)
      ensures ShareTerms(next, key, false)(o) == ShareTerms(input, key, true)(o)
    {
      if o in input.orders {
        SettledOrderFits(input, pre, plan, next, o);
      } else {
        assert o !in next.orders.Keys;
      }
    }
    SumSame(CashTerms(next, a, false), CashTerms(input, a, true), input.bound);
    SumSame(ShareTerms(next, key, false), ShareTerms(input, key, true), input.bound);
  }

  /** Every target of the second plan is the hold the first one left. */
  lemma TargetsHeld(input: Input, pre: Input, plan: Plan, next: Input, a: AccountId, key: HoldingKey)
    requires Accepted(input, pre, plan) && IsNext(input, plan, next)
    ensures a in next.accounts ==> Sum(CashTerms(next, a, false), next.bound) == next.accounts[a].hold && CashFits(next.accounts[a])
    ensures Sum(ShareTerms(next, key, false), next.bound) == HoldQtyAt(next.holdings, key)
    ensures key in next.holdings ==> HoldingAllowed(next.holdings[key])
  {
    AppliedTables(input, pre, plan, next, a, key);
    CrossChecksNeverFire(input, pre, a, key);
    SameTargets(input, pre, plan, next, a, key);
  }

  lemma NextPrestateOk(input: Input, pre: Input, plan: Plan, next: Input)
    requires Accepted(input, pre, plan) && IsNext(input, plan, next)
    ensures PrestateOk(next) && IsPre(next, next)
  {
    forall o | o in next.orders && o < next.bound
      ensures OrderValid(next, o) && Usable(next, o)
    {
      assert o in input.orders.Keys;
      SettledOrderFits(input, pre, plan, next, o);
    }
    forall a | a in next.accounts
      ensures CashTargetOk(next, a) && next.accounts[a] == next.accounts[a].(hold := Sum(CashTerms(next, a, false), next.bound))
    {
      TargetsHeld(input, pre, plan, next, a, HoldingKey(a, 0));
    }
    forall key
      ensures ShareTargetOk(next, key)
      ensures key in next.holdings ==> next.holdings[key] == next.holdings[key].(holdQty := Sum(ShareTerms(next, key, false), next.bound))
    {
      TargetsHeld(input, pre, plan, next, 0, key);
    }
  }

  predicate Empty(plan: Plan) {
    plan.accountReservations.Keys == {} && plan.holdingReservations.Keys == {} && plan.processed == [] && plan.ledger == [] &&
    plan.realized == [] && plan.accounts.Keys == {} && plan.holdings.Keys == {} && plan.orders.Keys == {}
  }

  lemma EmptyPlan(input: Input, plan: Plan)
    requires input.trades == [] && IsPre(input, input) && Plans(input, input, plan)
    requires forall o :: o in input.orders ==> !OrderChanges(input, o)
    ensures Empty(plan)
  {
    assert Outcome(input).state == Start(input);
    forall a
      ensures a !in plan.accountReservations && a !in plan.accounts
    {
    }
    forall key
      ensures key !in plan.holdingReservations && key !in plan.holdings
    {
    }
    forall o
      ensures o !in plan.orders
    {
    }
  }

  /** Planning again on the applied state is issue-free, and whatever is planned there is empty. */
  lemma NothingLeftToPlan(input: Input, pre: Input, plan: Plan, next: Input, again: Plan)
    requires Accepted(input, pre, plan) && IsNext(input, plan, next) && Plans(next, next, again)
    ensures TrueSums(next) && Plannable(next, next)
    ensures Empty(again)
  {
    NextPrestateOk(input, pre, plan, next);
    assert Outcome(next).clean;
    forall o | o in next.orders
      ensures !OrderChanges(next, o)
    {
      assert o in input.orders.Keys;
      SettledOrderFits(input, pre, plan, next, o);
    }
    EmptyPlan(next, again);
  }
}
