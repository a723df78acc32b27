/**
 * The whole plan: reservations, replay and final cross-checks. With true sums of
 * unsettled fills the cross-checks cannot fire, and a plan once applied leaves
 * nothing to plan.
 */
module RecoveryPlan {
  import opened Common
  import opened Ledger
  import opened Fees
  import opened Bank
  import opened Sums
  import opened Settlement
  import opened SettlementHolds
  import opened SettlementProgress
  import opened SettlementConfluence
  import opened Recovery
  import opened RecoveryReplay

  /** `pre` is the input with its reservations rebuilt. */
  ghost predicate IsPre(input: Input, pre: Input) {
    && pre == input.(accounts := pre.accounts, holdings := pre.holdings)
    && pre.accounts.Keys == input.accounts.Keys && pre.holdings.Keys == input.holdings.Keys
    && (forall a :: a in input.accounts ==> pre.accounts[a] == input.accounts[a].(hold := Sum(CashTerms(input, a, false), input.bound)))
    && (forall key :: key in input.holdings ==>
          pre.holdings[key] == input.holdings[key].(holdQty := Sum(ShareTerms(input, key, false), input.bound)))
  }

  /** Replaying every missing trade on rebuilt reservations. */
  function Outcome(pre: Input): Replay
    requires AllTrades(pre.trades)
  {
    ReplayAll(pre, Start(pre), pre.trades)
  }

  predicate NoFeesDue(trades: seq<Event>)
    requires AllTrades(trades)
  {
    forall i :: 0 <= i < |trades| ==> trades[i].ts < TRADING_FEES_EFFECTIVE_AT
  }

  /** Nothing stands against the plan before its final cross-checks. */
  ghost predicate Plannable(input: Input, pre: Input)
    requires AllTrades(pre.trades)
  {
    PrestateOk(input) && IsPre(input, pre) && Outcome(pre).clean && NoFeesDue(pre.trades)
  }

  // ---------------------------------------------------------------- true sums

  function DoneIds(trades: seq<Event>, k: nat): set<ClaimId>
    requires k <= |trades|
  {
    set i | 0 <= i < k :: trades[i].eventId
  }

  /** Trade ids are distinct, and each order's unsettled quantity is the sum of its missing trades. */
  ghost predicate TrueSums(input: Input) {
    DistinctIds(input.trades) && forall o :: o in input.orders ==> QtyIn(input.unsettled, o) == PendingQty(input.trades, {}, o)
  }

  lemma NextPending(trades: seq<Event>, k: nat, o: OrderId)
    requires k < |trades| && DistinctIds(trades)
    ensures trades[k].eventId !in DoneIds(trades, k)
    ensures DoneIds(trades, k + 1) == DoneIds(trades, k) + {trades[k].eventId}
    ensures PendingQty(trades, DoneIds(trades, k + 1), o) ==
            PendingQty(trades, DoneIds(trades, k), o) - (if Names(trades[k], o) then trades[k].qty else 0)
  {
    assert DoneIds(trades, k + 1) == DoneIds(trades, k) + {trades[k].eventId};
    PendingShrinks(trades, DoneIds(trades, k), k, o);
  }

  lemma NothingPending(trades: seq<Event>, o: OrderId)
    ensures PendingQty(trades, DoneIds(trades, |trades|), o) == 0
  {
    SumZero(PendingFills(trades, DoneIds(trades, |trades|), o), |trades|);
  }

  // ---------------------------------------------------------------- reservations during replay

  /** What an order must still have reserved after `k` replayed trades. */
  function LeftQty(input: Input, k: nat, o: OrderId): int
    requires k <= |input.trades| && o in input.orders
  {
    Remainder(input, o) + PendingQty(input.trades, DoneIds(input.trades, k), o)
  }

  function LeftCash(input: Input, a: AccountId, k: nat): int -> int
    requires k <= |input.trades|
  {
    o => if Usable(input, o) && input.orders[o].side == Buy && input.orders[o].account == a
         then input.orders[o].holdPerUnit * LeftQty(input, k, o) else 0
  }

  function LeftShares(input: Input, key: HoldingKey, k: nat): int -> int
    requires k <= |input.trades|
  {
    o => if Usable(input, o) && input.orders[o].side == Sell && HoldingKey(input.orders[o].account, input.orders[o].symbol) == key
         then LeftQty(input, k, o) else 0
  }

  lemma LeftAtStart(input: Input, a: AccountId, key: HoldingKey)
    requires TrueSums(input)
    ensures Sum(LeftCash(input, a, 0), input.bound) == Sum(CashTerms(input, a, false), input.bound)
    ensures Sum(LeftShares(input, key, 0), input.bound) == Sum(ShareTerms(input, key, false), input.bound)
  {
    assert DoneIds(input.trades, 0) == {};
    SumSame(LeftCash(input, a, 0), CashTerms(input, a, false), input.bound);
    SumSame(LeftShares(input, key, 0), ShareTerms(input, key, false), input.bound);
  }

  lemma LeftAtEnd(input: Input, a: AccountId, key: HoldingKey)
    ensures Sum(LeftCash(input, a, |input.trades|), input.bound) == Sum(CashTerms(input, a, true), input.bound)
    ensures Sum(LeftShares(input, key, |input.trades|), input.bound) == Sum(ShareTerms(input, key, true), input.bound)
  {
    forall o
      ensures PendingQty(input.trades, DoneIds(input.trades, |input.trades|), o) == 0
    {
      NothingPending(input.trades, o);
    }
    SumSame(LeftCash(input, a, |input.trades|), CashTerms(input, a, true), input.bound);
    SumSame(LeftShares(input, key, |input.trades|), ShareTerms(input, key, true), input.bound);
  }

  /** One trade uses up its buy order's cash and its sell order's shares, and nothing else. */
  lemma LeftShrinks(input: Input, k: nat, a: AccountId, key: HoldingKey)
    requires k < |input.trades| && DistinctIds(input.trades) && Recovery.IdsBelow(input.orders, input.bound) && OrdersFit(input, input.bound)
    requires var t := input.trades[k]; t.Traded? && BuySideOk(input, t) && SellSideOk(input, t)
    ensures
      var t := input.trades[k];
      Sum(LeftCash(input, a, k + 1), input.bound) ==
      Sum(LeftCash(input, a, k), input.bound) - (if a == t.buyer then input.orders[t.buyOrder].holdPerUnit * t.qty else 0)
    ensures
      var t := input.trades[k];
      Sum(LeftShares(input, key, k + 1), input.bound) ==
      Sum(LeftShares(input, key, k), input.bound) - (if key == HoldingKey(t.seller, t.symbol) then t.qty else 0)
  {
    var t := input.trades[k];
    forall o | o in input.orders
      ensures LeftQty(input, k + 1, o) == LeftQty(input, k, o) - (if Names(t, o) then t.qty else 0)
    {
      NextPending(input.trades, k, o);
    }
    var held := input.orders[t.buyOrder].holdPerUnit;
    assert held * (LeftQty(input, k, t.buyOrder) - t.qty) == held * LeftQty(input, k, t.buyOrder) - held * t.qty;
    SumChange(LeftCash(input, a, k), LeftCash(input, a, k + 1), input.bound, t.buyOrder);
    SumChange(LeftShares(input, key, k), LeftShares(input, key, k + 1), input.bound, t.sellOrder);
  }

  /** What one replayed trade does to the holds. */
  lemma ReplayHolds(input: Input, s: Replayed, t: Event, a: AccountId, key: HoldingKey)
    requires t.Traded? && ReplayTrade(input, s, t).Some?
    ensures
      var next := ReplayTrade(input, s, t).value;
      && TradeFits(input, s.accounts, t) && next.accounts.Keys == s.accounts.Keys
      && (a in s.accounts ==>
            next.accounts[a].hold == s.accounts[a].hold - (if a == t.buyer then input.orders[t.buyOrder].holdPerUnit * t.qty else 0))
      && HoldQtyAt(next.holdings, key) == HoldQtyAt(s.holdings, key) - (if key == HoldingKey(t.seller, t.symbol) then t.qty else 0)
  {
  }

  /** Accounts and holdings stay within the database's checks throughout a replay. */
  lemma ReplayStaysAllowed(input: Input, s: Replayed, t: Event)
    requires t.Traded? && ReplayTrade(input, s, t).Some?
    requires (forall a :: a in s.accounts ==> CashFits(s.accounts[a])) && HoldingsAllowed(s.holdings)
    ensures
      var next := ReplayTrade(input, s, t).value;
      (forall a :: a in next.accounts ==> CashFits(next.accounts[a])) && HoldingsAllowed(next.holdings)
  {
  }

  ghost predicate Allowed(s: Replayed) {
    (forall a :: a in s.accounts ==> CashFits(s.accounts[a])) && HoldingsAllowed(s.holdings)
  }

  ghost predicate CashReserved(input: Input, accounts: Accounts, k: nat)
    requires k <= |input.trades|
  {
    forall a :: a in accounts ==> accounts[a].hold == Sum(LeftCash(input, a, k), input.bound)
  }

  ghost predicate SharesReserved(input: Input, holdings: Holdings, k: nat)
    requires k <= |input.trades|
  {
    forall key :: HoldQtyAt(holdings, key) == Sum(LeftShares(input, key, k), input.bound)
  }

  /** The state after `k` trades, when all of them replayed. */
  ghost predicate ReservedAt(input: Input, s: Replayed, k: nat)
    requires k <= |input.trades|
  {
    s.accounts.Keys == input.accounts.Keys && Allowed(s) && CashReserved(input, s.accounts, k) && SharesReserved(input, s.holdings, k)
  }

  lemma ReservedStart(input: Input, pre: Input)
    requires PrestateOk(input) && TrueSums(input) && IsPre(input, pre)
    ensures ReservedAt(input, Start(pre), 0)
  {
    var s := Start(pre);
    forall a | a in s.accounts
      ensures CashFits(s.accounts[a]) && s.accounts[a].hold == Sum(LeftCash(input, a, 0), input.bound)
    {
      assert CashTargetOk(input, a);
      LeftAtStart(input, a, HoldingKey(a, 0));
    }
    forall key
      ensures HoldQtyAt(s.holdings, key) == Sum(LeftShares(input, key, 0), input.bound)
      ensures key in s.holdings ==> HoldingAllowed(s.holdings[key])
    {
      assert ShareTargetOk(input, key);
      LeftAtStart(input, key.account, key);
      SharesNonNegative(input, key);
    }
  }

  lemma SharesNonNegative(input: Input, key: HoldingKey)
    requires OrdersFit(input, input.bound)
    ensures Sum(ShareTerms(input, key, false), input.bound) >= 0
  {
    assert NonNegative(ShareTerms(input, key, false), input.bound);
    SumNonNegative(ShareTerms(input, key, false), input.bound);
  }

  /** `t` replays next: the orders fit, whichever tables the replay is on. */
  ghost predicate CanReplay(input: Input, pre: Input, s: Replayed, k: nat) {
    k < |input.trades| && input.trades[k].Traded? && DistinctIds(input.trades) && Recovery.IdsBelow(input.orders, input.bound) &&
    OrdersFit(input, input.bound) && pre == input.(accounts := pre.accounts, holdings := pre.holdings) &&
    ReplayTrade(pre, s, input.trades[k]).Some?
  }

  lemma CashStep(input: Input, pre: Input, s: Replayed, k: nat)
    requires CanReplay(input, pre, s, k) && CashReserved(input, s.accounts, k)
    ensures CashReserved(input, ReplayTrade(pre, s, input.trades[k]).value.accounts, k + 1)
  {
    var t := input.trades[k];
    var key := HoldingKey(t.seller, t.symbol);
    forall a | a in ReplayTrade(pre, s, t).value.accounts
      ensures ReplayTrade(pre, s, t).value.accounts[a].hold == Sum(LeftCash(input, a, k + 1), input.bound)
    {
      ReplayHolds(pre, s, t, a, key);
      LeftShrinks(input, k, a, key);
    }
  }

  lemma SharesStep(input: Input, pre: Input, s: Replayed, k: nat)
    requires CanReplay(input, pre, s, k) && SharesReserved(input, s.holdings, k)
    ensures SharesReserved(input, ReplayTrade(pre, s, input.trades[k]).value.holdings, k + 1)
  {
    var t := input.trades[k];
    forall key
      ensures HoldQtyAt(ReplayTrade(pre, s, t).value.holdings, key) == Sum(LeftShares(input, key, k + 1), input.bound)
    {
      ReplayHolds(pre, s, t, t.buyer, key);
      LeftShrinks(input, k, t.buyer, key);
    }
  }

  lemma ReservedStep(input: Input, pre: Input, s: Replayed, k: nat)
    requires CanReplay(input, pre, s, k) && ReservedAt(input, s, k)
    ensures ReservedAt(input, ReplayTrade(pre, s, input.trades[k]).value, k + 1)
  {
    var t := input.trades[k];
    ReplayStaysAllowed(pre, s, t);
    ReplayHolds(pre, s, t, t.buyer, HoldingKey(t.seller, t.symbol));
    CashStep(input, pre, s, k);
    SharesStep(input, pre, s, k);
  }

  lemma {:induction false} CleanPrefix(input: Input, start: Replayed, trades: seq<Event>, k: nat)
    requires AllTrades(trades) && k <= |trades| && ReplayAll(input, start, trades).clean
    ensures ReplayAll(input, start, trades[..k]).clean
  {
    if k < |trades| {
      assert trades[..|trades| - 1][..k] == trades[..k];
      CleanPrefix(input, start, trades[..|trades| - 1], k);
    } else {
      assert trades[..k] == trades;
    }
  }

  /** The simulated tables after the first `k` trades. */
  function StateAt(pre: Input, k: nat): Replayed
    requires AllTrades(pre.trades) && k <= |pre.trades|
  {
    ReplayAll(pre, Start(pre), pre.trades[..k]).state
  }

  lemma CleanStep(input: Input, start: Replayed, trades: seq<Event>, k: nat)
    requires AllTrades(trades) && k < |trades| && ReplayAll(input, start, trades[..k + 1]).clean
    ensures ReplayTrade(input, ReplayAll(input, start, trades[..k]).state, trades[k]) == Some(ReplayAll(input, start, trades[..k + 1]).state)
  {
    assert trades[..k + 1][..k] == trades[..k];
  }

  /** In a clean plan each trade replays on the state its predecessors left. */
  lemma StateStep(pre: Input, k: nat)
    requires AllTrades(pre.trades) && k < |pre.trades| && Outcome(pre).clean
    ensures ReplayTrade(pre, StateAt(pre, k), pre.trades[k]) == Some(StateAt(pre, k + 1))
  {
    CleanPrefix(pre, Start(pre), pre.trades, k + 1);
    CleanStep(pre, Start(pre), pre.trades, k);
  }

  lemma {:induction false} ReservedThroughout(input: Input, pre: Input, k: nat)
    requires AllTrades(pre.trades) && k <= |pre.trades| && Plannable(input, pre) && TrueSums(input)
    requires Recovery.IdsBelow(input.orders, input.bound) && k <= |input.trades|
    ensures ReservedAt(input, StateAt(pre, k), k)
    decreases k
  {
    if k == 0 {
      ReservedStart(input, pre);
    } else {
      ReservedThroughout(input, pre, k - 1);
      StateStep(pre, k - 1);
      ReservedStep(input, pre, StateAt(pre, k - 1), k - 1);
    }
  }

  /** With true sums and no other issue, replay ends exactly at the final reservations: the cross-checks cannot fire. */
  lemma CrossChecksNeverFire(input: Input, pre: Input, a: AccountId, key: HoldingKey)
    requires AllTrades(pre.trades) && Plannable(input, pre) && TrueSums(input) && Recovery.IdsBelow(input.orders, input.bound)
    ensures
      var end := Outcome(pre).state;
      && end.accounts.Keys == input.accounts.Keys && Allowed(end)
      && (a in input.accounts ==> end.accounts[a].hold == Sum(CashTerms(input, a, true), input.bound))
      && HoldQtyAt(end.holdings, key) == Sum(ShareTerms(input, key, true), input.bound)
  {
    ReservedThroughout(input, pre, |pre.trades|);
    assert pre.trades[..|pre.trades|] == pre.trades;
    LeftAtEnd(input, a, key);
  }

  // ---------------------------------------------------------------- building the plan

  datatype Plan = Plan(
    issues: set<Issue>,
    accountReservations: map<AccountId, Adjustment>,
    holdingReservations: map<HoldingKey, Adjustment>,
    processed: seq<ClaimId>,
    ledger: seq<Row>,
    realized: seq<RealizedRow>,
    accounts: Accounts,
    holdings: Holdings,
    orders: map<OrderId, PlannedOrder>)

  method FeeIssues(trades: seq<Event>) returns (issues: set<Issue>)
    requires AllTrades(trades)
    ensures issues == {} <==> NoFeesDue(trades)
  {
    issues := {};
    for k := 0 to |trades|
      invariant issues == {} <==> NoFeesDue(trades[..k])
    {
      if trades[k].ts >= TRADING_FEES_EFFECTIVE_AT {
        issues := issues + {OfTrade(FeeAwareReplayRequired, trades[k].eventId)};
        assert !NoFeesDue(trades[..k + 1]) by {
          assert trades[..k + 1][k] == trades[k];
        }
      } else {
        OneMoreFree(trades, k);
      }
    }
    assert trades[..|trades|] == trades;
  }

  lemma OneMoreFree(trades: seq<Event>, k: nat)
    requires AllTrades(trades) && k < |trades| && trades[k].ts < TRADING_FEES_EFFECTIVE_AT
    ensures NoFeesDue(trades[..k + 1]) <==> NoFeesDue(trades[..k])
  {
    if NoFeesDue(trades[..k + 1]) {
      assert forall i :: 0 <= i < k ==> trades[..k][i] == trades[..k + 1][i];
    }
  }

  /** Compares the simulated holds with the final targets, account by account and holding by holding. */
  method CrossCheck(accounts: Accounts, holdings: Holdings, finalCash: map<AccountId, int>, finalShares: map<HoldingKey, int>)
    returns (issues: set<Issue>)
    ensures issues == {} <==>
      (forall a :: a in finalCash && a in accounts ==> accounts[a].hold == finalCash[a]) &&
      (forall key :: key in finalShares && key in holdings ==> holdings[key].holdQty == finalShares[key])
  {
    var cash := CheckCash(accounts, finalCash);
    var shares := CheckShares(holdings, finalShares);
    issues := cash + shares;
  }

  method CheckCash(accounts: Accounts, targets: map<AccountId, int>) returns (issues: set<Issue>)
    ensures issues == {} <==> forall a :: a in targets && a in accounts ==> accounts[a].hold == targets[a]
  {
    issues := {};
    var rest := targets.Keys;
    while rest != {}
      invariant rest <= targets.Keys
      invariant issues == {} <==> forall a :: a in targets.Keys - rest && a in accounts ==> accounts[a].hold == targets[a]
      decreases |rest|
    {
      var a := Pick(rest);
      if a in accounts && accounts[a].hold != targets[a] {
        issues := issues + {OfAccount(InvalidPostState, a)};
      }
      rest := rest - {a};
    }
  }

  method CheckShares(holdings: Holdings, targets: map<HoldingKey, int>) returns (issues: set<Issue>)
    ensures issues == {} <==> forall key :: key in targets && key in holdings ==> holdings[key].holdQty == targets[key]
  {
    issues := {};
    var rest := targets.Keys;
    while rest != {}
      invariant rest <= targets.Keys
      invariant issues == {} <==> forall key :: key in targets.Keys - rest && key in holdings ==> holdings[key].holdQty == targets[key]
      decreases |rest|
    {
      var key := Pick(rest);
      if key in holdings && holdings[key].holdQty != targets[key] {
        issues := issues + {OfHolding(InvalidPostState, key)};
      }
      rest := rest - {key};
    }
  }

  /** The rows of an issue-free plan are those of its clean replay. */
  ghost predicate Plans(input: Input, pre: Input, plan: Plan)
    requires AllTrades(pre.trades)
  {
    var end := Outcome(pre).state;
    && AccountChanges(plan.accountReservations, input.accounts, pre.accounts)
    && HoldingChanges(plan.holdingReservations, input.holdings, pre.holdings)
    && plan.processed == end.settled && plan.ledger == end.ledger && plan.realized == end.realized
    && ChangedAccounts(plan.accounts, pre.accounts, end) && ChangedHoldings(plan.holdings, pre.holdings, end.holdings)
    && PlansOrders(input, plan.orders, input.bound)
  }

  /** The replay ends at the reservations that active orders still need. */
  ghost predicate EndsReserved(input: Input, pre: Input)
    requires AllTrades(pre.trades)
  {
    var end := Outcome(pre).state;
    && (forall a :: a in input.accounts && a in end.accounts ==> end.accounts[a].hold == Sum(CashTerms(input, a, true), input.bound))
    && (forall key :: key in input.holdings && key in end.holdings ==>
          end.holdings[key].holdQty == Sum(ShareTerms(input, key, true), input.bound))
  }

  ghost predicate NothingStands(input: Input, pre: Input) {
    AllTrades(pre.trades) && Plannable(input, pre)
  }

  /** A plan made from rebuilt reservations against which nothing stands. */
  ghost predicate SoundPlan(input: Input, pre: Input, plan: Plan) {
    NothingStands(input, pre) && EndsReserved(input, pre) && Plans(input, pre, plan)
  }

  /**
   * An issue-free plan is the clean replay on rebuilt reservations, ending at
   * the final ones; and with true sums of unsettled fills a plan is issue-free
   * whenever nothing stood against it before its final cross-checks.
   */
  method BuildRecoveryPlan(input: Input) returns (plan: Plan)
    requires Recovery.IdsBelow(input.orders, input.bound) && AllTrades(input.trades)
    ensures plan.issues == {} ==> exists pre :: SoundPlan(input, pre, plan)
    ensures TrueSums(input) ==> (plan.issues == {} <==> exists pre :: NothingStands(input, pre))
  {
    var p := BuildReservationPrestate(input);
    var pre := input.(accounts := p.accounts, holdings := p.holdings);
    var settlement := BuildSettlementPlan(pre);
    var fees := FeeIssues(input.trades);
    var cross := CrossCheck(settlement.state.accounts, settlement.state.holdings, p.finalCash, p.finalShares);
    plan := Plan(p.issues + settlement.issues + (fees + cross), p.accountAdjustments, p.holdingAdjustments, settlement.state.settled,
                 settlement.state.ledger, settlement.state.realized, settlement.accounts, settlement.holdings, settlement.orders);
    NoIssues(p.issues, settlement.issues, fees + cross);
    NoIssues(fees, cross, {});
    assert fees + cross + {} == fees + cross;
    OnlyPre(input, pre);
    if plan.issues == {} {
      SoundWhenSilent(input, p, settlement, plan);
    } else if TrueSums(input) && NothingStands(input, pre) {
      CrossChecksPass(input, pre, p);
    }
  }

  /** What the parts found nothing against is a sound plan. */
  lemma SoundWhenSilent(input: Input, p: Prestate, s: SettlementPlan, plan: Plan)
    requires AllTrades(input.trades) && PrestateOk(input) && Rebuilt(input, p) && FinalTargets(input, p.finalCash, p.finalShares)
    requires
      var pre := input.(accounts := p.accounts, holdings := p.holdings);
      var end := Outcome(pre).state;
      && Outcome(pre).clean && NoFeesDue(input.trades) && s.state == end
      && ChangedAccounts(s.accounts, pre.accounts, end) && ChangedHoldings(s.holdings, pre.holdings, end.holdings)
      && PlansOrders(pre, s.orders, input.bound)
      && (forall a :: a in p.finalCash && a in end.accounts ==> end.accounts[a].hold == p.finalCash[a])
      && (forall key :: key in p.finalShares && key in end.holdings ==> end.holdings[key].holdQty == p.finalShares[key])
    requires plan == Plan({}, p.accountAdjustments, p.holdingAdjustments, s.state.settled, s.state.ledger, s.state.realized, s.accounts, s.holdings, s.orders)
    ensures SoundPlan(input, input.(accounts := p.accounts, holdings := p.holdings), plan)
  {
    SameValidity(input, input.(accounts := p.accounts, holdings := p.holdings), s.orders);
  }

  /** There is only one way to rebuild the reservations. */
  lemma OnePre(input: Input, pre: Input, other: Input)
    requires IsPre(input, pre) && IsPre(input, other)
    ensures pre == other
  {
    forall a | a in pre.accounts ensures pre.accounts[a] == other.accounts[a] {
      assert a in input.accounts;
    }
    forall key | key in pre.holdings ensures pre.holdings[key] == other.holdings[key] {
      assert key in input.holdings;
    }
    assert pre.accounts == other.accounts && pre.holdings == other.holdings;
  }

  lemma OnlyPre(input: Input, pre: Input)
    requires PrestateOk(input) ==> IsPre(input, pre)
    ensures (exists other :: NothingStands(input, other)) ==> NothingStands(input, pre)
  {
    if other :| NothingStands(input, other) {
      OnePre(input, other, pre);
    }
  }

  /** Orders are judged by their history alone. */
  lemma SameValidity(input: Input, other: Input, planned: map<OrderId, PlannedOrder>)
    requires other == input.(accounts := other.accounts, holdings := other.holdings)
    ensures OrdersFit(input, input.bound) ==> OrdersValid(other, input.bound)
    ensures PlansOrders(other, planned, input.bound) ==> PlansOrders(input, planned, input.bound)
  {
    assert forall o :: o in input.orders ==> OrderValid(other, o) == OrderValid(input, o);
    assert forall o :: o in input.orders ==> OrderChanges(other, o) == OrderChanges(input, o) && PlannedFor(other, o) == PlannedFor(input, o);
  }

  lemma CrossChecksPass(input: Input, pre: Input, p: Prestate)
    requires AllTrades(pre.trades) && Plannable(input, pre) && TrueSums(input) && Recovery.IdsBelow(input.orders, input.bound)
    requires FinalTargets(input, p.finalCash, p.finalShares)
    ensures
      var end := Outcome(pre).state;
      && (forall a :: a in p.finalCash && a in end.accounts ==> end.accounts[a].hold == p.finalCash[a])
      && (forall key :: key in p.finalShares && key in end.holdings ==> end.holdings[key].holdQty == p.finalShares[key])
  {
    var end := Outcome(pre).state;
    forall a | a in p.finalCash && a in end.accounts
      ensures end.accounts[a].hold == p.finalCash[a]
    {
      CrossChecksNeverFire(input, pre, a, HoldingKey(a, 0));
    }
    forall key | key in p.finalShares && key in end.holdings
      ensures end.holdings[key].holdQty == p.finalShares[key]
    {
      CrossChecksNeverFire(input, pre, key.account, key);
    }
  }
}
