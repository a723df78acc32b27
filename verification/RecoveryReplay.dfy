/** Replaying the missing trades on the rebuilt reservations, and the plan that comes out of it. */
module RecoveryReplay {
  import opened Common
  import opened Ledger
  import opened Fees
  import opened Bank
  import opened Settlement
  import opened SettlementHolds
  import opened Recovery

  /** The simulated tables, the accounts and trades replayed so far, and the rows to be written. */
  datatype Replayed = Replayed(accounts: Accounts, bumped: set<AccountId>, holdings: Holdings, ledger: seq<Row>,
                               realized: seq<RealizedRow>, settled: seq<ClaimId>)

  predicate BuySideOk(input: Input, t: Event)
    requires t.Traded?
  {
    t.buyOrder in input.orders && OrderValid(input, t.buyOrder) && DescribesBuy(t, input.orders[t.buyOrder]) &&
    input.orders[t.buyOrder].holdPerUnit >= 0
  }

  predicate SellSideOk(input: Input, t: Event)
    requires t.Traded?
  {
    t.sellOrder in input.orders && OrderValid(input, t.sellOrder) && DescribesSell(t, input.orders[t.sellOrder])
  }

  /** The trade names a known symbol, sound orders that match it, and accounts that exist. */
  predicate TradeFits(input: Input, accounts: Accounts, t: Event)
    requires t.Traded?
  {
    t.price > 0 && t.qty > 0 && t.symbol in input.symbols && BuySideOk(input, t) && SellSideOk(input, t) &&
    t.buyer in accounts && t.seller in accounts
  }

  predicate CashFits(a: Account) {
    a.hold >= 0 && a.balance >= 0 && a.hold <= a.balance
  }

  /** Cash after the trade: deltas are batched per account, so a self-trade only uses up its reservation. */
  function CashAfter(accounts: Accounts, t: Event, held: int): Accounts
    requires t.Traded? && t.buyer in accounts && t.seller in accounts
  {
    var paid := accounts[t.buyer := Account(accounts[t.buyer].balance - Cost(t), accounts[t.buyer].hold - held)];
    paid[t.seller := paid[t.seller].(balance := paid[t.seller].balance + Cost(t))]
  }

  function RowsOf(accounts: Accounts, t: Event): seq<Row>
    requires t.Traded? && t.buyer in accounts && t.seller in accounts
  {
    var paid := accounts[t.buyer].balance - Cost(t);
    [Row(t.buyer, -Cost(t), paid, TradeBuy),
     Row(t.seller, Cost(t), (if t.buyer == t.seller then paid else accounts[t.seller].balance) + Cost(t), TradeSell)]
  }

  function BuyerHolding(holdings: Holdings, t: Event): Holding
    requires t.Traded?
  {
    Bought(holdings, HoldingKey(t.buyer, t.symbol), t.qty, Cost(t))
  }

  /** The seller's holding as the consumer would read it: after the buyer's is written. */
  function SellerSource(holdings: Holdings, t: Event): Option<Holding>
    requires t.Traded?
  {
    HoldingAt(holdings[HoldingKey(t.buyer, t.symbol) := BuyerHolding(holdings, t)], HoldingKey(t.seller, t.symbol))
  }

  predicate SharesFit(source: Option<Holding>, t: Event)
    requires t.Traded?
  {
    source.Some? && source.value.qty >= t.qty && source.value.holdQty >= t.qty &&
    HoldingAllowed(Sold(source.value, t.qty)) && Sold(source.value, t.qty).costBasis >= 0
  }

  /** One missing trade, replayed as the consumer would have settled it; `None` on any contradiction. */
  function ReplayTrade(input: Input, s: Replayed, t: Event): Option<Replayed>
    requires t.Traded?
  {
    if !TradeFits(input, s.accounts, t) then None
    else
      var accounts := CashAfter(s.accounts, t, input.orders[t.buyOrder].holdPerUnit * t.qty);
      var source := SellerSource(s.holdings, t);
      if !CashFits(accounts[t.buyer]) || !CashFits(accounts[t.seller]) || !SharesFit(source, t) then None
      else
        var basis := BasisReduction(source.value, t.qty);
        Some(Replayed(accounts, s.bumped + {t.buyer, t.seller},
                      s.holdings[HoldingKey(t.buyer, t.symbol) := BuyerHolding(s.holdings, t)]
                                [HoldingKey(t.seller, t.symbol) := Sold(source.value, t.qty)],
                      s.ledger + RowsOf(s.accounts, t),
                      s.realized + [RealizedRow(t.seller, t.symbol, t.eventId, t.qty, t.price, Cost(t) - basis)],
                      s.settled + [t.eventId]))
  }

  datatype Replay = Replay(state: Replayed, clean: bool)

  predicate AllTrades(trades: seq<Event>) {
    forall i :: 0 <= i < |trades| ==> trades[i].Traded?
  }

  /** All trades in order; one that contradicts the tables is skipped, and spoils the plan. */
  function ReplayAll(input: Input, start: Replayed, trades: seq<Event>): Replay
    requires AllTrades(trades)
  {
    if trades == [] then Replay(start, true)
    else
      var before := ReplayAll(input, start, trades[..|trades| - 1]);
      match ReplayTrade(input, before.state, trades[|trades| - 1])
      case None => Replay(before.state, false)
      case Some(next) => Replay(next, before.clean)
  }

  predicate TookPart(trades: seq<Event>, a: AccountId)
    requires AllTrades(trades)
  {
    exists i :: 0 <= i < |trades| && (trades[i].buyer == a || trades[i].seller == a)
  }

  lemma MarksParties(input: Input, s: Replayed, t: Event, a: AccountId)
    requires t.Traded? && ReplayTrade(input, s, t).Some?
    ensures a in ReplayTrade(input, s, t).value.bumped <==> a in s.bumped || a == t.buyer || a == t.seller
  {
  }

  /** A clean replay marks exactly the accounts that traded, whether or not their money ends where it was. */
  lemma {:induction false} TradersAreMarked(input: Input, start: Replayed, trades: seq<Event>, a: AccountId)
    requires AllTrades(trades) && ReplayAll(input, start, trades).clean
    ensures a in ReplayAll(input, start, trades).state.bumped <==> a in start.bumped || TookPart(trades, a)
  {
    if trades != [] {
      var last := |trades| - 1;
      TradersAreMarked(input, start, trades[..last], a);
      MarksParties(input, ReplayAll(input, start, trades[..last]).state, trades[last], a);
      assert forall i :: 0 <= i < last ==> trades[..last][i] == trades[i];
    }
  }

  function StatusFor(o: OrderRow, recorded: int): Status {
    if recorded >= o.qty then Filled else if recorded > 0 then Partial else Open
  }

  /** An active order's row once all its recorded fills are settled, if that changes it. */
  predicate OrderChanges(input: Input, id: OrderId)
    requires id in input.orders
  {
    var o, recorded := input.orders[id], QtyIn(input.recorded, id);
    OrderValid(input, id) && IsActive(o.status) && (o.filledQty != recorded || o.status != StatusFor(o, recorded))
  }

  function PlannedFor(input: Input, id: OrderId): PlannedOrder
    requires id in input.orders
  {
    PlannedOrder(QtyIn(input.recorded, id), StatusFor(input.orders[id], QtyIn(input.recorded, id)))
  }

  ghost predicate OrdersValid(input: Input, n: nat) {
    forall o :: o in input.orders && o < n ==> OrderValid(input, o)
  }

  ghost predicate PlansOrders(input: Input, planned: map<OrderId, PlannedOrder>, n: nat) {
    forall o :: (o in planned <==> o in input.orders && o < n && OrderChanges(input, o)) &&
                (o in planned ==> planned[o] == PlannedFor(input, o))
  }

  datatype SettlementPlan = SettlementPlan(issues: set<Issue>, state: Replayed, accounts: Accounts, holdings: Holdings,
                                           orders: map<OrderId, PlannedOrder>)

  function Start(input: Input): Replayed {
    Replayed(input.accounts, {}, input.holdings, [], [], [])
  }

  /** Exactly the accounts a trade touched or whose hold was corrected, as they end up. */
  ghost predicate ChangedAccounts(changed: Accounts, before: Accounts, s: Replayed) {
    (forall a :: a in changed <==> a in s.accounts && (a !in before || s.accounts[a] != before[a] || a in s.bumped)) &&
    forall a :: a in changed && a in s.accounts ==> changed[a] == s.accounts[a]
  }

  ghost predicate ChangedHoldings(changed: Holdings, before: Holdings, after: Holdings) {
    (forall key :: key in changed <==> key in after && (key !in before || after[key] != before[key])) &&
    forall key :: key in changed && key in after ==> changed[key] == after[key]
  }

  method SelectChanges(input: Input, s: Replayed) returns (accounts: Accounts, holdings: Holdings)
    ensures ChangedAccounts(accounts, input.accounts, s) && ChangedHoldings(holdings, input.holdings, s.holdings)
  {
    accounts := map a | a in s.accounts && (a !in input.accounts || s.accounts[a] != input.accounts[a] || a in s.bumped) :: s.accounts[a];
    holdings := map key | key in s.holdings && (key !in input.holdings || s.holdings[key] != input.holdings[key]) :: s.holdings[key];
  }

  method ValidateOrders(input: Input) returns (issues: set<Issue>, invalid: set<OrderId>)
    requires Recovery.IdsBelow(input.orders, input.bound)
    ensures issues == {} <==> OrdersValid(input, input.bound)
    ensures forall o :: o in invalid <==> o in input.orders && !OrderValid(input, o)
  {
    issues, invalid := {}, {};
    for o := 0 to input.bound
      invariant issues == {} <==> OrdersValid(input, o)
      invariant forall id :: id in invalid <==> id in input.orders && id < o && !OrderValid(input, id)
    {
      if o in input.orders {
        var issue := ValidOrderState(input.orders[o], QtyIn(input.recorded, o));
        if issue.Some? {
          invalid := invalid + {o};
          issues := issues + {OfOrder(issue.value, o)};
        }
      }
    }
  }

  /** What is wrong with a trade before it is replayed. */
  method CheckTrade(input: Input, invalid: set<OrderId>, accounts: Accounts, t: Event) returns (issues: set<Issue>)
    requires t.Traded? && forall o :: o in invalid <==> o in input.orders && !OrderValid(input, o)
    ensures issues == {} <==> TradeFits(input, accounts, t)
  {
    issues := {};
    if t.price <= 0 || t.qty <= 0 {
      issues := issues + {OfTrade(TradeInvalid, t.eventId)};
    }
    if t.symbol !in input.symbols {
      issues := issues + {OfTrade(MarketSymbolMissing, t.eventId)};
    }
    if t.buyOrder !in input.orders || t.buyOrder in invalid {
      issues := issues + {OfTrade(BuyOrderInvalid, t.eventId)};
    } else if !DescribesBuy(t, input.orders[t.buyOrder]) || input.orders[t.buyOrder].holdPerUnit < 0 {
      issues := issues + {OfOrder(BuyOrderInvalid, t.buyOrder)};
    }
    if t.sellOrder !in input.orders || t.sellOrder in invalid {
      issues := issues + {OfTrade(SellOrderInvalid, t.eventId)};
    } else if !DescribesSell(t, input.orders[t.sellOrder]) {
      issues := issues + {OfOrder(SellOrderInvalid, t.sellOrder)};
    }
    if t.buyer !in accounts {
      issues := issues + {OfAccount(AccountMissing, t.buyer)};
    }
    if t.seller !in accounts {
      issues := issues + {OfAccount(AccountMissing, t.seller)};
    }
  }

  /** What is wrong with one account after the trade. */
  function CashIssues(a: AccountId, account: Account): set<Issue> {
    (if account.hold < 0 then {OfAccount(InsufficientReservedCash, a)} else {}) +
    (if account.balance < 0 then {OfAccount(InsufficientCash, a)} else {}) +
    (if account.hold > account.balance then {OfAccount(InvalidPostState, a)} else {})
  }

  function ShareIssues(source: Option<Holding>, t: Event): set<Issue>
    requires t.Traded?
  {
    var key := HoldingKey(t.seller, t.symbol);
    if source.None? || source.value.qty < t.qty then {OfHolding(InsufficientHolding, key)}
    else if source.value.holdQty < t.qty then {OfHolding(InsufficientReservedHolding, key)}
    else if !HoldingAllowed(Sold(source.value, t.qty)) || Sold(source.value, t.qty).costBasis < 0 then {OfHolding(InvalidPostState, key)}
    else {}
  }

  lemma IssuesSay(accounts: Accounts, t: Event, source: Option<Holding>)
    requires t.Traded? && t.buyer in accounts && t.seller in accounts
    ensures CashIssues(t.buyer, accounts[t.buyer]) == {} <==> CashFits(accounts[t.buyer])
    ensures CashIssues(t.seller, accounts[t.seller]) == {} <==> CashFits(accounts[t.seller])
    ensures ShareIssues(source, t) == {} <==> SharesFit(source, t)
  {
  }

  /** Replays one trade on the simulated tables, or reports why it cannot. */
  method ReplayOne(input: Input, invalid: set<OrderId>, s: Replayed, t: Event) returns (issues: set<Issue>, next: Replayed)
    requires t.Traded? && forall o :: o in invalid <==> o in input.orders && !OrderValid(input, o)
    ensures issues == {} <==> ReplayTrade(input, s, t).Some?
    ensures issues == {} ==> ReplayTrade(input, s, t) == Some(next)
    ensures issues != {} ==> next == s
  {
    next := s;
    issues := CheckTrade(input, invalid, s.accounts, t);
    if issues != {} {
      return;
    }
    var held := input.orders[t.buyOrder].holdPerUnit * t.qty;
    var accounts := s.accounts[t.buyer := Account(s.accounts[t.buyer].balance - Cost(t), s.accounts[t.buyer].hold - held)];
    accounts := accounts[t.seller := accounts[t.seller].(balance := accounts[t.seller].balance + Cost(t))];
    var source := SellerSource(s.holdings, t);
    IssuesSay(accounts, t, source);
    issues := CashIssues(t.buyer, accounts[t.buyer]) + CashIssues(t.seller, accounts[t.seller]);
    issues := issues + ShareIssues(source, t);
    if issues != {} {
      NotAllClean(t, accounts, source);
      return;
    }
    NoIssues(CashIssues(t.buyer, accounts[t.buyer]), CashIssues(t.seller, accounts[t.seller]), ShareIssues(source, t));
    var basis := BasisReduction(source.value, t.qty);
    var holdings := s.holdings[HoldingKey(t.buyer, t.symbol) := BuyerHolding(s.holdings, t)];
    holdings := holdings[HoldingKey(t.seller, t.symbol) := Sold(source.value, t.qty)];
    next := Replayed(accounts, s.bumped + {t.buyer, t.seller}, holdings, s.ledger + RowsOf(s.accounts, t),
                     s.realized + [RealizedRow(t.seller, t.symbol, t.eventId, t.qty, t.price, Cost(t) - basis)],
                     s.settled + [t.eventId]);
  }

  lemma NotAllClean(t: Event, accounts: Accounts, source: Option<Holding>)
    requires t.Traded? && t.buyer in accounts && t.seller in accounts
    requires CashIssues(t.buyer, accounts[t.buyer]) + CashIssues(t.seller, accounts[t.seller]) + ShareIssues(source, t) != {}
    ensures !CashFits(accounts[t.buyer]) || !CashFits(accounts[t.seller]) || !SharesFit(source, t)
  {
    IssuesSay(accounts, t, source);
  }

  lemma ReplayMore(input: Input, start: Replayed, trades: seq<Event>, k: nat)
    requires AllTrades(trades) && k < |trades|
    ensures
      var before, next := ReplayAll(input, start, trades[..k]), ReplayTrade(input, ReplayAll(input, start, trades[..k]).state, trades[k]);
      ReplayAll(input, start, trades[..k + 1]) == if next.Some? then Replay(next.value, before.clean) else Replay(before.state, false)
  {
    assert trades[..k + 1][..k] == trades[..k];
  }

  /** Replays the trades in order, skipping those that contradict the tables. */
  method ReplayTrades(input: Input, invalid: set<OrderId>) returns (issues: set<Issue>, s: Replayed)
    requires AllTrades(input.trades) && forall o :: o in invalid <==> o in input.orders && !OrderValid(input, o)
    ensures s == ReplayAll(input, Start(input), input.trades).state
    ensures issues == {} <==> ReplayAll(input, Start(input), input.trades).clean
  {
    issues, s := {}, Start(input);
    for k := 0 to |input.trades|
      invariant s == ReplayAll(input, Start(input), input.trades[..k]).state
      invariant issues == {} <==> ReplayAll(input, Start(input), input.trades[..k]).clean
    {
      ReplayMore(input, Start(input), input.trades, k);
      var found, next := ReplayOne(input, invalid, s, input.trades[k]);
      issues, s := issues + found, next;
    }
    assert input.trades[..|input.trades|] == input.trades;
  }

  /** Validates every order, replays every missing trade, and plans the rows of active orders. */
  method BuildSettlementPlan(input: Input) returns (plan: SettlementPlan)
    requires Recovery.IdsBelow(input.orders, input.bound) && AllTrades(input.trades)
    ensures plan.issues == {} <==> OrdersValid(input, input.bound) && ReplayAll(input, Start(input), input.trades).clean
    ensures plan.state == ReplayAll(input, Start(input), input.trades).state
    ensures ChangedAccounts(plan.accounts, input.accounts, plan.state) && ChangedHoldings(plan.holdings, input.holdings, plan.state.holdings)
    ensures PlansOrders(input, plan.orders, input.bound)
  {
    var orderIssues, invalid := ValidateOrders(input);
    var tradeIssues, s := ReplayTrades(input, invalid);
    var planned := PlanOrders(input, invalid);
    var accounts, holdings := SelectChanges(input, s);
    plan := SettlementPlan(orderIssues + tradeIssues, s, accounts, holdings, planned);
  }

  method PlanOrders(input: Input, invalid: set<OrderId>) returns (planned: map<OrderId, PlannedOrder>)
    requires Recovery.IdsBelow(input.orders, input.bound) && forall o :: o in invalid <==> o in input.orders && !OrderValid(input, o)
    ensures PlansOrders(input, planned, input.bound)
  {
    planned := map[];
    for o := 0 to input.bound
      invariant PlansOrders(input, planned, o)
    {
      if o in input.orders && o !in invalid && IsActive(input.orders[o].status) {
        var recorded := QtyIn(input.recorded, o);
        var status := StatusFor(input.orders[o], recorded);
        if input.orders[o].filledQty != recorded || input.orders[o].status != status {
          planned := planned[o := PlannedOrder(recorded, status)];
        }
      }
    }
  }
}
