/**
 * The recovery planner for trades whose settlement never committed: it rebuilds
 * reservations from the orders and the matching history, replays the missing
 * trades, and refuses the whole plan on any contradiction.
 */
module Recovery {
  import opened Common
  import opened Ledger
  import opened Fees
  import opened Bank
  import opened Sums
  import opened Settlement
  import opened SettlementHolds
  import opened SettlementProgress

  type Accounts = map<AccountId, Account>

  /**
   * Trades without a processed event, in replay order; every order, with ids
   * below `bound`; and per order the recorded fills, all of them and the
   * unsettled ones.
   */
  datatype Input = Input(
    trades: seq<Event>,
    orders: Orders,
    bound: nat,
    accounts: Accounts,
    holdings: Holdings,
    recorded: map<OrderId, int>,
    unsettled: map<OrderId, int>,
    symbols: set<Symbol>)

  datatype Code =
    | AccountMissing | BuyOrderInvalid | SellOrderInvalid | MarketSymbolMissing | OrderOverfilled | OrderFilledQtyMismatch
    | TradeInvalid | FeeAwareReplayRequired | InsufficientReservedCash | InsufficientCash | InsufficientHolding
    | InsufficientReservedHolding | InvalidPostState

  datatype Issue =
    | OfOrder(code: Code, order: OrderId)
    | OfTrade(code: Code, trade: ClaimId)
    | OfAccount(code: Code, account: AccountId)
    | OfHolding(code: Code, key: HoldingKey)

  datatype Adjustment = Adjustment(from: int, to: int)
  datatype PlannedOrder = PlannedOrder(filledQty: int, status: Status)

  function QtyIn(m: map<OrderId, int>, id: OrderId): int {
    if id in m then m[id] else 0
  }

  // ---------------------------------------------------------------- one order against its history

  function ValidOrderState(o: OrderRow, recorded: int): Option<Code> {
    if o.qty <= 0 || o.filledQty < 0 then Some(OrderFilledQtyMismatch)
    else if recorded > o.qty then Some(OrderOverfilled)
    else if o.filledQty > recorded then Some(OrderFilledQtyMismatch)
    else if IsTerminal(o.status) && o.filledQty != recorded then Some(OrderFilledQtyMismatch)
    else if o.status == Rejected && recorded != 0 then Some(OrderFilledQtyMismatch)
    else None
  }

  /** An order is sound exactly when its filled, recorded and ordered quantities come in this order, and an ended one has nothing to come. */
  lemma ValidOrderIff(o: OrderRow, recorded: int)
    ensures ValidOrderState(o, recorded).None? <==>
      && o.qty > 0 && 0 <= o.filledQty <= recorded <= o.qty
      && (IsActive(o.status) || o.filledQty == recorded) && (o.status == Rejected ==> recorded == 0)
  {
  }

  predicate OrderValid(input: Input, id: OrderId)
    requires id in input.orders
  {
    ValidOrderState(input.orders[id], QtyIn(input.recorded, id)).None?
  }

  /** Why an order cannot take part in reservations, if it cannot. */
  function UsableIssue(input: Input, id: OrderId): Option<Code>
    requires id in input.orders
  {
    var o, unsettled := input.orders[id], QtyIn(input.unsettled, id);
    if unsettled < 0 || unsettled > QtyIn(input.recorded, id) then Some(OrderFilledQtyMismatch)
    else if o.account !in input.accounts then Some(AccountMissing)
    else if o.side == Buy && o.holdPerUnit < 0 then Some(BuyOrderInvalid)
    else None
  }

  predicate Usable(input: Input, id: OrderId) {
    id in input.orders && UsableIssue(input, id).None?
  }

  function Remainder(input: Input, id: OrderId): int
    requires id in input.orders
  {
    if IsActive(input.orders[id].status) then Max(0, input.orders[id].qty - QtyIn(input.recorded, id)) else 0
  }

  /** Contracts an order must have reserved: its remainder, and before replay its unsettled fills too. */
  function Reserved(input: Input, id: OrderId, final: bool): int
    requires id in input.orders
  {
    Remainder(input, id) + if final then 0 else QtyIn(input.unsettled, id)
  }

  function CashTerm(input: Input, a: AccountId, final: bool, o: OrderId): int {
    if Usable(input, o) && input.orders[o].side == Buy && input.orders[o].account == a
    then input.orders[o].holdPerUnit * Reserved(input, o, final) else 0
  }

  function ShareTerm(input: Input, key: HoldingKey, final: bool, o: OrderId): int {
    if Usable(input, o) && input.orders[o].side == Sell && HoldingKey(input.orders[o].account, input.orders[o].symbol) == key
    then Reserved(input, o, final) else 0
  }

  function CashTerms(input: Input, a: AccountId, final: bool): int -> int {
    o => CashTerm(input, a, final, o)
  }

  function ShareTerms(input: Input, key: HoldingKey, final: bool): int -> int {
    o => ShareTerm(input, key, final, o)
  }

  // ---------------------------------------------------------------- reservations

  datatype Prestate = Prestate(
    issues: set<Issue>,
    accounts: Accounts,
    holdings: Holdings,
    accountAdjustments: map<AccountId, Adjustment>,
    holdingAdjustments: map<HoldingKey, Adjustment>,
    finalCash: map<AccountId, int>,
    finalShares: map<HoldingKey, int>)

  /** Every order fits its history and can take part. */
  ghost predicate OrdersFit(input: Input, n: nat) {
    forall o :: o in input.orders && o < n ==> OrderValid(input, o) && Usable(input, o)
  }

  ghost predicate CashTargetOk(input: Input, a: AccountId)
    requires a in input.accounts
  {
    0 <= Sum(CashTerms(input, a, false), input.bound) <= input.accounts[a].balance
  }

  ghost predicate ShareTargetOk(input: Input, key: HoldingKey) {
    var target := Sum(ShareTerms(input, key, false), input.bound);
    if key in input.holdings then 0 <= target <= input.holdings[key].qty else target <= 0
  }

  /** Exactly when the reservations can be rebuilt without an issue. */
  ghost predicate PrestateOk(input: Input) {
    && OrdersFit(input, input.bound)
    && (forall a :: a in input.accounts ==> CashTargetOk(input, a))
    && (forall key :: ShareTargetOk(input, key))
  }

  ghost predicate IdsBelow(orders: Orders, n: nat) {
    forall o :: o in orders ==> 0 <= o < n
  }

  /** What the rebuilt reservations are, once nothing stands against them. */
  ghost predicate Rebuilt(input: Input, p: Prestate) {
    && p.accounts.Keys == input.accounts.Keys && p.holdings.Keys == input.holdings.Keys
    && (forall a :: a in input.accounts ==> p.accounts[a] == input.accounts[a].(hold := Sum(CashTerms(input, a, false), input.bound)))
    && (forall key :: key in input.holdings ==>
          p.holdings[key] == input.holdings[key].(holdQty := Sum(ShareTerms(input, key, false), input.bound)))
    && AccountChanges(p.accountAdjustments, input.accounts, p.accounts)
    && HoldingChanges(p.holdingAdjustments, input.holdings, p.holdings)
  }

  /** The reservations that must remain after replay, for every account and holding there is. */
  ghost predicate FinalTargets(input: Input, cash: map<AccountId, int>, shares: map<HoldingKey, int>) {
    && (forall a :: a in cash <==> a in input.accounts)
    && (forall a :: a in cash ==> cash[a] == Sum(CashTerms(input, a, true), input.bound))
    && (forall key :: key in input.holdings ==> key in shares)
    && (forall key :: key in shares ==> shares[key] == Sum(ShareTerms(input, key, true), input.bound))
  }

  function AddCash(sums: map<AccountId, int>, a: AccountId, amount: int): map<AccountId, int> {
    sums[a := (if a in sums then sums[a] else 0) + amount]
  }

  function AddQty(sums: map<HoldingKey, int>, key: HoldingKey, qty: int): map<HoldingKey, int> {
    sums[key := (if key in sums then sums[key] else 0) + qty]
  }

  function CashAt(sums: map<AccountId, int>, a: AccountId): int {
    if a in sums then sums[a] else 0
  }

  function SharesAt(sums: map<HoldingKey, int>, key: HoldingKey): int {
    if key in sums then sums[key] else 0
  }

  ghost predicate CashSums(input: Input, sums: map<AccountId, int>, final: bool, n: nat) {
    (forall a :: a in sums ==> a in input.accounts) && forall a :: CashAt(sums, a) == Sum(CashTerms(input, a, final), n)
  }

  ghost predicate ShareSums(input: Input, sums: map<HoldingKey, int>, final: bool, n: nat) {
    forall key :: SharesAt(sums, key) == Sum(ShareTerms(input, key, final), n)
  }

  datatype Targets = Targets(preCash: map<AccountId, int>, finalCash: map<AccountId, int>,
                             preShares: map<HoldingKey, int>, finalShares: map<HoldingKey, int>)

  ghost predicate TargetsOk(input: Input, t: Targets, n: nat) {
    CashSums(input, t.preCash, false, n) && CashSums(input, t.finalCash, true, n) &&
    ShareSums(input, t.preShares, false, n) && ShareSums(input, t.finalShares, true, n)
  }

  /** Adds one order to the running targets. */
  function AddOrder(input: Input, t: Targets, o: OrderId): Targets
    requires Usable(input, o)
  {
    var row := input.orders[o];
    var key := HoldingKey(row.account, row.symbol);
    if row.side == Buy then
      t.(preCash := AddCash(t.preCash, row.account, row.holdPerUnit * Reserved(input, o, false)),
         finalCash := AddCash(t.finalCash, row.account, row.holdPerUnit * Reserved(input, o, true)))
    else
      t.(preShares := AddQty(t.preShares, key, Reserved(input, o, false)),
         finalShares := AddQty(t.finalShares, key, Reserved(input, o, true)))
  }

  lemma CashAdds(input: Input, sums: map<AccountId, int>, final: bool, o: nat)
    requires CashSums(input, sums, final, o)
    ensures
      var row := if o in input.orders then input.orders[o] else OrderRow(0, 0, Sell, 0, 0, 0, Open, Futures.Net);
      var after := if Usable(input, o) && row.side == Buy then AddCash(sums, row.account, row.holdPerUnit * Reserved(input, o, final)) else sums;
      CashSums(input, after, final, o + 1)
  {
  }

  lemma SharesAdd(input: Input, sums: map<HoldingKey, int>, final: bool, o: nat)
    requires ShareSums(input, sums, final, o)
    ensures
      var row := if o in input.orders then input.orders[o] else OrderRow(0, 0, Buy, 0, 0, 0, Open, Futures.Net);
      var after := if Usable(input, o) && row.side == Sell then AddQty(sums, HoldingKey(row.account, row.symbol), Reserved(input, o, final)) else sums;
      ShareSums(input, after, final, o + 1)
  {
  }

  lemma OrderAdds(input: Input, t: Targets, o: nat)
    requires TargetsOk(input, t, o)
    ensures TargetsOk(input, if Usable(input, o) then AddOrder(input, t, o) else t, o + 1)
  {
    CashAdds(input, t.preCash, false, o);
    CashAdds(input, t.finalCash, true, o);
    SharesAdd(input, t.preShares, false, o);
    SharesAdd(input, t.finalShares, true, o);
  }

  /** Walks every order once, collecting issues and adding up targets. */
  method CollectTargets(input: Input) returns (issues: set<Issue>, t: Targets)
    requires IdsBelow(input.orders, input.bound)
    ensures issues == {} <==> OrdersFit(input, input.bound)
    ensures TargetsOk(input, t, input.bound)
  {
    issues, t := {}, Targets(map[], map[], map[], map[]);
    for o := 0 to input.bound
      invariant issues == {} <==> OrdersFit(input, o)
      invariant TargetsOk(input, t, o)
    {
      OrderAdds(input, t, o);
      ghost var before := issues;
      if o in input.orders {
        var invalid := ValidOrderState(input.orders[o], QtyIn(input.recorded, o));
        if invalid.Some? {
          issues := issues + {OfOrder(invalid.value, o)};
        }
        var unusable := UsableIssue(input, o);
        if unusable.Some? {
          issues := issues + {OfOrder(unusable.value, o)};
        } else {
          t := AddOrder(input, t, o);
        }
      }
      FitOneMore(input, o);
    }
  }

  lemma FitOneMore(input: Input, o: nat)
    ensures OrdersFit(input, o + 1) <==> OrdersFit(input, o) && (o in input.orders ==> OrderValid(input, o) && Usable(input, o))
  {
  }

  function CashIssue(account: Account, target: int): Option<Code> {
    if target > account.balance then Some(InsufficientCash) else if target < 0 then Some(InvalidPostState) else None
  }

  function Held(account: Account, target: int): Account {
    if CashIssue(account, target).None? then account.(hold := target) else account
  }

  /** All accounts but those in `rest` have been given their targets. */
  predicate HeldAll(accounts: Accounts, before: Accounts, targets: map<AccountId, int>, rest: set<AccountId>) {
    accounts.Keys == before.Keys &&
    forall a :: a in before ==> accounts[a] == if a in rest then before[a] else Held(before[a], CashAt(targets, a))
  }

  /** The adjustments are exactly the differences. */
  ghost predicate AccountChanges(changes: map<AccountId, Adjustment>, before: Accounts, after: Accounts) {
    (forall a :: a in changes <==> a in before && a in after && after[a] != before[a]) &&
    forall a :: a in changes ==> a in before && a in after && changes[a] == Adjustment(before[a].hold, after[a].hold)
  }

  predicate CashAccepted(before: Accounts, targets: map<AccountId, int>, rest: set<AccountId>) {
    forall a :: a in before && a !in rest ==> CashIssue(before[a], CashAt(targets, a)).None?
  }

  lemma HeldOneMore(accounts: Accounts, before: Accounts, targets: map<AccountId, int>, rest: set<AccountId>, a: AccountId)
    requires a in before && a in rest && HeldAll(accounts, before, targets, rest)
    ensures accounts[a] == before[a]
    ensures HeldAll(accounts[a := Held(before[a], CashAt(targets, a))], before, targets, rest - {a})
    ensures CashAccepted(before, targets, rest - {a}) <==>
            CashAccepted(before, targets, rest) && CashIssue(before[a], CashAt(targets, a)).None?
  {
  }

  lemma ChangeOneMore(changes: map<AccountId, Adjustment>, before: Accounts, after: Accounts, a: AccountId, account: Account)
    requires a in before && a in after && after[a] == before[a] && AccountChanges(changes, before, after)
    ensures AccountChanges(if account != before[a] then changes[a := Adjustment(before[a].hold, account.hold)] else changes,
                           before, after[a := account])
  {
  }

  /** Sets every account's hold to its target, unless the balance cannot carry it. */
  method RebuildCash(before: Accounts, targets: map<AccountId, int>)
    returns (issues: set<Issue>, accounts: Accounts, adjustments: map<AccountId, Adjustment>)
    ensures issues == {} <==> CashAccepted(before, targets, {})
    ensures HeldAll(accounts, before, targets, {})
    ensures AccountChanges(adjustments, before, accounts)
  {
    issues, accounts, adjustments := {}, before, map[];
    var rest := before.Keys;
    while rest != {}
      invariant rest <= before.Keys
      invariant issues == {} <==> CashAccepted(before, targets, rest)
      invariant HeldAll(accounts, before, targets, rest)
      invariant AccountChanges(adjustments, before, accounts)
      decreases |rest|
    {
      var a := Pick(rest);
      var target := CashAt(targets, a);
      HeldOneMore(accounts, before, targets, rest, a);
      ChangeOneMore(adjustments, before, accounts, a, Held(before[a], target));
      assert Held(before[a], target) == before[a] ==> accounts == accounts[a := Held(before[a], target)];
      var issue := CashIssue(accounts[a], target);
      if issue.Some? {
        issues := issues + {OfAccount(issue.value, a)};
      } else if accounts[a].hold != target {
        adjustments := adjustments[a := Adjustment(accounts[a].hold, target)];
        accounts := accounts[a := accounts[a].(hold := target)];
      }
      rest := rest - {a};
    }
  }

  function ShareIssue(holding: Option<Holding>, target: int): Option<Code> {
    match holding
    case None => if target > 0 then Some(InsufficientHolding) else None
    case Some(h) => if target > h.qty then Some(InsufficientHolding) else if target < 0 then Some(InvalidPostState) else None
  }

  function HeldShares(h: Holding, target: int): Holding {
    if ShareIssue(Some(h), target).None? then h.(holdQty := target) else h
  }

  function HoldingAt(holdings: Holdings, key: HoldingKey): Option<Holding> {
    if key in holdings then Some(holdings[key]) else None
  }

  predicate HeldSharesAll(holdings: Holdings, before: Holdings, targets: map<HoldingKey, int>, rest: set<HoldingKey>) {
    holdings.Keys == before.Keys &&
    forall key :: key in before ==> holdings[key] == if key in rest then before[key] else HeldShares(before[key], SharesAt(targets, key))
  }

  ghost predicate HoldingChanges(changes: map<HoldingKey, Adjustment>, before: Holdings, after: Holdings) {
    (forall key :: key in changes <==> key in before && key in after && after[key] != before[key]) &&
    forall key :: key in changes ==> key in before && key in after && changes[key] == Adjustment(before[key].holdQty, after[key].holdQty)
  }

  predicate SharesAccepted(before: Holdings, targets: map<HoldingKey, int>, done: set<HoldingKey>) {
    forall key :: key in done ==> ShareIssue(HoldingAt(before, key), SharesAt(targets, key)).None?
  }

  lemma HeldSharesOneMore(holdings: Holdings, before: Holdings, targets: map<HoldingKey, int>, rest: set<HoldingKey>, key: HoldingKey)
    requires key in rest && HeldSharesAll(holdings, before, targets, rest)
    ensures key in before ==> holdings[key] == before[key]
    ensures HeldSharesAll(if key in before then holdings[key := HeldShares(before[key], SharesAt(targets, key))] else holdings,
                          before, targets, rest - {key})
  {
  }

  lemma AcceptOneMore(before: Holdings, targets: map<HoldingKey, int>, all: set<HoldingKey>, rest: set<HoldingKey>, key: HoldingKey)
    requires key in rest && rest <= all
    ensures SharesAccepted(before, targets, all - (rest - {key})) <==>
            SharesAccepted(before, targets, all - rest) && ShareIssue(HoldingAt(before, key), SharesAt(targets, key)).None?
  {
    assert all - (rest - {key}) == all - rest + {key};
  }

  /** Gives one holding its target, if it can carry it. */
  method SetShares(before: Holdings, holdings: Holdings, adjustments: map<HoldingKey, Adjustment>, key: HoldingKey, target: int)
    returns (holdings': Holdings, adjustments': map<HoldingKey, Adjustment>)
    requires key in before && key in holdings && holdings[key] == before[key] && HoldingChanges(adjustments, before, holdings)
    ensures holdings' == holdings[key := HeldShares(before[key], target)] && HoldingChanges(adjustments', before, holdings')
  {
    holdings', adjustments' := holdings, adjustments;
    if ShareIssue(Some(holdings[key]), target).None? && holdings[key].holdQty != target {
      adjustments' := adjustments[key := Adjustment(holdings[key].holdQty, target)];
      holdings' := holdings[key := holdings[key].(holdQty := target)];
    } else {
      assert HeldShares(before[key], target) == before[key];
      assert holdings == holdings[key := before[key]];
    }
  }

  /** Sets every holding's reservation to its target; a target without a holding behind it is an issue. */
  method RebuildShares(before: Holdings, targets: map<HoldingKey, int>)
    returns (issues: set<Issue>, holdings: Holdings, adjustments: map<HoldingKey, Adjustment>)
    ensures issues == {} <==> SharesAccepted(before, targets, targets.Keys + before.Keys)
    ensures HeldSharesAll(holdings, before, targets, {})
    ensures HoldingChanges(adjustments, before, holdings)
  {
    issues, holdings, adjustments := {}, before, map[];
    var all := targets.Keys + before.Keys;
    var rest := all;
    while rest != {}
      invariant rest <= all
      invariant issues == {} <==> SharesAccepted(before, targets, all - rest)
      invariant HeldSharesAll(holdings, before, targets, rest)
      invariant HoldingChanges(adjustments, before, holdings)
      decreases |rest|
    {
      var key := Pick(rest);
      HeldSharesOneMore(holdings, before, targets, rest, key);
      AcceptOneMore(before, targets, all, rest, key);
      var issue := ShareIssue(HoldingAt(before, key), SharesAt(targets, key));
      if issue.Some? {
        issues := issues + {OfHolding(issue.value, key)};
      }
      if key in before {
        holdings, adjustments := SetShares(before, holdings, adjustments, key, SharesAt(targets, key));
      }
      rest := rest - {key};
    }
    assert all - {} == all;
  }

  /** The reservations needed immediately before replay, and the ones that must remain after it. */
  method BuildReservationPrestate(input: Input) returns (p: Prestate)
    requires IdsBelow(input.orders, input.bound)
    ensures p.issues == {} <==> PrestateOk(input)
    ensures p.issues == {} ==> Rebuilt(input, p)
    ensures FinalTargets(input, p.finalCash, p.finalShares)
  {
    var orderIssues, t := CollectTargets(input);
    var cashIssues, accounts, accountAdjustments := RebuildCash(input.accounts, t.preCash);
    var shareIssues, holdings, holdingAdjustments := RebuildShares(input.holdings, t.preShares);
    var finalCash, finalShares := FinalSums(input, t);
    p := Prestate(orderIssues + cashIssues + shareIssues, accounts, holdings, accountAdjustments, holdingAdjustments, finalCash, finalShares);
    IssuesAre(input, t, orderIssues, cashIssues, shareIssues);
    if p.issues == {} {
      TargetsRebuild(input, t, p);
    }
  }

  /** Accounts and holdings without an order behind them must end with nothing reserved. */
  method FinalSums(input: Input, t: Targets) returns (cash: map<AccountId, int>, shares: map<HoldingKey, int>)
    requires TargetsOk(input, t, input.bound)
    ensures FinalTargets(input, cash, shares)
  {
    cash := map a | a in input.accounts :: CashAt(t.finalCash, a);
    shares := map key | key in t.finalShares.Keys + input.holdings.Keys :: SharesAt(t.finalShares, key);
    FinalCashIs(input, t, cash, shares);
  }

  lemma IssuesAre(input: Input, t: Targets, orders: set<Issue>, cash: set<Issue>, shares: set<Issue>)
    requires TargetsOk(input, t, input.bound)
    requires orders == {} <==> OrdersFit(input, input.bound)
    requires cash == {} <==> CashAccepted(input.accounts, t.preCash, {})
    requires shares == {} <==> SharesAccepted(input.holdings, t.preShares, t.preShares.Keys + input.holdings.Keys)
    ensures orders + cash + shares == {} <==> PrestateOk(input)
    ensures orders + cash + shares == {} ==>
      CashAccepted(input.accounts, t.preCash, {}) && SharesAccepted(input.holdings, t.preShares, t.preShares.Keys + input.holdings.Keys)
  {
    CashIssuesAre(input, t);
    ShareIssuesAre(input, t);
    NoIssues(orders, cash, shares);
    PrestateParts(input);
  }

  lemma NoIssues(x: set<Issue>, y: set<Issue>, z: set<Issue>)
    ensures x + y + z == {} <==> x == {} && y == {} && z == {}
  {
  }

  ghost predicate CashTargetsOk(input: Input) {
    forall a :: a in input.accounts ==> CashTargetOk(input, a)
  }

  ghost predicate ShareTargetsOk(input: Input) {
    forall key :: ShareTargetOk(input, key)
  }

  lemma PrestateParts(input: Input)
    ensures PrestateOk(input) <==> OrdersFit(input, input.bound) && CashTargetsOk(input) && ShareTargetsOk(input)
  {
  }

  lemma CashIssuesAre(input: Input, t: Targets)
    requires TargetsOk(input, t, input.bound)
    ensures CashTargetsOk(input) <==> CashAccepted(input.accounts, t.preCash, {})
  {
    forall a | a in input.accounts
      ensures CashTargetOk(input, a) <==> CashIssue(input.accounts[a], CashAt(t.preCash, a)).None?
    {
      assert CashAt(t.preCash, a) == Sum(CashTerms(input, a, false), input.bound);
    }
  }

  lemma ShareIssuesAre(input: Input, t: Targets)
    requires TargetsOk(input, t, input.bound)
    ensures ShareTargetsOk(input) <==> SharesAccepted(input.holdings, t.preShares, t.preShares.Keys + input.holdings.Keys)
  {
    forall key
      ensures ShareTargetOk(input, key) <==> ShareIssue(HoldingAt(input.holdings, key), SharesAt(t.preShares, key)).None?
      ensures key !in t.preShares.Keys + input.holdings.Keys ==> ShareTargetOk(input, key)
    {
      assert SharesAt(t.preShares, key) == Sum(ShareTerms(input, key, false), input.bound);
    }
  }

  lemma CashRebuilt(input: Input, t: Targets, a: AccountId)
    requires TargetsOk(input, t, input.bound) && CashAccepted(input.accounts, t.preCash, {}) && a in input.accounts
    ensures Held(input.accounts[a], CashAt(t.preCash, a)) == input.accounts[a].(hold := Sum(CashTerms(input, a, false), input.bound))
  {
    assert CashAt(t.preCash, a) == Sum(CashTerms(input, a, false), input.bound);
  }

  lemma SharesRebuilt(input: Input, t: Targets, key: HoldingKey)
    requires TargetsOk(input, t, input.bound) && SharesAccepted(input.holdings, t.preShares, t.preShares.Keys + input.holdings.Keys)
    requires key in input.holdings
    ensures HeldShares(input.holdings[key], SharesAt(t.preShares, key)) ==
            input.holdings[key].(holdQty := Sum(ShareTerms(input, key, false), input.bound))
  {
    assert SharesAt(t.preShares, key) == Sum(ShareTerms(input, key, false), input.bound);
    assert ShareIssue(HoldingAt(input.holdings, key), SharesAt(t.preShares, key)).None?;
  }

  /** Accepted targets are the holds. */
  lemma TargetsRebuild(input: Input, t: Targets, p: Prestate)
    requires TargetsOk(input, t, input.bound)
    requires CashAccepted(input.accounts, t.preCash, {}) && SharesAccepted(input.holdings, t.preShares, t.preShares.Keys + input.holdings.Keys)
    requires HeldAll(p.accounts, input.accounts, t.preCash, {}) && HeldSharesAll(p.holdings, input.holdings, t.preShares, {})
    requires AccountChanges(p.accountAdjustments, input.accounts, p.accounts)
    requires HoldingChanges(p.holdingAdjustments, input.holdings, p.holdings)
    ensures Rebuilt(input, p)
  {
    assert p.accounts.Keys == input.accounts.Keys && p.holdings.Keys == input.holdings.Keys;
    forall a | a in input.accounts
      ensures p.accounts[a] == input.accounts[a].(hold := Sum(CashTerms(input, a, false), input.bound))
    {
      CashRebuilt(input, t, a);
    }
    forall key | key in input.holdings
      ensures p.holdings[key] == input.holdings[key].(holdQty := Sum(ShareTerms(input, key, false), input.bound))
    {
      SharesRebuilt(input, t, key);
    }
  }

  lemma FinalCashIs(input: Input, t: Targets, cash: map<AccountId, int>, shares: map<HoldingKey, int>)
    requires TargetsOk(input, t, input.bound)
    requires cash.Keys == input.accounts.Keys && forall a :: a in cash ==> cash[a] == CashAt(t.finalCash, a)
    requires shares.Keys == t.finalShares.Keys + input.holdings.Keys
    requires forall key :: key in shares ==> shares[key] == SharesAt(t.finalShares, key)
    ensures FinalTargets(input, cash, shares)
  {
    forall a | a in input.accounts
      ensures a in cash && cash[a] == Sum(CashTerms(input, a, true), input.bound)
    {
      assert CashAt(t.finalCash, a) == Sum(CashTerms(input, a, true), input.bound);
    }
    forall key | key in shares
      ensures shares[key] == Sum(ShareTerms(input, key, true), input.bound)
    {
      assert SharesAt(t.finalShares, key) == Sum(ShareTerms(input, key, true), input.bound);
    }
  }
}
