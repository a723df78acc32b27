/**
 * The settlement consumer as it runs: a lock context whose tables are written
 * step by step, at most one update per account, rolled back on any failure. Its
 * methods compute exactly the transactions of the settlement functions.
 */
module SettlementWorker {
  import opened Common
  import opened Ledger
  import opened Fees
  import opened Futures
  import opened Bank
  import opened BankLaws
  import opened Settlement
  import opened SettlementHolds
  import opened SettlementConfluence

  /** The tables inside one transaction, and the accounts it has already updated. */
  class LockContext {
    var bank: Bank
    var positions: Positions
    var realized: seq<RealizedRow>
    var updated: set<AccountId>

    constructor (db: Db)
      ensures bank == db.bank && positions == db.positions && realized == db.realized && updated == {}
    {
      bank, positions, realized := db.bank, db.positions, db.realized;
      updated := {};
    }

    /** An account may be written once per transaction: its version was read only once. */
    method UpdateAccount(a: AccountId, balance: int, hold: int) returns (ok: bool)
      requires a !in updated
      modifies this`bank, this`updated
      ensures ok <==> balance >= 0 && 0 <= hold <= balance
      ensures updated == old(updated) + {a}
      ensures bank == if ok then old(bank).(accounts := old(bank).accounts[a := Account(balance, hold)]) else old(bank)
    {
      updated := updated + {a};
      ok := balance >= 0 && 0 <= hold <= balance;
      if ok {
        bank := bank.(accounts := bank.accounts[a := Account(balance, hold)]);
      }
    }

    method WriteLedger(rows: seq<Row>)
      modifies this`bank
      ensures bank == Logged(old(bank), rows)
    {
      bank := Logged(bank, rows);
    }

    method WriteDebt(a: AccountId, amount: int)
      modifies this`bank
      ensures bank == old(bank).(debts := old(bank).debts[a := amount])
    {
      bank := bank.(debts := bank.debts[a := amount]);
    }

    /** The last step of a fill for one account: its fees, then its one update. */
    method ChargeParty(deal: Deal, notional: int, ts: int, a: AccountId, p: Purse) returns (r: Result<bool>)
      requires a !in updated && Party(deal, a) && deal.fee == TradingFee(notional, ts)
      requires p.debt == DebtOf(bank, a) >= 0
      modifies this`bank, this`updated
      ensures updated == old(updated) + {a}
      ensures r.Ok? ==> Charge(old(bank), deal, a, p) == Ok(bank)
      ensures r.Err? ==> Charge(old(bank), deal, a, p) == Err(r.error)
    {
      var cash, ledger := SettleTradingFees(notional, ts, a in deal.exempt, a, deal.buyer, deal.seller, Cash(p.balance, p.debt), p.hold, bank.ledger);
      ghost var charged := ChargedPurse(deal, a, p);
      assert charged == Purse(cash.balance, p.hold, cash.debt);
      ChargeSteps(bank, deal, a, p, charged);
      bank := bank.(ledger := ledger);
      if cash.debt != p.debt {
        WriteDebt(a, cash.debt);
      }
      var ok := UpdateAccount(a, cash.balance, p.hold);
      r := if ok then Ok(true) else Err(CheckViolated);
    }

    /** The two consideration rows of a spot fill, on running balances. */
    method WriteConsideration(deal: Deal, cost: int)
      requires deal.buyer in bank.accounts && deal.seller in bank.accounts
      modifies this`bank
      ensures bank == Logged(old(bank), SpotRows(old(bank), deal, cost))
    {
      var running := map a | a in {deal.buyer, deal.seller} :: bank.accounts[a].balance;
      ghost var rows := SpotRows(bank, deal, cost);
      running := running[deal.buyer := running[deal.buyer] - cost];
      WriteLedger([Row(deal.buyer, -cost, running[deal.buyer], TradeBuy)]);
      running := running[deal.seller := running[deal.seller] + cost];
      WriteLedger([Row(deal.seller, cost, running[deal.seller], TradeSell)]);
      assert rows == [rows[0]] + [rows[1]];
      assert bank.ledger == old(bank).ledger + rows;
    }

    /** One charge per party, each on its account as read plus its delta. */
    method ChargeParties(deal: Deal, notional: int, ts: int, accounts: map<AccountId, Account>, deltas: map<AccountId, CashDelta>)
      returns (r: Result<bool>)
      requires deal.fee == TradingFee(notional, ts) && updated == {}
      requires deal.buyer in accounts && deal.seller in accounts && deal.buyer in deltas && deal.seller in deltas
      requires DebtOf(bank, deal.buyer) >= 0 && DebtOf(bank, deal.seller) >= 0
      modifies this`bank, this`updated
      ensures updated <= {deal.buyer, deal.seller}
      ensures
        ChargeBoth(old(bank), deal, AfterDelta(accounts[deal.buyer], deltas[deal.buyer], DebtOf(old(bank), deal.buyer)),
                   AfterDelta(accounts[deal.seller], deltas[deal.seller], DebtOf(old(bank), deal.seller)))
        == if r.Ok? then Ok(bank) else Err(r.error)
    {
      var parties := if deal.buyer == deal.seller then [deal.buyer] else [deal.buyer, deal.seller];
      ghost var start := bank;
      ghost var buyer := AfterDelta(accounts[deal.buyer], deltas[deal.buyer], DebtOf(bank, deal.buyer));
      for i := 0 to |parties|
        invariant updated == set a | a in parties[..i]
        invariant i == 0 ==> bank == start
        invariant i == 1 ==> Charge(start, deal, deal.buyer, buyer) == Ok(bank)
        invariant i == 2 ==>
          ChargeBoth(start, deal, buyer, AfterDelta(accounts[deal.seller], deltas[deal.seller], DebtOf(start, deal.seller))) == Ok(bank)
      {
        var a := parties[i];
        if i == 1 {
          DebtKept(start, deal, deal.buyer, buyer, a);
        }
        r := ChargeParty(deal, notional, ts, a, AfterDelta(accounts[a], deltas[a], DebtOf(bank, a)));
        if r.Err? {
          return;
        }
      }
      r := Ok(true);
    }

    /** Spot cash: deltas per account, the consideration rows, then one charge per account. */
    method SettleSpotCash(deal: Deal, notional: int, ts: int, cost: int, held: int) returns (r: Result<bool>)
      requires deal.fee == TradingFee(notional, ts) && deal.buyer in bank.accounts && deal.seller in bank.accounts
      requires updated == {} && DebtOf(bank, deal.buyer) >= 0 && DebtOf(bank, deal.seller) >= 0
      modifies this`bank, this`updated
      ensures updated <= {deal.buyer, deal.seller}
      ensures SpotCash(old(bank), deal, cost, held) == if r.Ok? then Ok(bank) else Err(r.error)
    {
      var deltas := AddDelta(AddDelta(map[], deal.buyer, -cost, -held), deal.seller, cost, 0);
      SpotByDeltas(bank, deal, cost, held);
      WriteConsideration(deal, cost);
      r := ChargeParties(deal, notional, ts, bank.accounts, deltas);
    }

    /** One leg of a derivative fill: its position row and, if it closed contracts, what it realized. */
    method SettleOneLeg(i: Instrument, ev: Event, key: PositionKey, side: Side) returns (r: Result<FillResult>)
      requires ev.Traded? && ev.qty > 0
      modifies this`positions, this`realized
      ensures r.Ok? ==> SettleLeg(old(positions), i, key, side, ev.price, ev.qty) == Ok(LegResult(positions, r.value))
      ensures r.Ok? ==> realized == old(realized) + RealizedRows(key, ev, r.value)
      ensures r.Err? ==> SettleLeg(old(positions), i, key, side, ev.price, ev.qty) == Err(r.error)
    {
      var existing := PositionAt(positions, key);
      var fill := if key.row == Net then ApplyFutureFill(UnitValue(i), existing.position, side, ev.price, ev.qty)
                  else ApplyHedgeFill(UnitValue(i), existing.position, key.row, side, ev.price, ev.qty);
      var row := PositionRow(fill.position, MarginHeld(i, fill.position, existing.leverage), existing.leverage);
      if !PositionAllowed(key.row, row) {
        return Err(CheckViolated);
      }
      positions := positions[key := row];
      if fill.closedQty > 0 {
        realized := realized + [RealizedRow(key.account, ev.symbol, ev.eventId, fill.closedQty, ev.price, fill.realized)];
      }
      r := Ok(fill);
    }

    /** Both legs in turn, adding up per account what they release and what they realize. */
    method SettleBothLegs(i: Instrument, ev: Event, buy: OrderRow, sell: OrderRow, ghost db: Db)
      returns (r: Result<bool>, release: map<AccountId, int>, profit: map<AccountId, int>)
      requires ev.Traded? && ev.qty > 0 && i == InstrumentOf(db.market, ev.symbol) && positions == db.positions && realized == db.realized
      modifies this`positions, this`realized
      ensures r.Err? ==> SettleLegs(db, ev, buy, sell) == Err(r.error)
      ensures r.Ok? ==>
        var legs := SettleLegs(db, ev, buy, sell);
        && legs.Ok? && positions == legs.value.positions
        && realized == db.realized + RealizedRows(LegKey(i, ev.symbol, buy, ev.buyer), ev, legs.value.buy) +
             RealizedRows(LegKey(i, ev.symbol, sell, ev.seller), ev, legs.value.sell)
        && SumsTo(release, DealOf(db, ev), FreedBy(ev, buy, sell).buy, FreedBy(ev, buy, sell).sell)
        && SumsTo(profit, DealOf(db, ev), legs.value.buy.realized, legs.value.sell.realized)
    {
      release, profit := map[], map[];
      var accounts, sides, orders := [ev.buyer, ev.seller], [Buy, Sell], [buy, sell];
      ghost var bought := SettleLeg(db.positions, i, LegKey(i, ev.symbol, buy, ev.buyer), Buy, ev.price, ev.qty);
      for j := 0 to 2
        invariant j == 0 ==> positions == db.positions && realized == db.realized && release == map[] && profit == map[]
        invariant j == 1 ==>
          && bought.Ok? && positions == bought.value.positions
          && realized == db.realized + RealizedRows(LegKey(i, ev.symbol, buy, ev.buyer), ev, bought.value.fill)
          && release == map[ev.buyer := buy.holdPerUnit * ev.qty] && profit == map[ev.buyer := bought.value.fill.realized]
        invariant j == 2 ==>
          var legs := SettleLegs(db, ev, buy, sell);
          && legs.Ok? && positions == legs.value.positions
          && realized == db.realized + RealizedRows(LegKey(i, ev.symbol, buy, ev.buyer), ev, legs.value.buy) +
               RealizedRows(LegKey(i, ev.symbol, sell, ev.seller), ev, legs.value.sell)
          && release == AddTo(map[ev.buyer := buy.holdPerUnit * ev.qty], ev.seller, sell.holdPerUnit * ev.qty)
          && profit == AddTo(map[ev.buyer := legs.value.buy.realized], ev.seller, legs.value.sell.realized)
      {
        var fill := SettleOneLeg(i, ev, LegKey(i, ev.symbol, orders[j], accounts[j]), sides[j]);
        if fill.Err? {
          r := Err(fill.error);
          return;
        }
        release := AddTo(release, accounts[j], orders[j].holdPerUnit * ev.qty);
        profit := AddTo(profit, accounts[j], fill.value.realized);
      }
      r := Ok(true);
    }

    /** A futures party: free the order margin, settle profit against cash and debt, then charge. */
    method PayFuturesParty(deal: Deal, notional: int, ts: int, a: AccountId, account: Account, released: int, profit: int)
      returns (r: Result<bool>)
      requires a !in updated && Party(deal, a) && deal.fee == TradingFee(notional, ts) && DebtOf(bank, a) >= 0
      requires a in bank.accounts && account == bank.accounts[a]
      modifies this`bank, this`updated
      ensures updated == old(updated) + {a}
      ensures PaidWith(old(bank), deal, a, ApplyFuturesCash(Purse(account.balance, account.hold - released, DebtOf(old(bank), a)), profit), FuturesPnl)
              == if r.Ok? then Ok(bank) else Err(r.error)
    {
      ghost var start := bank;
      var debt := DebtOf(bank, a);
      var cash := ApplyFuturesCash(Purse(account.balance, account.hold - released, debt), profit);
      DebtFirst(bank, deal, a, account.balance, cash, FuturesPnl);
      if cash.balance != account.balance {
        WriteLedger([Row(a, cash.balance - account.balance, cash.balance, FuturesPnl)]);
      }
      if cash.debt != debt {
        WriteDebt(a, cash.debt);
      }
      assert bank == WithDebt(Logged(start, ChangeRow(a, account.balance, cash.balance, FuturesPnl)), a, cash.debt);
      r := ChargeParty(deal, notional, ts, a, cash);
    }

    /** An option party: the premium moves at once, the order margin is freed, then fees. */
    method PayOptionParty(deal: Deal, notional: int, ts: int, a: AccountId, account: Account, released: int, premium: int)
      returns (r: Result<bool>)
      requires a !in updated && Party(deal, a) && deal.fee == TradingFee(notional, ts) && DebtOf(bank, a) >= 0
      requires a in bank.accounts && account == bank.accounts[a]
      modifies this`bank, this`updated
      ensures updated == old(updated) + {a}
      ensures PaidWith(old(bank), deal, a, Purse(account.balance + premium, account.hold - released, DebtOf(old(bank), a)), OptionPremium)
              == if r.Ok? then Ok(bank) else Err(r.error)
    {
      var balance := account.balance + premium;
      if premium != 0 {
        WriteLedger([Row(a, premium, balance, OptionPremium)]);
      }
      assert bank == Logged(old(bank), ChangeRow(a, account.balance, balance, OptionPremium));
      r := ChargeParty(deal, notional, ts, a, Purse(balance, account.hold - released, DebtOf(bank, a)));
    }

    method PayOne(deal: Deal, notional: int, ts: int, future: bool, ghost terms: Terms, ghost freed: Released, a: AccountId, account: Account, released: int, moved: int)
      returns (r: Result<bool>)
      requires future == terms.Profit?
      requires a !in updated && Party(deal, a) && deal.fee == TradingFee(notional, ts) && DebtOf(bank, a) >= 0
      requires a in bank.accounts && account == bank.accounts[a] && released == OfSides(deal, a, freed.buy, freed.sell)
      requires moved == if terms.Profit? then OfSides(deal, a, terms.buy, terms.sell) else OfSides(deal, a, -terms.premium, terms.premium)
      modifies this`bank, this`updated
      ensures updated == old(updated) + {a}
      ensures PayParty(old(bank), deal, terms, freed, a) == if r.Ok? then Ok(bank) else Err(r.error)
    {
      PayPartyIs(bank, deal, terms, freed, a);
      if future {
        r := PayFuturesParty(deal, notional, ts, a, account, released, moved);
      } else {
        r := PayOptionParty(deal, notional, ts, a, account, released, moved);
      }
    }

    /** Pays both parties of a derivative fill in turn, or the one account that trades with itself. */
    method PayParties(deal: Deal, notional: int, ts: int, future: bool, ghost terms: Terms, ghost freed: Released,
                      release: map<AccountId, int>, moved: map<AccountId, int>)
      returns (r: Result<bool>)
      requires future == terms.Profit?
      requires updated == {} && deal.fee == TradingFee(notional, ts) && DebtOf(bank, deal.buyer) >= 0 && DebtOf(bank, deal.seller) >= 0
      requires deal.buyer in bank.accounts && deal.seller in bank.accounts
      requires SumsTo(release, deal, freed.buy, freed.sell)
      requires if terms.Profit? then SumsTo(moved, deal, terms.buy, terms.sell) else SumsTo(moved, deal, -terms.premium, terms.premium)
      modifies this`bank, this`updated
      ensures updated <= {deal.buyer, deal.seller}
      ensures DerivativeCash(old(bank), deal, terms, freed) == if r.Ok? then Ok(bank) else Err(r.error)
    {
      var parties := if deal.buyer == deal.seller then [deal.buyer] else [deal.buyer, deal.seller];
      var accounts := bank.accounts;
      ghost var start := bank;
      for i := 0 to |parties|
        invariant updated == set a | a in parties[..i]
        invariant i == 0 ==> bank == start
        invariant i == 1 ==> PayParty(start, deal, terms, freed, deal.buyer) == Ok(bank)
        invariant i == 2 ==> DerivativeCash(start, deal, terms, freed) == Ok(bank)
      {
        var a := parties[i];
        if i == 1 {
          PaidKeeps(start, deal, terms, freed, deal.buyer, a);
        }
        r := PayOne(deal, notional, ts, future, terms, freed, a, accounts[a], release[a], moved[a]);
        if r.Err? {
          return;
        }
      }
      r := Ok(true);
    }
  }

  function WithDebt(bank: Bank, a: AccountId, debt: int): Bank {
    if debt == DebtOf(bank, a) then bank else bank.(debts := bank.debts[a := debt])
  }

  /** Logging a change of balance, then charging on top of the purse it leads to. */
  function PaidWith(bank: Bank, deal: Deal, a: AccountId, p: Purse, reason: Reason): Result<Bank> {
    Charge(Logged(bank, ChangeRow(a, PurseOf(bank, a).balance, p.balance, reason)), deal, a, p)
  }

  lemma PayPartyIs(bank: Bank, deal: Deal, terms: Terms, freed: Released, a: AccountId)
    requires a in bank.accounts
    ensures
      var account, debt := bank.accounts[a], DebtOf(bank, a);
      var released := OfSides(deal, a, freed.buy, freed.sell);
      PayParty(bank, deal, terms, freed, a) ==
      match terms
      case Profit(buy, sell) =>
        PaidWith(bank, deal, a, ApplyFuturesCash(Purse(account.balance, account.hold - released, debt), OfSides(deal, a, buy, sell)), FuturesPnl)
      case Premium(premium) =>
        PaidWith(bank, deal, a, Purse(account.balance + OfSides(deal, a, -premium, premium), account.hold - released, debt), OptionPremium)
  {
  }

  lemma PaidKeeps(bank: Bank, deal: Deal, terms: Terms, freed: Released, a: AccountId, b: AccountId)
    requires a != b && b in bank.accounts && PayParty(bank, deal, terms, freed, a).Ok?
    ensures
      var after := PayParty(bank, deal, terms, freed, a).value;
      b in after.accounts && after.accounts[b] == bank.accounts[b] && DebtOf(after, b) == DebtOf(bank, b)
  {
  }

  /** Writing the settled debt before the fees leads to the same tables as writing it with them. */
  lemma DebtFirst(bank: Bank, deal: Deal, a: AccountId, balance: int, p: Purse, reason: Reason)
    requires a in bank.accounts && balance == bank.accounts[a].balance && DebtOf(bank, a) >= 0 && p.debt >= 0
    ensures Charge(WithDebt(Logged(bank, ChangeRow(a, balance, p.balance, reason)), a, p.debt), deal, a, p) == PaidWith(bank, deal, a, p, reason)
  {
    var logged := Logged(bank, ChangeRow(a, balance, p.balance, reason));
    var charged := ChargedPurse(deal, a, p);
    assert charged.debt >= p.debt by {
      assert Due(deal, a) >= 0;
    }
    DebtTwice(logged.debts, a, p.debt, charged.debt, DebtOf(logged, a));
  }

  lemma DebtTwice(debts: map<AccountId, int>, a: AccountId, first: int, second: int, before: int)
    requires before == (if a in debts then debts[a] else 0) && 0 <= first <= second
    ensures
      var once := if first == before then debts else debts[a := first];
      (if second == first then once else once[a := second]) == if second == before then debts else debts[a := second]
  {
  }

  function AddTo(sums: map<AccountId, int>, a: AccountId, x: int): map<AccountId, int> {
    sums[a := (if a in sums then sums[a] else 0) + x]
  }

  /** The map holds, for each party, what its own legs add up to. */
  predicate SumsTo(sums: map<AccountId, int>, deal: Deal, buy: int, sell: int) {
    deal.buyer in sums && deal.seller in sums &&
    sums[deal.buyer] == OfSides(deal, deal.buyer, buy, sell) && sums[deal.seller] == OfSides(deal, deal.seller, buy, sell)
  }

  function AfterDelta(account: Account, delta: CashDelta, debt: int): Purse {
    Purse(account.balance + delta.balance, account.hold + delta.hold, debt)
  }

  lemma SpotByDeltas(bank: Bank, deal: Deal, cost: int, held: int)
    requires deal.buyer in bank.accounts && deal.seller in bank.accounts
    ensures
      var deltas := AddDelta(AddDelta(map[], deal.buyer, -cost, -held), deal.seller, cost, 0);
      var logged := Logged(bank, SpotRows(bank, deal, cost));
      && deal.buyer in deltas && deal.seller in deltas
      && SpotCash(bank, deal, cost, held) ==
         ChargeBoth(logged, deal, AfterDelta(logged.accounts[deal.buyer], deltas[deal.buyer], DebtOf(logged, deal.buyer)),
                    AfterDelta(logged.accounts[deal.seller], deltas[deal.seller], DebtOf(logged, deal.seller)))
  {
    DeltaIs(deal, cost, held, deal.buyer);
    DeltaIs(deal, cost, held, deal.seller);
  }

  lemma DebtKept(bank: Bank, deal: Deal, a: AccountId, p: Purse, b: AccountId)
    requires Charge(bank, deal, a, p).Ok? && a != b
    ensures DebtOf(Charge(bank, deal, a, p).value, b) == DebtOf(bank, b)
  {
  }

  lemma DeltaIs(deal: Deal, cost: int, held: int, a: AccountId)
    requires Party(deal, a)
    ensures
      var deltas := AddDelta(AddDelta(map[], deal.buyer, -cost, -held), deal.seller, cost, 0);
      a in deltas && deltas[a] == CashDelta(OfSides(deal, a, -cost, cost), OfSides(deal, a, -held, 0))
  {
  }

  datatype CashDelta = CashDelta(balance: int, hold: int)

  function AddDelta(deltas: map<AccountId, CashDelta>, a: AccountId, balance: int, hold: int): map<AccountId, CashDelta> {
    var current := if a in deltas then deltas[a] else CashDelta(0, 0);
    deltas[a := CashDelta(current.balance + balance, current.hold + hold)]
  }

  /** Charging is the ledger rows, then the debt if it changed, then the account. */
  lemma ChargeSteps(bank: Bank, deal: Deal, a: AccountId, p: Purse, charged: Purse)
    requires charged == ChargedPurse(deal, a, p) && p.debt == DebtOf(bank, a) >= 0
    ensures
      var debts := if charged.debt != p.debt then bank.debts[a := charged.debt] else bank.debts;
      Charge(bank, deal, a, p) ==
      if charged.balance >= 0 && 0 <= charged.hold <= charged.balance
      then Ok(Bank(bank.accounts[a := Account(charged.balance, charged.hold)], debts, bank.ledger + FeeRowsOf(deal, a, p)))
      else Err(CheckViolated)
  {
    assert Due(deal, a) >= 0;
  }

  lemma PremiumSums(deal: Deal, premium: int)
    ensures SumsTo(AddTo(AddTo(map[], deal.buyer, -premium), deal.seller, premium), deal, -premium, premium)
  {
  }

  // ---------------------------------------------------------------- the worker

  ghost predicate DebtsAllowed(bank: Bank) {
    forall a :: DebtOf(bank, a) >= 0
  }

  /** A stream message, and its event when the payload passes the check. */
  datatype Message = Message(streamId: int, payload: Option<Event>)

  datatype RetainedId = ByStream(id: int) | ByEvent(event: ClaimId)

  predicate AllParsed(messages: seq<Message>) {
    forall i :: 0 <= i < |messages| && messages[i].payload.Some? ==> WellFormed(messages[i].payload.value)
  }

  function ProcessAll(db: Db, messages: seq<Message>): Db
    requires AllParsed(messages)
  {
    if messages == [] then db
    else
      var last := messages[|messages| - 1];
      var before := ProcessAll(db, messages[..|messages| - 1]);
      if last.payload.None? then before else Attempt(before, last.payload.value)
  }

  lemma DeliveredMarks(db: Db, ev: Event)
    requires WellFormed(ev) && Deliver(db, ev).Ok?
    ensures Deliver(db, ev).value.processed == db.processed + {ev.eventId}
  {
    if ev.eventId in db.processed {
      assert db.processed == db.processed + {ev.eventId};
    } else if ev.Ended? {
      CloseMarks(db, ev);
    }
  }

  lemma CloseMarks(db: Db, ev: Event)
    requires ev.Ended? && WellFormed(ev) && CloseOrder(db, ev).Ok? && ev.eventId !in db.processed
    ensures CloseOrder(db, ev).value.processed == db.processed + {ev.eventId}
  {
  }

  class SettlementWorker {
    var db: Db
    var retained: set<RetainedId>

    constructor (db: Db)
      ensures this.db == db && retained == {}
    {
      this.db := db;
      retained := {};
    }

    /** Spot: cash, then the buyer's and the seller's holding, then the seller's realized profit. */
    method SettleSpotTrade(ctx: LockContext, ev: Event, buy: OrderRow, ghost claimed: Db) returns (r: Result<Db>)
      requires ev.Traded? && WellFormed(ev) && ctx.updated == {} && ctx.bank == claimed.bank && claimed == Claim(db, ev.eventId)
      requires ev.buyer in db.bank.accounts && ev.seller in db.bank.accounts
      requires DebtOf(db.bank, ev.buyer) >= 0 && DebtOf(db.bank, ev.seller) >= 0 && InstrumentOf(db.market, ev.symbol).Spot?
      modifies ctx
      ensures r == SettleSpot(claimed, ev, buy)
    {
      var notional := TradeNotional(1, ev.price, ev.qty);
      var deal := Deal(ev.buyer, ev.seller, TradingFee(notional, ev.ts), db.bots);
      assert deal == DealOf(claimed, ev);
      var paid := ctx.SettleSpotCash(deal, notional, ev.ts, Cost(ev), buy.holdPerUnit * ev.qty);
      if paid.Err? {
        return Err(paid.error);
      }
      var holdings := db.holdings;
      var buyer, seller := HoldingKey(ev.buyer, ev.symbol), HoldingKey(ev.seller, ev.symbol);
      holdings := holdings[buyer := Bought(holdings, buyer, ev.qty, Cost(ev))];
      if !HoldingAllowed(holdings[buyer]) {
        return Err(CheckViolated);
      }
      if seller !in holdings {
        return Err(MissingHolding);
      }
      var basis := BasisReduction(holdings[seller], ev.qty);
      var sold := holdings[seller].(qty := holdings[seller].qty - ev.qty, holdQty := holdings[seller].holdQty - ev.qty,
                                    costBasis := holdings[seller].costBasis - basis);
      if !HoldingAllowed(sold) {
        return Err(CheckViolated);
      }
      holdings := holdings[seller := sold];
      var row := RealizedRow(ev.seller, ev.symbol, ev.eventId, ev.qty, ev.price, Cost(ev) - basis);
      r := Ok(Claim(db, ev.eventId).(bank := ctx.bank, holdings := holdings, realized := db.realized + [row]));
    }

    /** Futures and options: both position legs, then both parties' cash. */
    method SettleDerivativeTrade(ctx: LockContext, ev: Event, buy: OrderRow, sell: OrderRow, ghost claimed: Db) returns (r: Result<Db>)
      requires ev.Traded? && WellFormed(ev) && ctx.updated == {} && claimed == Claim(db, ev.eventId)
      requires ctx.bank == db.bank && ctx.positions == db.positions && ctx.realized == db.realized
      requires ev.buyer in db.bank.accounts && ev.seller in db.bank.accounts
      requires DebtOf(db.bank, ev.buyer) >= 0 && DebtOf(db.bank, ev.seller) >= 0 && !InstrumentOf(db.market, ev.symbol).Spot?
      modifies ctx
      ensures r == SettleDerivative(claimed, ev, buy, sell)
    {
      var i := InstrumentOf(db.market, ev.symbol);
      if i.OptionSeries? && i.strike.None? {
        return Err(MissingSeries);
      }
      var legs, release, profit := ctx.SettleBothLegs(i, ev, buy, sell, claimed);
      if legs.Err? {
        return Err(legs.error);
      }
      var notional := TradeNotional(UnitValue(i), ev.price, ev.qty);
      var deal := Deal(ev.buyer, ev.seller, TradingFee(notional, ev.ts), db.bots);
      assert deal == DealOf(claimed, ev);
      var premium := Cost(ev) * UnitValue(i);
      var moved := if i.Future? then profit else AddTo(AddTo(map[], ev.buyer, -premium), ev.seller, premium);
      ghost var terms := TermsOf(i, ev, SettleLegs(claimed, ev, buy, sell).value);
      PremiumSums(deal, premium);
      var paid := ctx.PayParties(deal, notional, ev.ts, i.Future?, terms, FreedBy(ev, buy, sell), release, moved);
      if paid.Err? {
        return Err(paid.error);
      }
      r := Ok(Claim(db, ev.eventId).(bank := ctx.bank, positions := ctx.positions, realized := ctx.realized));
    }

    /** One trade in one transaction: all of its effects, or none of them. */
    method SettleTrade(ev: Event) returns (r: Result<bool>)
      requires ev.Traded? && WellFormed(ev) && DebtOf(db.bank, ev.buyer) >= 0 && DebtOf(db.bank, ev.seller) >= 0
      modifies this`db
      ensures Settlement.SettleTrade(old(db), ev) == if r.Ok? then Ok(db) else Err(r.error)
      ensures r.Err? ==> db == old(db)
    {
      if ev.buyer !in db.bank.accounts || ev.seller !in db.bank.accounts {
        return Err(MissingAccount);
      }
      if ev.eventId in db.processed {
        return Ok(false);
      }
      if ev.buyOrder !in db.orders || ev.sellOrder !in db.orders {
        return Err(MissingOrder);
      }
      var buy, sell := db.orders[ev.buyOrder], db.orders[ev.sellOrder];
      ghost var claimed := Claim(db, ev.eventId);
      var ctx := new LockContext(db);
      var settled: Result<Db>;
      if InstrumentOf(db.market, ev.symbol).Spot? {
        settled := SettleSpotTrade(ctx, ev, buy, claimed);
      } else {
        settled := SettleDerivativeTrade(ctx, ev, buy, sell, claimed);
      }
      if settled.Err? {
        return Err(settled.error);
      }
      var advanced := AdvanceBoth(settled.value, ev, buy, sell);
      if advanced.Err? {
        return Err(advanced.error);
      }
      db := advanced.value;
      r := Ok(true);
    }

    /** Advances the rows of both orders, buyer's first. */
    method AdvanceBoth(settled: Db, ev: Event, buy: OrderRow, sell: OrderRow) returns (r: Result<Db>)
      requires ev.Traded?
      ensures r == AdvanceOrders(settled, ev, buy, sell)
    {
      var rows, ids := [buy, sell], [ev.buyOrder, ev.sellOrder];
      var orders := settled.orders;
      for i := 0 to 2
        invariant i >= 1 ==> StateAfterTrade(buy, ev.qty).Ok?
        invariant i == 0 ==> orders == settled.orders
        invariant i == 1 ==> orders == settled.orders[ev.buyOrder := StateAfterTrade(buy, ev.qty).value]
        invariant i == 2 ==> StateAfterTrade(sell, ev.qty).Ok?
        invariant i == 2 ==> Ok(settled.(orders := orders)) == AdvanceOrders(settled, ev, buy, sell)
      {
        var next := StateAfterTrade(rows[i], ev.qty);
        if next.Err? {
          return Err(next.error);
        }
        orders := orders[ids[i] := next.value];
      }
      r := Ok(settled.(orders := orders));
    }

    /** One close in one transaction; it waits while fills it reports have not settled. */
    method CloseOrder(ev: Event) returns (r: Result<bool>)
      requires ev.Ended? && WellFormed(ev) && DebtOf(db.bank, ev.account) >= 0
      modifies this`db
      ensures Settlement.CloseOrder(old(db), ev) == if r.Ok? then Ok(db) else Err(r.error)
      ensures r.Err? ==> db == old(db)
    {
      if ev.account !in db.bank.accounts {
        return Err(MissingAccount);
      }
      if ev.eventId in db.processed {
        return Ok(false);
      }
      if ev.orderId in db.orders && CloseMustWaitForTrades(db.orders[ev.orderId], ev.filledQty) {
        return Err(CloseAhead);
      }
      if ev.orderId !in db.orders {
        db := Claim(db, ev.eventId);
        return Ok(true);
      }
      var order := db.orders[ev.orderId];
      var next := StateAfterClose(order, ev.filledQty, ev.status);
      if next.None? {
        db := Claim(db, ev.eventId);
        return Ok(true);
      }
      var closed := Claim(db, ev.eventId).(orders := db.orders[ev.orderId := next.value]);
      var released := Release(closed, ev, order, order.qty - next.value.filledQty);
      if released.Err? {
        return Err(released.error);
      }
      db := released.value;
      r := Ok(true);
    }

    /** Releases the leftover cash or share hold of a closed order. */
    method Release(closed: Db, ev: Event, order: OrderRow, remaining: int) returns (r: Result<Db>)
      requires ev.Ended? && ev.account in closed.bank.accounts && DebtOf(closed.bank, ev.account) >= 0
      ensures r == ReleaseRest(closed, ev, order, remaining)
    {
      if remaining <= 0 {
        return Ok(closed);
      }
      if HoldsCash(InstrumentOf(closed.market, ev.symbol), ev.side) {
        var leftover := order.holdPerUnit * remaining;
        if leftover <= 0 {
          return Ok(closed);
        }
        var ctx := new LockContext(closed);
        var account := closed.bank.accounts[ev.account];
        var ok := ctx.UpdateAccount(ev.account, account.balance, account.hold - leftover);
        r := if ok then Ok(closed.(bank := ctx.bank)) else Err(CheckViolated);
      } else {
        var key := HoldingKey(ev.account, ev.symbol);
        if key !in closed.holdings {
          return Err(MissingHolding);
        }
        var h := closed.holdings[key].(holdQty := closed.holdings[key].holdQty - remaining);
        r := if HoldingAllowed(h) then Ok(closed.(holdings := closed.holdings[key := h])) else Err(CheckViolated);
      }
    }

    /** Settles one message; a failure, or a payload that does not pass the check, is retained for retry. */
    method ProcessMessage(m: Message) returns (ok: bool)
      requires (m.payload.Some? ==> WellFormed(m.payload.value)) && DebtsAllowed(db.bank)
      modifies this
      ensures db == (if m.payload.None? then old(db) else Attempt(old(db), m.payload.value)) && DebtsAllowed(db.bank)
      ensures old(db).processed <= db.processed
      ensures ok ==> m.payload.Some? && m.payload.value.eventId in db.processed
    {
      if m.payload.None? {
        retained := retained + {ByStream(m.streamId)};
        return false;
      }
      var ev := m.payload.value;
      ghost var before := db;
      var r: Result<bool>;
      if ev.Traded? {
        r := SettleTrade(ev);
      } else {
        r := CloseOrder(ev);
      }
      ok := r.Ok?;
      if ok {
        DeliveredMarks(before, ev);
        DebtsKept(before, ev);
        retained := retained - {ByEvent(ev.eventId)};
      } else {
        retained := retained + {ByEvent(ev.eventId)};
      }
    }

    /**
     * Processes a batch in order. A message is acknowledged only once its event
     * is claimed in the database; everything else stays for redelivery.
     */
    method ProcessMessages(messages: seq<Message>) returns (acked: seq<bool>)
      requires AllParsed(messages) && DebtsAllowed(db.bank)
      modifies this
      ensures db == ProcessAll(old(db), messages) && DebtsAllowed(db.bank)
      ensures |acked| == |messages|
      ensures forall i :: 0 <= i < |acked| && acked[i] ==> messages[i].payload.Some? && messages[i].payload.value.eventId in db.processed
    {
      acked := [];
      ghost var start := db;
      for i := 0 to |messages|
        invariant |acked| == i && db == ProcessAll(start, messages[..i]) && DebtsAllowed(db.bank)
        invariant forall j :: 0 <= j < i && acked[j] ==> messages[j].payload.Some? && messages[j].payload.value.eventId in db.processed
      {
        assert messages[..i + 1][..i] == messages[..i];
        var ok := ProcessMessage(messages[i]);
        acked := acked + [ok];
      }
      assert messages[..|messages|] == messages;
    }
  }

  /** Settling never makes a debt negative. */
  lemma DebtsKept(db: Db, ev: Event)
    requires WellFormed(ev) && Deliver(db, ev).Ok? && DebtsAllowed(db.bank)
    ensures DebtsAllowed(Deliver(db, ev).value.bank)
  {
    if ev.eventId !in db.processed {
      if ev.Traded? {
        TradeSettlesPurses(db, ev);
        PartiesKeepDebts(db.bank, SettleTrade(db, ev).value.bank, DealOf(db, ev), FreedHold(db, ev));
      } else {
        ClosesKeepDebts(db, ev);
      }
    }
  }

  lemma PartiesKeepDebts(bank: Bank, after: Bank, deal: Deal, freed: Released)
    requires DebtsAllowed(bank) && PursesSettled(bank, after, deal, freed)
    ensures DebtsAllowed(after)
  {
    forall a
      ensures DebtOf(after, a) >= 0
    {
      assert DebtOf(after, a) == PurseOf(after, a).debt && DebtOf(bank, a) == PurseOf(bank, a).debt;
    }
  }

  lemma ClosesKeepDebts(db: Db, ev: Event)
    requires ev.Ended? && WellFormed(ev) && CloseOrder(db, ev).Ok? && DebtsAllowed(db.bank)
    ensures DebtsAllowed(CloseOrder(db, ev).value.bank)
  {
    var after := CloseOrder(db, ev).value.bank;
    assert after.debts == db.bank.debts;
    forall a
      ensures DebtOf(after, a) >= 0
    {
      assert DebtOf(after, a) == DebtOf(db.bank, a);
    }
  }
}
