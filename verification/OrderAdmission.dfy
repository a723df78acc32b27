/**
 * Order admission: it reserves a whole order's cash or shares with the order's
 * row, so reservations stay exact. And the ledger: what a delivery writes keeps
 * every account's chain.
 */
module OrderAdmission {
  import opened Common
  import opened Ledger
  import opened Futures
  import opened Bank
  import opened BankLaws
  import opened Sums
  import opened Settlement
  import opened SettlementHolds

  /** An order request after its hold per unit is known; `marginHeld` is what open positions tie up. */
  datatype Request = Request(id: OrderId, account: AccountId, symbol: Symbol, side: Side, qty: int,
                             holdPerUnit: int, row: RowSide, marginHeld: int)

  predicate Admissible(r: Request) {
    r.qty > 0 && r.holdPerUnit >= 0 && r.marginHeld >= 0
  }

  function NewRow(r: Request): OrderRow {
    OrderRow(r.account, r.symbol, r.side, r.qty, 0, r.holdPerUnit, Open, r.row)
  }

  /** Reserves the whole order and creates its row in one transaction. */
  function PlaceOrder(db: Db, r: Request): Result<Db>
    requires Admissible(r) && r.id !in db.orders
  {
    if r.account !in db.bank.accounts then Err(MissingAccount)
    else if HoldsCash(InstrumentOf(db.market, r.symbol), r.side) then
      var p := PurseOf(db.bank, r.account);
      var total := r.holdPerUnit * r.qty;
      if total > 0 && p.balance - p.hold - r.marginHeld < total then Err(Insufficient)
      else
        var put := PutPurse(db.bank, r.account, p.(hold := p.hold + total));
        if put.Err? then Err(put.error) else Ok(db.(bank := put.value, orders := db.orders[r.id := NewRow(r)]))
    else
      var key := HoldingKey(r.account, r.symbol);
      if key !in db.holdings || db.holdings[key].qty - db.holdings[key].holdQty < r.qty then Err(Insufficient)
      else
        var h := db.holdings[key].(holdQty := db.holdings[key].holdQty + r.qty);
        Ok(db.(holdings := db.holdings[key := h], orders := db.orders[r.id := NewRow(r)]))
  }

  lemma TotalsAdmit(orders: Orders, market: Market, id: OrderId, row: OrderRow, n: nat, a: AccountId, key: HoldingKey)
    requires 0 <= id < n && id !in orders
    ensures Sum(CashHeld(orders[id := row], market, a), n) == Sum(CashHeld(orders, market, a), n) + CashOf(row, market, a)
    ensures Sum(SharesHeld(orders[id := row], market, key), n) == Sum(SharesHeld(orders, market, key), n) + SharesOf(row, market, key)
  {
    SumChange(CashHeld(orders, market, a), CashHeld(orders[id := row], market, a), n, id);
    SumChange(SharesHeld(orders, market, key), SharesHeld(orders[id := row], market, key), n, id);
  }

  lemma AdmitEffect(db: Db, r: Request)
    requires Admissible(r) && r.id !in db.orders && PlaceOrder(db, r).Ok?
    ensures
      var after := PlaceOrder(db, r).value;
      && after.orders == db.orders[r.id := NewRow(r)] && after.market == db.market
      && SameAccounts(db.bank, after.bank) && after.bank.ledger == db.bank.ledger
      && (forall c :: PurseOf(after.bank, c) ==
            PurseOf(db.bank, c).(hold := PurseOf(db.bank, c).hold + CashOf(NewRow(r), db.market, c)))
      && (PursesAllowed(db.bank) ==> PursesAllowed(after.bank))
      && (forall key :: HoldQtyAt(after.holdings, key) == HoldQtyAt(db.holdings, key) + SharesOf(NewRow(r), db.market, key))
      && (HoldingsAllowed(db.holdings) ==> HoldingsAllowed(after.holdings))
  {
    if HoldsCash(InstrumentOf(db.market, r.symbol), r.side) {
      var p := PurseOf(db.bank, r.account);
      WithPurseEffect(db.bank, r.account, p.(hold := p.hold + r.holdPerUnit * r.qty));
    }
  }

  /** A buy, or any order on a future or an option, reserves cash; a sell of shares reserves the shares. */
  predicate ReservesCash(db: Db, r: Request) {
    r.side == Buy || !InstrumentOf(db.market, r.symbol).Spot?
  }

  /** What is free of the account's money, beyond its reservations and the margins of its positions; what is free of its shares. */
  predicate CanReserve(db: Db, r: Request) {
    if ReservesCash(db, r) then
      r.account in db.bank.accounts &&
      (r.holdPerUnit == 0 || db.bank.accounts[r.account].balance - db.bank.accounts[r.account].hold - r.marginHeld >= r.holdPerUnit * r.qty)
    else
      r.account in db.bank.accounts && HoldingKey(r.account, r.symbol) in db.holdings &&
      db.holdings[HoldingKey(r.account, r.symbol)].qty - db.holdings[HoldingKey(r.account, r.symbol)].holdQty >= r.qty
  }

  /** The order is open and unfilled as requested, and its whole cash or shares are reserved; nothing else changes. */
  ghost predicate Admitted(db: Db, after: Db, r: Request) {
    var cash := ReservesCash(db, r);
    && after.orders == db.orders[r.id := OrderRow(r.account, r.symbol, r.side, r.qty, 0, r.holdPerUnit, Open, r.row)]
    && (forall a :: PurseOf(after.bank, a) ==
          PurseOf(db.bank, a).(hold := PurseOf(db.bank, a).hold + if cash && a == r.account then r.holdPerUnit * r.qty else 0))
    && after.bank.ledger == db.bank.ledger && after.holdings.Keys == db.holdings.Keys
    && (forall key :: key in db.holdings ==>
          after.holdings[key] == db.holdings[key].(holdQty := db.holdings[key].holdQty + if !cash && key == HoldingKey(r.account, r.symbol) then r.qty else 0))
    && after == db.(bank := after.bank, holdings := after.holdings, orders := after.orders)
  }

  /** An order is admitted exactly when what it reserves is free, and then reserves exactly that. */
  lemma AdmittedIff(db: Db, r: Request)
    requires Admissible(r) && r.id !in db.orders && PursesAllowed(db.bank)
    ensures PlaceOrder(db, r).Ok? <==> CanReserve(db, r)
    ensures PlaceOrder(db, r).Ok? ==> Admitted(db, PlaceOrder(db, r).value, r)
  {
    if ReservesCash(db, r) && r.account in db.bank.accounts {
      var p := PurseOf(db.bank, r.account);
      assert PurseAllowed(p);
      assert r.holdPerUnit * r.qty > 0 <==> r.holdPerUnit > 0;
      WithPurseEffect(db.bank, r.account, p.(hold := p.hold + r.holdPerUnit * r.qty));
    }
  }

  lemma AdmitKeepsHolds(db: Db, r: Request, n: nat)
    requires Admissible(r) && r.id !in db.orders && 0 <= r.id < n && HoldsExact(db, n) && PlaceOrder(db, r).Ok?
    ensures HoldsExact(PlaceOrder(db, r).value, n)
  {
    var after := PlaceOrder(db, r).value;
    AdmitEffect(db, r);
    forall a | a in after.bank.accounts
      ensures CashExactFor(after, n, a)
    {
      assert CashExactFor(db, n, a);
      TotalsAdmit(db.orders, db.market, r.id, NewRow(r), n, a, HoldingKey(a, r.symbol));
    }
    forall key
      ensures SharesExactFor(after, n, key)
    {
      assert SharesExactFor(db, n, key);
      TotalsAdmit(db.orders, db.market, r.id, NewRow(r), n, key.account, key);
    }
  }

  // ---------------------------------------------------------------- ledgers

  /** The account's ledger is a chain from its opening balance to its balance now. */
  ghost predicate Balanced(bank: Bank, a: AccountId, opening: int) {
    Chained(bank.ledger, a, opening) && PurseOf(bank, a).balance == opening + Deltas(bank.ledger, a)
  }

  lemma FollowsBalanced(bank: Bank, after: Bank, a: AccountId, opening: int)
    requires Balanced(bank, a, opening) && Extends(bank, after) && FollowsFor(bank, after, a)
    ensures Balanced(after, a, opening)
  {
    assert after.ledger == bank.ledger + NewRows(bank, after);
    ChainExtends(bank.ledger, NewRows(bank, after), a, opening);
  }

  lemma DeliverBalanced(db: Db, ev: Event, a: AccountId, opening: int)
    requires WellFormed(ev) && Deliver(db, ev).Ok? && Describes(db.orders, ev) && Balanced(db.bank, a, opening)
    requires forall o :: o in db.orders ==> RowOk(db.orders[o])
    ensures Balanced(Deliver(db, ev).value.bank, a, opening)
  {
    if ev.eventId in db.processed {
    } else if ev.Traded? {
      TradeSettlesPurses(db, ev);
      var after := SettleTrade(db, ev).value;
      assert FollowsFor(db.bank, after.bank, a);
      FollowsBalanced(db.bank, after.bank, a, opening);
    } else if ev.orderId in db.orders && StateAfterClose(db.orders[ev.orderId], ev.filledQty, ev.status).Some? {
      CloseEffect(db, ev);
    }
  }
}
