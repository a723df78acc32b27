/**
 * The daily cash settlement of futures and options: every open position is
 * closed once a day at one price, in its own transaction, so an interrupted run
 * can be resumed.
 */
module DailySettlement {
  import opened Common
  import opened Ledger
  import opened Futures
  import opened FuturesLaws
  import opened Bank
  import opened BankLaws
  import opened Settlement
  import opened SettlementHolds
  import opened OrderAdmission

  function CloseSide(p: Position): Side {
    if p.qty > 0 then Sell else Buy
  }

  /** Closing the whole position at the settlement price. */
  function FinalFill(unitValue: int, p: Position, price: int): FillResult
    requires p.qty != 0
  {
    ApplyFutureFill(unitValue, p, CloseSide(p), price, Abs(p.qty))
  }

  /** What the close moves in cash: the realized profit of a future, the intrinsic value of an option. */
  function Payoff(i: Instrument, p: Position, price: int): int
    requires p.qty != 0
  {
    if i.OptionSeries? then p.qty * price * UnitValue(i) else FinalFill(UnitValue(i), p, price).realized
  }

  datatype Expired = Expired(db: Db, realized: Option<int>)

  /** One position's settlement; `None` when this day already settled it, or there is nothing to settle. */
  function SettlePosition(db: Db, symbol: Symbol, day: int, price: int, account: AccountId, row: RowSide): Result<Expired> {
    var claim := Daily(symbol, day, account, row);
    var key := PositionKey(account, symbol, row);
    var before := PositionAt(db.positions, key);
    var i := InstrumentOf(db.market, symbol);
    if account !in db.bank.accounts then Err(MissingAccount)
    else if claim in db.processed then Ok(Expired(db, None))
    else if before.position.qty == 0 then Ok(Expired(Claim(db, claim), None))
    else
      var fill := FinalFill(UnitValue(i), before.position, price);
      var paid := SettleAmount(db.bank, account, Payoff(i, before.position, price),
                               if i.OptionSeries? then OptionExpiry else FuturesSettle);
      if paid.Err? then Err(paid.error)
      else
        Ok(Expired(
             Claim(db, claim).(bank := paid.value,
                               positions := db.positions[key := PositionRow(FLAT, 0, before.leverage)],
                               realized := db.realized + [RealizedRow(account, symbol, claim, fill.closedQty, price, fill.realized)]),
             Some(fill.realized)))
  }

  /** What one settlement did, when it did anything. */
  ghost predicate Settled(db: Db, after: Db, symbol: Symbol, price: int, account: AccountId, row: RowSide) {
    var key := PositionKey(account, symbol, row);
    var p := PositionAt(db.positions, key).position;
    && p.qty != 0 && key in after.positions && after.positions[key].position == FLAT
    && after.positions == db.positions[key := after.positions[key]]
    && after.market == db.market && after.orders == db.orders && after.holdings == db.holdings && after.bots == db.bots
    && SameAccounts(db.bank, after.bank) && OthersKeep(db.bank, after.bank, account) && LedgerFollows(db.bank, after.bank)
    && PurseOf(after.bank, account).hold == PurseOf(db.bank, account).hold
    && Equity(PurseOf(after.bank, account)) ==
       Equity(PurseOf(db.bank, account)) + Payoff(InstrumentOf(db.market, symbol), p, price)
  }

  /**
   * A settlement always succeeds on an existing account with sound rows. Once it
   * has, the claim stands: repeating it on this or any later database of the
   * day changes nothing.
   */
  lemma SettlePositionEffect(db: Db, symbol: Symbol, day: int, price: int, account: AccountId, row: RowSide)
    requires account in db.bank.accounts && PursesAllowed(db.bank)
    ensures SettlePosition(db, symbol, day, price, account, row).Ok?
    ensures
      var r := SettlePosition(db, symbol, day, price, account, row).value;
      && Daily(symbol, day, account, row) in r.db.processed
      && PursesAllowed(r.db.bank)
      && (r.realized.Some? ==> Settled(db, r.db, symbol, price, account, row))
      && (r.realized.None? ==> r.db == db.(processed := r.db.processed))
      && (r.realized.Some? <==>
            Daily(symbol, day, account, row) !in db.processed && PositionAt(db.positions, PositionKey(account, symbol, row)).position.qty != 0)
  {
    var before := PositionAt(db.positions, PositionKey(account, symbol, row)).position;
    if before.qty != 0 {
      var i := InstrumentOf(db.market, symbol);
      SettleAmountEffect(db.bank, account, Payoff(i, before, price), if i.OptionSeries? then OptionExpiry else FuturesSettle);
    }
  }

  /**
   * What a settlement pays, by the position alone: an option its contracts at
   * the settlement value, a future its contracts at the settlement price less
   * what they were entered at. The profit recorded is against the entry for both.
   */
  lemma SettlementPays(db: Db, symbol: Symbol, day: int, price: int, account: AccountId, row: RowSide)
    requires account in db.bank.accounts && PursesAllowed(db.bank) && price >= 0
    requires Valid(PositionAt(db.positions, PositionKey(account, symbol, row)).position)
    requires SettlePosition(db, symbol, day, price, account, row).value.realized.Some?
    ensures
      var r, i := SettlePosition(db, symbol, day, price, account, row).value, InstrumentOf(db.market, symbol);
      var p := PositionAt(db.positions, PositionKey(account, symbol, row)).position;
      var entry := if p.qty > 0 then p.entryValue else -p.entryValue;
      && Equity(PurseOf(r.db.bank, account)) ==
         Equity(PurseOf(db.bank, account)) + (if i.OptionSeries? then p.qty * price * i.unitValue else (p.qty * price - entry) * UnitValue(i))
      && r.db.realized == db.realized +
         [RealizedRow(account, symbol, Daily(symbol, day, account, row), if p.qty > 0 then p.qty else -p.qty, price, r.realized.value)]
      && r.realized.value == (p.qty * price - entry) * UnitValue(i)
  {
    SettlePositionEffect(db, symbol, day, price, account, row);
    var p := PositionAt(db.positions, PositionKey(account, symbol, row)).position;
    FinalRealizes(UnitValue(InstrumentOf(db.market, symbol)), p, price);
  }

  lemma FinalRealizes(unitValue: int, p: Position, price: int)
    requires Valid(p) && p.qty != 0 && price >= 0
    ensures
      var r := FinalFill(unitValue, p, price);
      r.realized == (p.qty * price - if p.qty > 0 then p.entryValue else -p.entryValue) * unitValue && r.closedQty == Abs(p.qty)
  {
    FillExact(unitValue, p, CloseSide(p), price, Abs(p.qty));
    var r := FinalFill(unitValue, p, price);
    assert r.position.qty == 0 && SignedEntry(r.position) == 0;
    if p.qty > 0 {
      assert -(-p.qty * price) == p.qty * price;
    }
  }

  /** Repeating a settlement, at any price, changes nothing. */
  lemma SettlesOnce(db: Db, symbol: Symbol, day: int, price: int, again: int, account: AccountId, row: RowSide)
    requires account in db.bank.accounts && PursesAllowed(db.bank)
    ensures
      var first := SettlePosition(db, symbol, day, price, account, row).value.db;
      SettlePosition(first, symbol, day, again, account, row) == Ok(Expired(first, None))
  {
    SettlePositionEffect(db, symbol, day, price, account, row);
    var first := SettlePosition(db, symbol, day, price, account, row).value.db;
    assert account in first.bank.accounts;
  }

  lemma SettlementKeepsHolds(db: Db, symbol: Symbol, day: int, price: int, account: AccountId, row: RowSide, n: nat)
    requires account in db.bank.accounts && HoldsExact(db, n)
    ensures HoldsExact(SettlePosition(db, symbol, day, price, account, row).value.db, n)
  {
    SettlePositionEffect(db, symbol, day, price, account, row);
    var after := SettlePosition(db, symbol, day, price, account, row).value.db;
    forall c | c in after.bank.accounts
      ensures CashExactFor(after, n, c)
    {
      assert CashExactFor(db, n, c);
    }
    forall key
      ensures SharesExactFor(after, n, key)
    {
      assert SharesExactFor(db, n, key);
    }
  }

  /** Daily settlement leaves every reservation exact and every ledger a chain up to its balance. */
  lemma SettlementKeepsBooks(db: Db, symbol: Symbol, day: int, price: int, account: AccountId, row: RowSide, n: nat, a: AccountId, opening: int)
    requires account in db.bank.accounts && HoldsExact(db, n) && Balanced(db.bank, a, opening)
    ensures HoldsExact(SettlePosition(db, symbol, day, price, account, row).value.db, n)
    ensures Balanced(SettlePosition(db, symbol, day, price, account, row).value.db.bank, a, opening)
  {
    SettlementKeepsHolds(db, symbol, day, price, account, row, n);
    SettlePositionEffect(db, symbol, day, price, account, row);
    var r := SettlePosition(db, symbol, day, price, account, row).value;
    if r.realized.Some? {
      assert FollowsFor(db.bank, r.db.bank, a);
      FollowsBalanced(db.bank, r.db.bank, a, opening);
    }
  }
}
