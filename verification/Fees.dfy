/**
 * Trading fees: one basis point of the notional of each filled side, rounded up
 * to a whole won for every execution, reserved with the order so that any split
 * into fills is funded.
 */
module Fees {
  import opened Common
  import opened Ledger

  const TRADING_FEES_EFFECTIVE_AT := 1790536800000
  const TRADING_FEE_BPS := 1

  function TradeNotional(unitValue: int, price: int, qty: int): int {
    price * qty * unitValue
  }

  function TradingFee(notional: int, at: int): (fee: int)
    ensures fee >= 0
    ensures at >= TRADING_FEES_EFFECTIVE_AT && notional > 0 ==> 10_000 * (fee - 1) < notional <= 10_000 * fee
    ensures at < TRADING_FEES_EFFECTIVE_AT || notional <= 0 ==> fee == 0
  {
    if at < TRADING_FEES_EFFECTIVE_AT || notional <= 0 then 0
    else (notional * TRADING_FEE_BPS + 9_999) / 10_000
  }

  function OrderHoldWithFee(principal: int, unitValue: int, price: int, at: int): (hold: int)
    ensures principal <= 0 ==> hold == 0
    ensures principal > 0 ==> principal <= hold
    ensures principal > 0 && at < TRADING_FEES_EFFECTIVE_AT ==> hold == principal
    ensures principal > 0 && at >= TRADING_FEES_EFFECTIVE_AT && price * unitValue > 0 ==>
      10_000 * (hold - principal - 1) < price * unitValue <= 10_000 * (hold - principal)
  {
    if principal > 0 then principal + TradingFee(TradeNotional(unitValue, price, 1), at) else 0
  }

  // ---------------------------------------------------------------- charging a fill

  datatype Cash = Cash(balance: int, debt: int)

  /** The sides of a fill an account stands on: both, if it trades with itself. */
  function SidesOf(a: AccountId, buyer: AccountId, seller: AccountId): (sides: seq<Side>) {
    (if a == buyer then [Buy] else []) + (if a == seller then [Sell] else [])
  }

  /** One fee for each side of the fill. */
  function FeesDue(fee: int, exempt: bool, sides: nat): int {
    if exempt then 0 else fee * sides
  }

  /** The balance after `due` won of fees: charged in full, but never below the hold; debt takes the rest. */
  function Charged(cash: Cash, hold: int, due: int): (r: Cash)
    ensures r.balance - r.debt == cash.balance - cash.debt - due
    ensures due > 0 ==> r.balance >= hold && r.debt >= cash.debt
    ensures r.debt > cash.debt ==> r.balance == hold && cash.balance - due < hold
  {
    if due == 0 then cash
    else Cash(Max(cash.balance - due, hold), cash.debt + Max(cash.balance - due, hold) - (cash.balance - due))
  }

  function Charges(a: AccountId, fee: int, start: int, sides: seq<Side>): seq<Row> {
    if sides == [] then []
    else
      var n := |sides| - 1;
      Charges(a, fee, start, sides[..n]) +
      [Row(a, -fee, start - fee * |sides|, if sides[n] == Buy then TradeFeeBuy else TradeFeeSell)]
  }

  function Lent(a: AccountId, amount: int, balance: int): seq<Row> {
    if amount > 0 then [Row(a, amount, balance, TradeFeeDebt)] else []
  }

  /** The ledger rows of one party's fees: the shortfall lent first, then one row a side. */
  function FeeRows(fee: int, exempt: bool, a: AccountId, sides: seq<Side>, cash: Cash, hold: int): seq<Row> {
    if fee == 0 || exempt then []
    else
      var lent := Max(0, hold + fee * |sides| - cash.balance);
      Lent(a, lent, cash.balance + lent) + Charges(a, fee, cash.balance + lent, sides)
  }

  lemma {:induction false} ChargesLink(a: AccountId, fee: int, start: int, sides: seq<Side>)
    ensures RowsOf(Charges(a, fee, start, sides), a)
    ensures Links(Charges(a, fee, start, sides), a, start, start - fee * |sides|)
  {
    if sides != [] {
      var n := |sides| - 1;
      ChargesLink(a, fee, start, sides[..n]);
      var row := Row(a, -fee, start - fee * |sides|, if sides[n] == Buy then TradeFeeBuy else TradeFeeSell);
      assert start - fee * |sides| == start - fee * n - fee;
      RowLinks(row, a, start - fee * n);
      LinksAppend(Charges(a, fee, start, sides[..n]), [row], a, start, start - fee * n, start - fee * |sides|);
    }
  }

  /** The rows lead from the balance before the fees to the charged balance, and name no other account. */
  lemma FeeRowsLink(fee: int, exempt: bool, a: AccountId, sides: seq<Side>, cash: Cash, hold: int)
    requires fee >= 0 && sides != []
    ensures RowsOf(FeeRows(fee, exempt, a, sides, cash, hold), a)
    ensures Links(FeeRows(fee, exempt, a, sides, cash, hold), a, cash.balance, Charged(cash, hold, FeesDue(fee, exempt, |sides|)).balance)
  {
    if fee != 0 && !exempt {
      var due := fee * |sides|;
      assert due > 0;
      var lent := Max(0, hold + due - cash.balance);
      var start := cash.balance + lent;
      LentLinks(a, lent, cash.balance);
      ChargesLink(a, fee, start, sides);
      LinksAppend(Lent(a, lent, start), Charges(a, fee, start, sides), a, cash.balance, start, start - due);
    }
  }

  lemma LentLinks(a: AccountId, amount: int, balance: int)
    requires amount >= 0
    ensures RowsOf(Lent(a, amount, balance + amount), a) && Links(Lent(a, amount, balance + amount), a, balance, balance + amount)
  {
    RowLinks(Row(a, amount, balance + amount, TradeFeeDebt), a, balance);
  }

  /** Settles the fees of one party to a fill, writing its ledger rows one by one. */
  method SettleTradingFees(notional: int, ts: int, exempt: bool, a: AccountId, buyer: AccountId, seller: AccountId,
                           cash: Cash, hold: int, ledger: seq<Row>)
    returns (after: Cash, ledger': seq<Row>)
    requires a == buyer || a == seller
    ensures after == Charged(cash, hold, FeesDue(TradingFee(notional, ts), exempt, |SidesOf(a, buyer, seller)|))
    ensures ledger' == ledger + FeeRows(TradingFee(notional, ts), exempt, a, SidesOf(a, buyer, seller), cash, hold)
  {
    var fee := TradingFee(notional, ts);
    if fee == 0 || exempt {
      return cash, ledger + [];
    }
    var balance, debt := cash.balance, cash.debt;
    var sides := SidesOf(a, buyer, seller);
    assert fee * |sides| > 0;
    var shortfall := hold + fee * |sides| - balance;
    var rows: seq<Row> := [];
    if shortfall > 0 {
      balance, debt := balance + shortfall, debt + shortfall;
      rows := [Row(a, shortfall, balance, TradeFeeDebt)];
    }
    ghost var start, lent := balance, rows;
    for i := 0 to |sides|
      invariant balance == start - fee * i
      invariant rows == lent + Charges(a, fee, start, sides[..i])
    {
      balance := balance - fee;
      assert sides[..i + 1][..i] == sides[..i];
      rows := rows + [Row(a, -fee, balance, if sides[i] == Buy then TradeFeeBuy else TradeFeeSell)];
    }
    assert sides[..|sides|] == sides;
    after := Cash(balance, debt);
    ledger' := ledger + rows;
  }
}
