/**
 * What the ledger says each won was for: over one fill, the rows of an account
 * add up reason by reason to its price or premium or profit, to one fee a side,
 * and to what the fees had to lend it.
 */
module LedgerReasons {
  import opened Common
  import opened Ledger
  import opened Fees
  import opened Futures
  import opened Bank
  import opened BankLaws

  /** What an account's rows of one reason add up to. */
  function DeltasFor(rows: seq<Row>, a: AccountId, reason: Reason): int {
    if rows == [] then 0
    else
      var last := rows[|rows| - 1];
      DeltasFor(rows[..|rows| - 1], a, reason) + if last.account == a && last.reason == reason then last.delta else 0
  }

  lemma {:induction false} DeltasForAppend(rows: seq<Row>, more: seq<Row>, a: AccountId, reason: Reason)
    ensures DeltasFor(rows + more, a, reason) == DeltasFor(rows, a, reason) + DeltasFor(more, a, reason)
  {
    if more == [] {
      assert rows + more == rows;
    } else {
      var n := |more| - 1;
      assert (rows + more)[..|rows + more| - 1] == rows + more[..n];
      DeltasForAppend(rows, more[..n], a, reason);
    }
  }

  lemma OneRow(row: Row, a: AccountId, reason: Reason)
    ensures DeltasFor([row], a, reason) == if row.account == a && row.reason == reason then row.delta else 0
  {
    assert [row][..0] == [];
  }

  lemma TwoRows(x: Row, y: Row, a: AccountId, reason: Reason)
    ensures DeltasFor([x, y], a, reason) == DeltasFor([x], a, reason) + DeltasFor([y], a, reason)
  {
    DeltasForAppend([x], [y], a, reason);
    assert [x, y] == [x] + [y];
  }

  // ---- Fees ----

  /** One fee for each side the account stands on, unless it pays none; and the shortfall it was lent. */
  function FeeFor(deal: Deal, a: AccountId, p: Purse, reason: Reason): int {
    if !Party(deal, a) || a in deal.exempt then 0
    else
      var fee: int := deal.fee;
      match reason
      case TradeFeeBuy => if a == deal.buyer then -fee else 0
      case TradeFeeSell => if a == deal.seller then -fee else 0
      case TradeFeeDebt => ChargedPurse(deal, a, p).debt - p.debt
      case _ => 0
  }

  function FeeReason(side: Side): Reason {
    if side == Buy then TradeFeeBuy else TradeFeeSell
  }

  lemma LastCharge(a: AccountId, fee: int, start: int, sides: seq<Side>, reason: Reason)
    requires sides != []
    ensures
      var n := |sides| - 1;
      DeltasFor(Charges(a, fee, start, sides), a, reason) ==
      DeltasFor(Charges(a, fee, start, sides[..n]), a, reason) + if reason == FeeReason(sides[n]) then -fee else 0
  {
    var n := |sides| - 1;
    var last := Row(a, -fee, start - fee * |sides|, FeeReason(sides[n]));
    var before := Charges(a, fee, start, sides[..n]);
    assert Charges(a, fee, start, sides) == before + [last];
    DeltasForAppend(before, [last], a, reason);
    OneRow(last, a, reason);
  }

  lemma OneSideFor(a: AccountId, fee: int, start: int, side: Side, reason: Reason)
    ensures DeltasFor(Charges(a, fee, start, [side]), a, reason) == if reason == FeeReason(side) then -fee else 0
  {
    LastCharge(a, fee, start, [side], reason);
    assert [side][..0] == [];
  }

  lemma BothSidesFor(a: AccountId, fee: int, start: int, reason: Reason)
    ensures DeltasFor(Charges(a, fee, start, [Buy, Sell]), a, reason) ==
            (if reason == TradeFeeBuy then -fee else 0) + if reason == TradeFeeSell then -fee else 0
  {
    LastCharge(a, fee, start, [Buy, Sell], reason);
    assert [Buy, Sell][..1] == [Buy];
    OneSideFor(a, fee, start, Buy, reason);
  }

  /** What the charges of the sides of a deal add up to. */
  function ChargeFor(deal: Deal, a: AccountId, reason: Reason): int {
    var fee: int := deal.fee;
    (if a == deal.buyer && reason == TradeFeeBuy then -fee else 0) + if a == deal.seller && reason == TradeFeeSell then -fee else 0
  }

  lemma ChargesFor(deal: Deal, a: AccountId, start: int, reason: Reason)
    requires Party(deal, a)
    ensures DeltasFor(Charges(a, deal.fee, start, SidesOf(a, deal.buyer, deal.seller)), a, reason) == ChargeFor(deal, a, reason)
  {
    if a == deal.buyer && a == deal.seller {
      assert SidesOf(a, deal.buyer, deal.seller) == [Buy, Sell];
      BothSidesFor(a, deal.fee, start, reason);
    } else {
      var side := if a == deal.buyer then Buy else Sell;
      assert SidesOf(a, deal.buyer, deal.seller) == [side];
      OneSideFor(a, deal.fee, start, side, reason);
    }
  }

  lemma LentFor(a: AccountId, amount: int, balance: int, reason: Reason)
    requires amount >= 0
    ensures DeltasFor(Lent(a, amount, balance), a, reason) == if reason == TradeFeeDebt then amount else 0
  {
    OneRow(Row(a, amount, balance, TradeFeeDebt), a, reason);
  }

  lemma FeeRowsFor(deal: Deal, a: AccountId, p: Purse, lent: nat, reason: Reason)
    requires Party(deal, a) && deal.fee != 0 && a !in deal.exempt
    requires lent == Max(0, p.hold + deal.fee * |SidesOf(a, deal.buyer, deal.seller)| - p.balance)
    ensures DeltasFor(FeeRowsOf(deal, a, p), a, reason) == (if reason == TradeFeeDebt then lent else 0) + ChargeFor(deal, a, reason)
  {
    var start := p.balance + lent;
    var lending, charges := Lent(a, lent, start), Charges(a, deal.fee, start, SidesOf(a, deal.buyer, deal.seller));
    assert FeeRowsOf(deal, a, p) == lending + charges;
    DeltasForAppend(lending, charges, a, reason);
    LentFor(a, lent, start, reason);
    ChargesFor(deal, a, start, reason);
  }

  lemma NothingCharged(deal: Deal, a: AccountId, p: Purse)
    requires deal.fee == 0 || a in deal.exempt
    ensures FeeRowsOf(deal, a, p) == [] && ChargedPurse(deal, a, p).debt == p.debt
  {
    assert Due(deal, a) == 0;
  }

  lemma FeesFor(deal: Deal, a: AccountId, p: Purse, reason: Reason)
    requires Party(deal, a)
    ensures DeltasFor(FeeRowsOf(deal, a, p), a, reason) == FeeFor(deal, a, p, reason)
  {
    if deal.fee == 0 || a in deal.exempt {
      NothingCharged(deal, a, p);
    } else {
      DebtIsLent(deal, a, p);
      FeeRowsFor(deal, a, p, ChargedPurse(deal, a, p).debt - p.debt, reason);
    }
  }

  lemma DebtIsLent(deal: Deal, a: AccountId, p: Purse)
    requires Party(deal, a) && deal.fee != 0 && a !in deal.exempt
    ensures ChargedPurse(deal, a, p).debt - p.debt == Max(0, p.hold + deal.fee * |SidesOf(a, deal.buyer, deal.seller)| - p.balance)
  {
    assert deal.fee * |SidesOf(a, deal.buyer, deal.seller)| > 0;
  }

  lemma {:induction false} NoneForOthers(rows: seq<Row>, a: AccountId, b: AccountId, reason: Reason)
    requires RowsOf(rows, a) && a != b
    ensures DeltasFor(rows, b, reason) == 0
  {
    if rows != [] {
      NoneForOthers(rows[..|rows| - 1], a, b, reason);
    }
  }

  lemma PartyFeesFor(deal: Deal, a: AccountId, p: Purse, c: AccountId, reason: Reason)
    requires Party(deal, a)
    ensures DeltasFor(FeeRowsOf(deal, a, p), c, reason) == if c == a then FeeFor(deal, a, p, reason) else 0
  {
    if c == a {
      FeesFor(deal, a, p, reason);
    } else {
      ChargeLinks(deal, a, p);
      NoneForOthers(FeeRowsOf(deal, a, p), a, c, reason);
    }
  }

  // ---- Shares ----

  function SpotFor(deal: Deal, cost: int, held: int, p: Purse, c: AccountId, reason: Reason): int {
    (if c == deal.buyer && reason == TradeBuy then -cost else 0) + (if c == deal.seller && reason == TradeSell then cost else 0)
    + FeeFor(deal, c, SpotPurse(p, deal, cost, held, c), reason)
  }

  /** Over a trade of shares: the price paid, the price received, the fees, and what they had to be lent. */
  lemma SpotReasons(bank: Bank, deal: Deal, cost: int, held: int, c: AccountId, reason: Reason)
    requires deal.buyer in bank.accounts && deal.seller in bank.accounts && SpotCash(bank, deal, cost, held).Ok?
    ensures Extends(bank, SpotCash(bank, deal, cost, held).value)
    ensures DeltasFor(NewRows(bank, SpotCash(bank, deal, cost, held).value), c, reason) == SpotFor(deal, cost, held, PurseOf(bank, c), c, reason)
  {
    var after := SpotCash(bank, deal, cost, held).value;
    var buyer, seller := SpotPurse(PurseOf(bank, deal.buyer), deal, cost, held, deal.buyer), SpotPurse(PurseOf(bank, deal.seller), deal, cost, held, deal.seller);
    var rows, fees := SpotRows(bank, deal, cost), BothRows(deal, buyer, seller);
    SpotRowsAre(bank, deal, cost, held, after);
    DeltasForAppend(rows, fees, c, reason);
    TwoRows(rows[0], rows[1], c, reason);
    OneRow(rows[0], c, reason);
    OneRow(rows[1], c, reason);
    BothFeesFor(deal, buyer, seller, c, reason);
  }

  lemma SpotRowsAre(bank: Bank, deal: Deal, cost: int, held: int, after: Bank)
    requires deal.buyer in bank.accounts && deal.seller in bank.accounts && SpotCash(bank, deal, cost, held) == Ok(after)
    ensures Extends(bank, after)
    ensures
      var buyer, seller := SpotPurse(PurseOf(bank, deal.buyer), deal, cost, held, deal.buyer), SpotPurse(PurseOf(bank, deal.seller), deal, cost, held, deal.seller);
      NewRows(bank, after) == SpotRows(bank, deal, cost) + BothRows(deal, buyer, seller)
  {
    var buyer, seller := SpotPurse(PurseOf(bank, deal.buyer), deal, cost, held, deal.buyer), SpotPurse(PurseOf(bank, deal.seller), deal, cost, held, deal.seller);
    LoggedKeeps(bank, SpotRows(bank, deal, cost));
    ChargeBothEffect(Logged(bank, SpotRows(bank, deal, cost)), deal, buyer, seller);
    assert after.ledger == bank.ledger + (SpotRows(bank, deal, cost) + BothRows(deal, buyer, seller));
  }

  lemma BothFeesFor(deal: Deal, buyer: Purse, seller: Purse, c: AccountId, reason: Reason)
    ensures DeltasFor(BothRows(deal, buyer, seller), c, reason) ==
            if c == deal.buyer then FeeFor(deal, c, buyer, reason) else if c == deal.seller then FeeFor(deal, c, seller, reason) else 0
  {
    PartyFeesFor(deal, deal.buyer, buyer, c, reason);
    if deal.buyer == deal.seller {
      assert FeeRowsOf(deal, deal.buyer, buyer) + [] == FeeRowsOf(deal, deal.buyer, buyer);
    } else {
      PartyFeesFor(deal, deal.seller, seller, c, reason);
      DeltasForAppend(FeeRowsOf(deal, deal.buyer, buyer), FeeRowsOf(deal, deal.seller, seller), c, reason);
    }
  }

  // ---- Futures and options ----

  function LegFor(deal: Deal, terms: Terms, freed: Released, p: Purse, c: AccountId, reason: Reason): int {
    var leg := LegPurse(p, deal, terms, freed, c);
    if !Party(deal, c) then 0
    else (if reason == (if terms.Profit? then FuturesPnl else OptionPremium) then leg.balance - p.balance else 0) + FeeFor(deal, c, leg, reason)
  }

  lemma PayPartyReasons(bank: Bank, deal: Deal, terms: Terms, freed: Released, a: AccountId, c: AccountId, reason: Reason)
    requires Party(deal, a) && a in bank.accounts && PayParty(bank, deal, terms, freed, a).Ok?
    ensures
      var after := PayParty(bank, deal, terms, freed, a).value;
      Extends(bank, after) && DeltasFor(NewRows(bank, after), c, reason) == if c == a then LegFor(deal, terms, freed, PurseOf(bank, a), a, reason) else 0
  {
    var x, leg := PurseOf(bank, a).balance, LegPurse(PurseOf(bank, a), deal, terms, freed, a);
    var why := if terms.Profit? then FuturesPnl else OptionPremium;
    var rows, fees := ChangeRow(a, x, leg.balance, why), FeeRowsOf(deal, a, leg);
    var after := PayParty(bank, deal, terms, freed, a).value;
    LoggedKeeps(bank, rows);
    ChargeEffect(Logged(bank, rows), deal, a, leg);
    assert after.ledger == bank.ledger + (rows + fees);
    assert NewRows(bank, after) == rows + fees;
    DeltasForAppend(rows, fees, c, reason);
    OneRow(Row(a, leg.balance - x, leg.balance, why), c, reason);
    PartyFeesFor(deal, a, leg, c, reason);
  }

  /** Over a trade of futures or options: the profit or premium that changed the balance, the fees, and what they had to be lent. */
  lemma DerivativeReasons(bank: Bank, deal: Deal, terms: Terms, freed: Released, c: AccountId, reason: Reason)
    requires deal.buyer in bank.accounts && deal.seller in bank.accounts && DerivativeCash(bank, deal, terms, freed).Ok?
    ensures
      var after := DerivativeCash(bank, deal, terms, freed).value;
      Extends(bank, after) && DeltasFor(NewRows(bank, after), c, reason) == LegFor(deal, terms, freed, PurseOf(bank, c), c, reason)
  {
    PayPartyReasons(bank, deal, terms, freed, deal.buyer, c, reason);
    PayPartyEffect(bank, deal, terms, freed, deal.buyer);
    if deal.buyer != deal.seller {
      var first := PayParty(bank, deal, terms, freed, deal.buyer).value;
      PayPartyReasons(first, deal, terms, freed, deal.seller, c, reason);
      var after := PayParty(first, deal, terms, freed, deal.seller).value;
      assert PurseOf(first, deal.seller) == PurseOf(bank, deal.seller);
      RowsInTurn(bank, first, after, c, reason);
    }
  }

  lemma RowsInTurn(bank: Bank, first: Bank, after: Bank, c: AccountId, reason: Reason)
    requires Extends(bank, first) && Extends(first, after)
    ensures Extends(bank, after)
    ensures DeltasFor(NewRows(bank, after), c, reason) == DeltasFor(NewRows(bank, first), c, reason) + DeltasFor(NewRows(first, after), c, reason)
  {
    assert NewRows(bank, after) == NewRows(bank, first) + NewRows(first, after);
    DeltasForAppend(NewRows(bank, first), NewRows(first, after), c, reason);
  }
}
