/**
 * What each settlement path does to every purse, and that each one extends every
 * account's ledger chain from its old balance to its new one.
 */
module BankLaws {
  import opened Common
  import opened Ledger
  import opened Fees
  import opened Futures
  import opened FuturesLaws
  import opened Bank

  predicate SameAccounts(bank: Bank, after: Bank) {
    after.accounts.Keys == bank.accounts.Keys
  }

  predicate Extends(bank: Bank, after: Bank) {
    |bank.ledger| <= |after.ledger| && after.ledger[..|bank.ledger|] == bank.ledger
  }

  function NewRows(bank: Bank, after: Bank): seq<Row>
    requires Extends(bank, after)
  {
    after.ledger[|bank.ledger|..]
  }

  /** The new rows lead the account from its old balance to its new one. */
  ghost predicate FollowsFor(bank: Bank, after: Bank, a: AccountId)
    requires Extends(bank, after)
  {
    Links(NewRows(bank, after), a, PurseOf(bank, a).balance, PurseOf(after, a).balance)
  }

  ghost predicate LedgerFollows(bank: Bank, after: Bank) {
    Extends(bank, after) && forall a :: FollowsFor(bank, after, a)
  }

  ghost predicate OthersKeep(bank: Bank, after: Bank, a: AccountId) {
    forall c :: c != a ==> PurseOf(after, c) == PurseOf(bank, c)
  }

  // ---------------------------------------------------------------- one account

  lemma WithPurseEffect(bank: Bank, a: AccountId, p: Purse)
    requires a in bank.accounts
    ensures
      var after := WithPurse(bank, a, p);
      SameAccounts(bank, after) && PurseOf(after, a) == p && OthersKeep(bank, after, a) && after.ledger == bank.ledger
  {
  }

  lemma LoggedKeeps(bank: Bank, rows: seq<Row>)
    ensures forall c :: PurseOf(Logged(bank, rows), c) == PurseOf(bank, c)
    ensures Logged(bank, rows).accounts == bank.accounts
  {
  }

  lemma ChargeEffect(bank: Bank, deal: Deal, a: AccountId, p: Purse)
    requires a in bank.accounts && Charge(bank, deal, a, p).Ok?
    ensures
      var after := Charge(bank, deal, a, p).value;
      && SameAccounts(bank, after) && OthersKeep(bank, after, a)
      && PurseOf(after, a) == ChargedPurse(deal, a, p) && PurseAllowed(ChargedPurse(deal, a, p))
      && after.ledger == bank.ledger + FeeRowsOf(deal, a, p)
  {
    var with := Logged(bank, FeeRowsOf(deal, a, p));
    LoggedKeeps(bank, FeeRowsOf(deal, a, p));
    WithPurseEffect(with, a, ChargedPurse(deal, a, p));
  }

  lemma ChargeLinks(deal: Deal, a: AccountId, p: Purse)
    requires Party(deal, a)
    ensures RowsOf(FeeRowsOf(deal, a, p), a)
    ensures Links(FeeRowsOf(deal, a, p), a, p.balance, ChargedPurse(deal, a, p).balance)
  {
    FeeRowsLink(deal.fee, a in deal.exempt, a, SidesOf(a, deal.buyer, deal.seller), Cash(p.balance, p.debt), p.hold);
  }

  lemma ChangeRowLinks(a: AccountId, before: int, after: int, reason: Reason)
    ensures RowsOf(ChangeRow(a, before, after, reason), a) && Links(ChangeRow(a, before, after, reason), a, before, after)
  {
    RowLinks(Row(a, after - before, after, reason), a, before);
  }

  /** A step that touches one account, and logs rows of that account only, keeps every chain. */
  lemma OneAccountFollows(bank: Bank, after: Bank, a: AccountId)
    requires Extends(bank, after) && RowsOf(NewRows(bank, after), a)
    requires FollowsFor(bank, after, a) && OthersKeep(bank, after, a)
    ensures LedgerFollows(bank, after)
  {
    forall c
      ensures FollowsFor(bank, after, c)
    {
      if c != a {
        OthersUnmoved(NewRows(bank, after), a, c, PurseOf(bank, c).balance);
      }
    }
  }

  lemma FollowsTrans(x: Bank, y: Bank, z: Bank)
    requires LedgerFollows(x, y) && LedgerFollows(y, z)
    ensures LedgerFollows(x, z)
  {
    assert NewRows(x, z) == NewRows(x, y) + NewRows(y, z);
    forall c
      ensures FollowsFor(x, z, c)
    {
      assert FollowsFor(x, y, c) && FollowsFor(y, z, c);
      LinksAppend(NewRows(x, y), NewRows(y, z), c, PurseOf(x, c).balance, PurseOf(y, c).balance, PurseOf(z, c).balance);
    }
  }

  // ---------------------------------------------------------------- spot

  function BothRows(deal: Deal, buyer: Purse, seller: Purse): seq<Row> {
    FeeRowsOf(deal, deal.buyer, buyer) + (if deal.buyer == deal.seller then [] else FeeRowsOf(deal, deal.seller, seller))
  }

  function BothPurse(bank: Bank, deal: Deal, buyer: Purse, seller: Purse, c: AccountId): Purse {
    if c == deal.buyer then ChargedPurse(deal, c, buyer)
    else if c == deal.seller then ChargedPurse(deal, c, seller)
    else PurseOf(bank, c)
  }

  lemma ChargeBothEffect(bank: Bank, deal: Deal, buyer: Purse, seller: Purse)
    requires deal.buyer in bank.accounts && deal.seller in bank.accounts && ChargeBoth(bank, deal, buyer, seller).Ok?
    ensures
      var after := ChargeBoth(bank, deal, buyer, seller).value;
      && SameAccounts(bank, after)
      && (forall c :: PurseOf(after, c) == BothPurse(bank, deal, buyer, seller, c))
      && (forall c :: Party(deal, c) ==> PurseAllowed(PurseOf(after, c)))
      && after.ledger == bank.ledger + BothRows(deal, buyer, seller)
  {
    ChargeEffect(bank, deal, deal.buyer, buyer);
    if deal.buyer != deal.seller {
      ChargeEffect(Charge(bank, deal, deal.buyer, buyer).value, deal, deal.seller, seller);
    }
  }

  /** The buyer's fees, then the seller's: one chain for every account. */
  lemma BothLink(bank: Bank, deal: Deal, buyer: Purse, seller: Purse, c: AccountId, x: int)
    requires x == if c == deal.buyer then buyer.balance else if c == deal.seller then seller.balance else PurseOf(bank, c).balance
    ensures Links(BothRows(deal, buyer, seller), c, x, BothPurse(bank, deal, buyer, seller, c).balance)
  {
    var fees := FeeRowsOf(deal, deal.buyer, buyer);
    ChargeLinks(deal, deal.buyer, buyer);
    if c != deal.buyer {
      OthersUnmoved(fees, deal.buyer, c, x);
    }
    var end := BothPurse(bank, deal, buyer, seller, c).balance;
    var mid := if c == deal.buyer then end else x;
    if deal.buyer != deal.seller {
      var more := FeeRowsOf(deal, deal.seller, seller);
      ChargeLinks(deal, deal.seller, seller);
      if c != deal.seller {
        OthersUnmoved(more, deal.seller, c, mid);
      }
      LinksAppend(fees, more, c, x, mid, end);
    } else {
      assert fees + [] == fees;
    }
  }

  /** The two consideration rows lead each party from its balance to its balance before fees. */
  lemma SpotRowsLink(bank: Bank, deal: Deal, cost: int, held: int, c: AccountId)
    ensures Links(SpotRows(bank, deal, cost), c, PurseOf(bank, c).balance, SpotPurse(PurseOf(bank, c), deal, cost, held, c).balance)
  {
    var rows := SpotRows(bank, deal, cost);
    var x := PurseOf(bank, c).balance;
    var y := if c == deal.buyer then x - cost else x;
    RowLinks(rows[0], c, x);
    RowLinks(rows[1], c, y);
    assert rows == [rows[0]] + [rows[1]];
    LinksAppend([rows[0]], [rows[1]], c, x, y, SpotPurse(PurseOf(bank, c), deal, cost, held, c).balance);
  }

  function SpotFinal(p: Purse, deal: Deal, cost: int, held: int, c: AccountId): Purse {
    if Party(deal, c) then ChargedPurse(deal, c, SpotPurse(p, deal, cost, held, c)) else p
  }

  lemma SpotCashEffect(bank: Bank, deal: Deal, cost: int, held: int)
    requires deal.buyer in bank.accounts && deal.seller in bank.accounts && SpotCash(bank, deal, cost, held).Ok?
    ensures
      var after := SpotCash(bank, deal, cost, held).value;
      && SameAccounts(bank, after) && LedgerFollows(bank, after)
      && (forall c :: PurseOf(after, c) == SpotFinal(PurseOf(bank, c), deal, cost, held, c))
      && (forall c :: Party(deal, c) ==> PurseAllowed(PurseOf(after, c)))
  {
    var with := Logged(bank, SpotRows(bank, deal, cost));
    LoggedKeeps(bank, SpotRows(bank, deal, cost));
    var buyer, seller := SpotPurse(PurseOf(bank, deal.buyer), deal, cost, held, deal.buyer), SpotPurse(PurseOf(bank, deal.seller), deal, cost, held, deal.seller);
    ChargeBothEffect(with, deal, buyer, seller);
    SpotLedger(bank, deal, cost, held, SpotCash(bank, deal, cost, held).value);
  }

  lemma SpotLedger(bank: Bank, deal: Deal, cost: int, held: int, after: Bank)
    requires forall c :: PurseOf(after, c) == SpotFinal(PurseOf(bank, c), deal, cost, held, c)
    requires
      var buyer, seller := SpotPurse(PurseOf(bank, deal.buyer), deal, cost, held, deal.buyer), SpotPurse(PurseOf(bank, deal.seller), deal, cost, held, deal.seller);
      after.ledger == bank.ledger + SpotRows(bank, deal, cost) + BothRows(deal, buyer, seller)
    ensures LedgerFollows(bank, after)
  {
    var buyer, seller := SpotPurse(PurseOf(bank, deal.buyer), deal, cost, held, deal.buyer), SpotPurse(PurseOf(bank, deal.seller), deal, cost, held, deal.seller);
    assert NewRows(bank, after) == SpotRows(bank, deal, cost) + BothRows(deal, buyer, seller);
    forall c
      ensures FollowsFor(bank, after, c)
    {
      var mid := SpotPurse(PurseOf(bank, c), deal, cost, held, c).balance;
      SpotRowsLink(bank, deal, cost, held, c);
      BothLink(bank, deal, buyer, seller, c, mid);
      LinksAppend(SpotRows(bank, deal, cost), BothRows(deal, buyer, seller), c, PurseOf(bank, c).balance, mid, PurseOf(after, c).balance);
    }
  }

  // ---------------------------------------------------------------- futures and options

  lemma PayPartyEffect(bank: Bank, deal: Deal, terms: Terms, freed: Released, a: AccountId)
    requires Party(deal, a) && a in bank.accounts && PayParty(bank, deal, terms, freed, a).Ok?
    ensures
      var after := PayParty(bank, deal, terms, freed, a).value;
      && SameAccounts(bank, after) && OthersKeep(bank, after, a) && LedgerFollows(bank, after)
      && PurseOf(after, a) == ChargedPurse(deal, a, LegPurse(PurseOf(bank, a), deal, terms, freed, a)) && PurseAllowed(PurseOf(after, a))
  {
    var p := LegPurse(PurseOf(bank, a), deal, terms, freed, a);
    var x := PurseOf(bank, a).balance;
    var rows := ChangeRow(a, x, p.balance, if terms.Profit? then FuturesPnl else OptionPremium);
    LoggedKeeps(bank, rows);
    ChargeEffect(Logged(bank, rows), deal, a, p);
    ChangeRowLinks(a, x, p.balance, if terms.Profit? then FuturesPnl else OptionPremium);
    PaidFollows(bank, PayParty(bank, deal, terms, freed, a).value, deal, a, p, rows);
  }

  lemma PaidFollows(bank: Bank, after: Bank, deal: Deal, a: AccountId, p: Purse, rows: seq<Row>)
    requires Party(deal, a) && OthersKeep(bank, after, a) && after.ledger == bank.ledger + rows + FeeRowsOf(deal, a, p)
    requires PurseOf(after, a) == ChargedPurse(deal, a, p)
    requires RowsOf(rows, a) && Links(rows, a, PurseOf(bank, a).balance, p.balance)
    ensures LedgerFollows(bank, after)
  {
    var fees := FeeRowsOf(deal, a, p);
    assert after.ledger == bank.ledger + (rows + fees);
    assert NewRows(bank, after) == rows + fees;
    ChargeLinks(deal, a, p);
    LinksAppend(rows, fees, a, PurseOf(bank, a).balance, p.balance, PurseOf(after, a).balance);
    OneAccountFollows(bank, after, a);
  }

  function DerivativeFinal(p: Purse, deal: Deal, terms: Terms, freed: Released, c: AccountId): Purse {
    if Party(deal, c) then ChargedPurse(deal, c, LegPurse(p, deal, terms, freed, c)) else p
  }

  lemma DerivativeCashEffect(bank: Bank, deal: Deal, terms: Terms, freed: Released)
    requires deal.buyer in bank.accounts && deal.seller in bank.accounts && DerivativeCash(bank, deal, terms, freed).Ok?
    ensures
      var after := DerivativeCash(bank, deal, terms, freed).value;
      && SameAccounts(bank, after) && LedgerFollows(bank, after)
      && (forall c :: PurseOf(after, c) == DerivativeFinal(PurseOf(bank, c), deal, terms, freed, c))
      && (forall c :: Party(deal, c) ==> PurseAllowed(PurseOf(after, c)))
  {
    PayPartyEffect(bank, deal, terms, freed, deal.buyer);
    var first := PayParty(bank, deal, terms, freed, deal.buyer).value;
    if deal.buyer != deal.seller {
      PayPartyEffect(first, deal, terms, freed, deal.seller);
      var after := PayParty(first, deal, terms, freed, deal.seller).value;
      FollowsTrans(bank, first, after);
      forall c
        ensures PurseOf(after, c) == DerivativeFinal(PurseOf(bank, c), deal, terms, freed, c)
      {
        PairFinal(bank, first, after, deal, terms, freed, c);
      }
    }
  }

  lemma PairFinal(bank: Bank, first: Bank, after: Bank, deal: Deal, terms: Terms, freed: Released, c: AccountId)
    requires deal.buyer != deal.seller && OthersKeep(bank, first, deal.buyer) && OthersKeep(first, after, deal.seller)
    requires PurseOf(first, deal.buyer) == ChargedPurse(deal, deal.buyer, LegPurse(PurseOf(bank, deal.buyer), deal, terms, freed, deal.buyer))
    requires PurseOf(after, deal.seller) == ChargedPurse(deal, deal.seller, LegPurse(PurseOf(first, deal.seller), deal, terms, freed, deal.seller))
    ensures PurseOf(after, c) == DerivativeFinal(PurseOf(bank, c), deal, terms, freed, c)
  {
    assert PurseOf(first, deal.seller) == PurseOf(bank, deal.seller);
  }

  // ---------------------------------------------------------------- daily settlement

  /** Settling an amount moves equity by exactly that amount and keeps the chain. */
  lemma SettleAmountEffect(bank: Bank, a: AccountId, amount: int, reason: Reason)
    requires a in bank.accounts && PurseAllowed(PurseOf(bank, a))
    ensures SettleAmount(bank, a, amount, reason).Ok?
    ensures
      var after := SettleAmount(bank, a, amount, reason).value;
      && SameAccounts(bank, after) && OthersKeep(bank, after, a) && LedgerFollows(bank, after)
      && PurseAllowed(PurseOf(after, a)) && PurseOf(after, a).hold == PurseOf(bank, a).hold
      && Equity(PurseOf(after, a)) == Equity(PurseOf(bank, a)) + amount
  {
    var p := ApplyFuturesCash(PurseOf(bank, a), amount);
    CashExact(PurseOf(bank, a), amount);
    var rows := ChangeRow(a, PurseOf(bank, a).balance, p.balance, reason);
    LoggedKeeps(bank, rows);
    WithPurseEffect(Logged(bank, rows), a, p);
    ChangeRowLinks(a, PurseOf(bank, a).balance, p.balance, reason);
    var after := SettleAmount(bank, a, amount, reason).value;
    assert NewRows(bank, after) == rows;
    OneAccountFollows(bank, after, a);
  }

  // ---------------------------------------------------------------- holds and equity after a fill

  lemma ChargedMoves(deal: Deal, a: AccountId, p: Purse)
    ensures ChargedPurse(deal, a, p).hold == p.hold && Equity(ChargedPurse(deal, a, p)) == Equity(p) - Due(deal, a)
  {
  }

  lemma OutsidersPayNothing(deal: Deal, a: AccountId)
    requires !Party(deal, a)
    ensures Due(deal, a) == 0
  {
    assert SidesOf(a, deal.buyer, deal.seller) == [];
  }

  /** A spot fill uses up exactly the buyer's reservation and moves equity by cost and fees alone. */
  lemma SpotMoves(p: Purse, deal: Deal, cost: int, held: int, c: AccountId)
    ensures
      var after := SpotFinal(p, deal, cost, held, c);
      && after.hold == p.hold - OfSides(deal, c, held, 0)
      && Equity(after) == Equity(p) + OfSides(deal, c, -cost, cost) - Due(deal, c)
  {
    if Party(deal, c) {
      ChargedMoves(deal, c, SpotPurse(p, deal, cost, held, c));
    } else {
      OutsidersPayNothing(deal, c);
    }
  }

  function TermsGain(deal: Deal, terms: Terms, c: AccountId): int {
    match terms
    case Profit(buy, sell) => OfSides(deal, c, buy, sell)
    case Premium(premium) => OfSides(deal, c, -premium, premium)
  }

  /** A derivative fill frees exactly the margins of its orders and moves equity by its terms and fees. */
  lemma DerivativeMoves(p: Purse, deal: Deal, terms: Terms, freed: Released, c: AccountId)
    ensures
      var after := DerivativeFinal(p, deal, terms, freed, c);
      && after.hold == p.hold - OfSides(deal, c, freed.buy, freed.sell)
      && Equity(after) == Equity(p) + TermsGain(deal, terms, c) - Due(deal, c)
  {
    LegMoves(p, deal, terms, freed, c);
    if Party(deal, c) {
      ChargedMoves(deal, c, LegPurse(p, deal, terms, freed, c));
    } else {
      OutsidersPayNothing(deal, c);
    }
  }

  lemma LegMoves(p: Purse, deal: Deal, terms: Terms, freed: Released, c: AccountId)
    ensures
      var leg := LegPurse(p, deal, terms, freed, c);
      && leg.hold == p.hold - OfSides(deal, c, freed.buy, freed.sell)
      && Equity(leg) == Equity(p) + TermsGain(deal, terms, c)
  {
    if terms.Profit? {
      CashExact(p.(hold := p.hold - OfSides(deal, c, freed.buy, freed.sell)), OfSides(deal, c, terms.buy, terms.sell));
    }
  }
}
