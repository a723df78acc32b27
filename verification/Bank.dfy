/**
 * The cash side of every settlement path: accounts, debts and the ledger. Each
 * path is a function from one bank to the next that fails when the database
 * would refuse a row.
 */
module Bank {
  import opened Common
  import opened Ledger
  import opened Fees
  import opened Futures

  datatype Account = Account(balance: int, hold: int)

  datatype Bank = Bank(accounts: map<AccountId, Account>, debts: map<AccountId, int>, ledger: seq<Row>)

  datatype Error =
    MissingAccount | MissingOrder | MissingSeries | MissingHolding | LateTrade | Overfill | CheckViolated | CloseAhead | Insufficient | MissingPrice

  datatype Result<T> = Ok(value: T) | Err(error: Error)

  function DebtOf(bank: Bank, a: AccountId): int {
    if a in bank.debts then bank.debts[a] else 0
  }

  function PurseOf(bank: Bank, a: AccountId): Purse {
    if a in bank.accounts then Purse(bank.accounts[a].balance, bank.accounts[a].hold, DebtOf(bank, a))
    else Purse(0, 0, DebtOf(bank, a))
  }

  /** The database's own checks on an account row and a debt row. */
  predicate PurseAllowed(p: Purse) {
    p.balance >= 0 && 0 <= p.hold <= p.balance && p.debt >= 0
  }

  function WithPurse(bank: Bank, a: AccountId, p: Purse): Bank {
    bank.(accounts := bank.accounts[a := Account(p.balance, p.hold)],
          debts := if p.debt == DebtOf(bank, a) then bank.debts else bank.debts[a := p.debt])
  }

  function PutPurse(bank: Bank, a: AccountId, p: Purse): Result<Bank> {
    if PurseAllowed(p) then Ok(WithPurse(bank, a, p)) else Err(CheckViolated)
  }

  function Logged(bank: Bank, rows: seq<Row>): Bank {
    bank.(ledger := bank.ledger + rows)
  }

  // ---------------------------------------------------------------- charging the parties of a fill

  /** Who trades, the fee of one side, and the accounts that pay none. */
  datatype Deal = Deal(buyer: AccountId, seller: AccountId, fee: nat, exempt: set<AccountId>)

  predicate Party(deal: Deal, a: AccountId) {
    a == deal.buyer || a == deal.seller
  }

  /** What an account's own sides add up to; a self-trade stands on both. */
  function OfSides(deal: Deal, a: AccountId, buy: int, sell: int): int {
    (if a == deal.buyer then buy else 0) + (if a == deal.seller then sell else 0)
  }

  function Due(deal: Deal, a: AccountId): int {
    FeesDue(deal.fee, a in deal.exempt, |SidesOf(a, deal.buyer, deal.seller)|)
  }

  function ChargedPurse(deal: Deal, a: AccountId, p: Purse): Purse {
    var after := Charged(Cash(p.balance, p.debt), p.hold, Due(deal, a));
    Purse(after.balance, p.hold, after.debt)
  }

  function FeeRowsOf(deal: Deal, a: AccountId, p: Purse): seq<Row> {
    FeeRows(deal.fee, a in deal.exempt, a, SidesOf(a, deal.buyer, deal.seller), Cash(p.balance, p.debt), p.hold)
  }

  /** Charges the fees of one party on top of `p` and writes its account, once. */
  function Charge(bank: Bank, deal: Deal, a: AccountId, p: Purse): Result<Bank> {
    PutPurse(Logged(bank, FeeRowsOf(deal, a, p)), a, ChargedPurse(deal, a, p))
  }

  function ChargeBoth(bank: Bank, deal: Deal, buyer: Purse, seller: Purse): Result<Bank> {
    var first := Charge(bank, deal, deal.buyer, buyer);
    if first.Err? || deal.buyer == deal.seller then first else Charge(first.value, deal, deal.seller, seller)
  }

  // ---------------------------------------------------------------- spot

  /** Cash for shares: the cost changes hands and the buyer's reservation for it is used up. */
  function SpotPurse(p: Purse, deal: Deal, cost: int, held: int, a: AccountId): Purse {
    Purse(p.balance + OfSides(deal, a, -cost, cost), p.hold - OfSides(deal, a, held, 0), p.debt)
  }

  function SpotRows(bank: Bank, deal: Deal, cost: int): seq<Row> {
    var paid := PurseOf(bank, deal.buyer).balance - cost;
    var received := (if deal.buyer == deal.seller then paid else PurseOf(bank, deal.seller).balance) + cost;
    [Row(deal.buyer, -cost, paid, TradeBuy), Row(deal.seller, cost, received, TradeSell)]
  }

  function SpotCash(bank: Bank, deal: Deal, cost: int, held: int): Result<Bank> {
    ChargeBoth(Logged(bank, SpotRows(bank, deal, cost)), deal,
               SpotPurse(PurseOf(bank, deal.buyer), deal, cost, held, deal.buyer),
               SpotPurse(PurseOf(bank, deal.seller), deal, cost, held, deal.seller))
  }

  // ---------------------------------------------------------------- futures and options

  /** What the legs of a derivative trade move: profit realized on each, or one premium. */
  datatype Terms = Profit(buy: int, sell: int) | Premium(premium: int)

  datatype Released = Released(buy: int, sell: int)

  /** The purse of a party before fees: its order margin freed, then its profit or its premium. */
  function LegPurse(p: Purse, deal: Deal, terms: Terms, freed: Released, a: AccountId): Purse {
    var free := p.(hold := p.hold - OfSides(deal, a, freed.buy, freed.sell));
    match terms
    case Profit(buy, sell) => ApplyFuturesCash(free, OfSides(deal, a, buy, sell))
    case Premium(premium) => free.(balance := free.balance + OfSides(deal, a, -premium, premium))
  }

  /** A change of balance leaves a ledger row; no change leaves none. */
  function ChangeRow(a: AccountId, before: int, after: int, reason: Reason): seq<Row> {
    if after == before then [] else [Row(a, after - before, after, reason)]
  }

  function PayParty(bank: Bank, deal: Deal, terms: Terms, freed: Released, a: AccountId): Result<Bank> {
    var p := LegPurse(PurseOf(bank, a), deal, terms, freed, a);
    var rows := ChangeRow(a, PurseOf(bank, a).balance, p.balance, if terms.Profit? then FuturesPnl else OptionPremium);
    Charge(Logged(bank, rows), deal, a, p)
  }

  function DerivativeCash(bank: Bank, deal: Deal, terms: Terms, freed: Released): Result<Bank> {
    var first := PayParty(bank, deal, terms, freed, deal.buyer);
    if first.Err? || deal.buyer == deal.seller then first else PayParty(first.value, deal, terms, freed, deal.seller)
  }

  // ---------------------------------------------------------------- daily settlement

  /** Settles an amount with one account, against its cash and its debt. */
  function SettleAmount(bank: Bank, a: AccountId, amount: int, reason: Reason): Result<Bank> {
    var p := ApplyFuturesCash(PurseOf(bank, a), amount);
    PutPurse(Logged(bank, ChangeRow(a, PurseOf(bank, a).balance, p.balance, reason)), a, p)
  }
}
