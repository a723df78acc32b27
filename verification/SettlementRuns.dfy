/**
 * Runs of order admissions, event deliveries and daily settlements: whatever the
 * order, however often they repeat or fail, reservations stay exact and every
 * ledger is a chain that ends at the account's balance.
 */
module SettlementRuns {
  import opened Common
  import opened Futures
  import opened Bank
  import opened Settlement
  import opened SettlementHolds
  import opened OrderAdmission
  import opened DailySettlement

  datatype Step =
    | Admit(request: Request)
    | Receive(event: Event)
    | SettleDaily(symbol: Symbol, day: int, price: int, account: AccountId, row: RowSide)

  predicate Enabled(db: Db, step: Step) {
    match step
    case Admit(r) => Admissible(r) && r.id !in db.orders
    case Receive(ev) => WellFormed(ev) && Describes(db.orders, ev)
    case SettleDaily(_, _, _, _, _) => true
  }

  function Try(db: Db, step: Step): Result<Db>
    requires Enabled(db, step)
  {
    match step
    case Admit(r) => PlaceOrder(db, r)
    case Receive(ev) => Deliver(db, ev)
    case SettleDaily(symbol, day, price, account, row) =>
      var settled := SettlePosition(db, symbol, day, price, account, row);
      if settled.Ok? then Ok(settled.value.db) else Err(settled.error)
  }

  /** A failed transaction leaves the database as it was. */
  function Next(db: Db, step: Step): Db
    requires Enabled(db, step)
  {
    if Try(db, step).Ok? then Try(db, step).value else db
  }

  predicate Runs(db: Db, steps: seq<Step>)
    decreases steps
  {
    steps == [] || (Enabled(db, steps[0]) && Runs(Next(db, steps[0]), steps[1..]))
  }

  function After(db: Db, steps: seq<Step>): Db
    requires Runs(db, steps)
    decreases steps
  {
    if steps == [] then db else After(Next(db, steps[0]), steps[1..])
  }

  predicate IdsBelow(steps: seq<Step>, n: nat) {
    forall s :: s in steps && s.Admit? ==> 0 <= s.request.id < n
  }

  lemma StepKeeps(db: Db, step: Step, n: nat, a: AccountId, opening: int)
    requires Enabled(db, step) && HoldsExact(db, n) && Balanced(db.bank, a, opening)
    requires step.Admit? ==> 0 <= step.request.id < n
    ensures HoldsExact(Next(db, step), n) && Balanced(Next(db, step).bank, a, opening)
  {
    match step
    case Admit(r) =>
      if PlaceOrder(db, r).Ok? {
        AdmitKeepsHolds(db, r, n);
        AdmitEffect(db, r);
      }
    case Receive(ev) =>
      if Deliver(db, ev).Ok? {
        DeliverKeepsHolds(db, ev, n);
        DeliverBalanced(db, ev, a, opening);
      }
    case SettleDaily(symbol, day, price, account, row) =>
      if account in db.bank.accounts {
        SettlePositionEffect(db, symbol, day, price, account, row);
        SettlementKeepsBooks(db, symbol, day, price, account, row, n, a, opening);
      }
  }

  /**
   * In every run of admissions, deliveries and daily settlements - repeated,
   * reordered, failing and retried - every cash and share reservation equals
   * what active orders still reserve, no purse or holding breaks the database's checks (so nothing is
   * released twice), and every ledger chains up to its account's balance.
   */
  lemma {:induction false} EveryRunKeepsBooks(db: Db, steps: seq<Step>, n: nat, a: AccountId, opening: int)
    requires Runs(db, steps) && IdsBelow(steps, n)
    requires HoldsExact(db, n) && Balanced(db.bank, a, opening)
    ensures HoldsExact(After(db, steps), n) && Balanced(After(db, steps).bank, a, opening)
    decreases steps
  {
    if steps != [] {
      assert steps[0] in steps;
      StepKeeps(db, steps[0], n, a, opening);
      assert forall s :: s in steps[1..] ==> s in steps;
      EveryRunKeepsBooks(Next(db, steps[0]), steps[1..], n, a, opening);
    }
  }
}
