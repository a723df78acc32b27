/**
 * Positions of futures and options: fills with proportional floor division of
 * the entry value, hedge rows that never flip, cash that spills into debt, and
 * margins rounded up.
 */
module Futures {
  import opened Common

  /** Signed contracts, and the sum of entry price times contracts over the open ones. */
  datatype Position = Position(qty: int, entryValue: int)

  const FLAT := Position(0, 0)

  predicate Valid(p: Position) {
    p.entryValue >= 0 && (p.qty == 0 ==> p.entryValue == 0)
  }

  function Abs(x: int): nat {
    if x < 0 then -x else x
  }

  function Sign(x: int): int {
    if x > 0 then 1 else if x < 0 then -1 else 0
  }

  function Delta(side: Side, qty: int): int {
    if side == Buy then qty else -qty
  }

  datatype FillResult = FillResult(position: Position, closedQty: nat, realized: int, overflow: nat)

  function Opens(p: Position, side: Side): bool {
    p.qty == 0 || Sign(p.qty) == Sign(Delta(side, 1))
  }

  /** The part of the entry value that leaves with `closed` contracts. */
  function Basis(p: Position, closed: nat): int
    requires p.qty != 0
  {
    p.entryValue * closed / Abs(p.qty)
  }

  function ApplyFutureFill(unitValue: int, p: Position, side: Side, price: int, fillQty: nat): FillResult
    requires fillQty > 0
  {
    if Opens(p, side) then
      FillResult(Position(p.qty + Delta(side, fillQty), p.entryValue + price * fillQty), 0, 0, 0)
    else
      var closed := Min(fillQty, Abs(p.qty));
      var basis := Basis(p, closed);
      var realized := Sign(p.qty) * (price * closed - basis) * unitValue;
      if fillQty == closed then
        var qty := p.qty + Delta(side, closed);
        FillResult(Position(qty, if qty == 0 then 0 else p.entryValue - basis), closed, realized, 0)
      else
        FillResult(Position(Delta(side, fillQty - closed), price * (fillQty - closed)), closed, realized, 0)
  }

  // ---------------------------------------------------------------- hedge rows

  datatype RowSide = Net | Long | Short

  predicate IsOpeningHedgeOrder(side: Side, row: RowSide)
    requires row != Net
  {
    (side == Buy) == (row == Long)
  }

  /** A closing fill of a hedge row closes at most what the row holds; the rest is overflow. */
  function ApplyHedgeFill(unitValue: int, p: Position, row: RowSide, side: Side, price: int, fillQty: nat): FillResult
    requires row != Net && fillQty > 0
  {
    if IsOpeningHedgeOrder(side, row) then ApplyFutureFill(unitValue, p, side, price, fillQty)
    else
      var closeQty := Min(fillQty, Abs(p.qty));
      if closeQty == 0 then FillResult(p, 0, 0, fillQty)
      else ApplyFutureFill(unitValue, p, side, price, closeQty).(overflow := fillQty - closeQty)
  }

  /** The fill of one leg of a trade on the row its order names. */
  function ApplyFill(unitValue: int, p: Position, row: RowSide, side: Side, price: int, fillQty: nat): FillResult
    requires fillQty > 0
  {
    if row == Net then ApplyFutureFill(unitValue, p, side, price, fillQty)
    else ApplyHedgeFill(unitValue, p, row, side, price, fillQty)
  }

  /** Long rows are never short, short rows never long. */
  predicate FitsRow(p: Position, row: RowSide) {
    (row == Long ==> p.qty >= 0) && (row == Short ==> p.qty <= 0)
  }

  // ---------------------------------------------------------------- cash

  datatype Purse = Purse(balance: int, hold: int, debt: int)

  function Equity(p: Purse): int {
    p.balance - p.debt
  }

  function ApplyFuturesCash(p: Purse, realized: int): Purse {
    if realized >= 0 then
      var repay := if realized < p.debt then realized else p.debt;
      p.(balance := p.balance + realized - repay, debt := p.debt - repay)
    else
      var loss := -realized;
      var room := p.balance - p.hold;
      var paid := if loss < room then loss else if room > 0 then room else 0;
      p.(balance := p.balance - paid, debt := p.debt + (loss - paid))
  }

  // ---------------------------------------------------------------- margins

  /** Value times basis points, rounded up to a whole won. */
  function CeilBps(value: int, bps: int): int {
    (value * bps + 9_999) / 10_000
  }

  /** `won` is the least whole amount that covers `scaled` ten-thousandths of a won. */
  predicate RoundsUp(won: int, scaled: int) {
    10_000 * (won - 1) < scaled <= 10_000 * won
  }

  datatype FutureDef = FutureDef(unitValue: int, initialMarginBps: int, maintenanceMarginBps: int)

  datatype MarginBps = MarginBps(initial: int, maintenance: int)

  /** A chosen leverage of 1 to 20, or none for the exchange's own margin rates. */
  type Leverage = l: Option<int> | l.Some? ==> 1 <= l.value <= 20
    witness None

  function FutureMarginBps(def: FutureDef, leverage: Leverage): MarginBps
  {
    match leverage
    case None => MarginBps(def.initialMarginBps, def.maintenanceMarginBps)
    case Some(times) =>
      var initial := (10_000 + times - 1) / times;
      MarginBps(initial, initial * 2 / 3)
  }

  function FutureMarginPerContract(def: FutureDef, price: int, leverage: Leverage): int
  {
    CeilBps(price * def.unitValue, FutureMarginBps(def, leverage).initial)
  }

  function FuturePositionMargin(def: FutureDef, entryValue: int, leverage: Leverage): int
  {
    CeilBps(entryValue * def.unitValue, FutureMarginBps(def, leverage).initial)
  }

  function FutureMaintenanceMargin(def: FutureDef, qty: int, mark: int, leverage: Leverage): int
  {
    CeilBps(Abs(qty) * mark * def.unitValue, FutureMarginBps(def, leverage).maintenance)
  }

  function FutureUnrealized(unitValue: int, p: Position, mark: int): int {
    if p.qty == 0 then 0 else Sign(p.qty) * (Abs(p.qty) * mark - p.entryValue) * unitValue
  }

  // ---------------------------------------------------------------- options

  function OptionPositionMargin(unitValue: int, writerMarginBps: int, qty: int, strike: int): int {
    if qty < 0 then CeilBps(strike * unitValue, writerMarginBps) * -qty else 0
  }
}
