/**
 * The risk of one account's futures, and the liquidation of an unmet margin
 * call: closing a share of every position cures the call exactly when the
 * account still has equity.
 */
module MarginCall {
  import opened Arithmetic
  import opened Common
  import opened Futures
  import opened FuturesLaws

  const FUTURES_EMERGENCY_LOSS_BPS := 9_000

  datatype PositionKey = PositionKey(symbol: int, row: RowSide)

  datatype RiskPosition = RiskPosition(key: PositionKey, def: FutureDef, position: Position, marginHeld: int,
                                       mark: int, leverage: Leverage)

  datatype Assessment = Assessment(equity: int, unrealized: int, maintenance: int, initial: int,
                                   belowMaintenance: bool, shortfall: int, emergency: seq<PositionKey>)

  /** What the tables and the database guarantee of a position that is assessed. */
  predicate Assessable(p: RiskPosition) {
    && Valid(p.position) && FitsRow(p.position, p.key.row)
    && p.mark >= 0
    && 0 <= p.def.unitValue && 0 <= p.def.maintenanceMarginBps <= p.def.initialMarginBps
  }

  predicate AllAssessable(positions: seq<RiskPosition>) {
    forall i :: 0 <= i < |positions| ==> Assessable(positions[i])
  }

  function Unrealized(p: RiskPosition): int {
    FutureUnrealized(p.def.unitValue, p.position, p.mark)
  }

  function Maintenance(p: RiskPosition): int
    requires Assessable(p)
  {
    if p.position.qty == 0 then 0 else FutureMaintenanceMargin(p.def, p.position.qty, p.mark, p.leverage)
  }

  function InitialMargin(p: RiskPosition): int
    requires Assessable(p)
  {
    FutureMarginPerContract(p.def, p.mark, p.leverage) * Abs(p.position.qty)
  }

  /** The position has lost nine tenths of the margin held for it. */
  predicate Emergency(p: RiskPosition) {
    p.position.qty != 0 && p.marginHeld > 0 && -Unrealized(p) * 10_000 >= p.marginHeld * FUTURES_EMERGENCY_LOSS_BPS
  }

  /** A position is an emergency exactly when closing it at the mark would lose nine tenths of the margin held for it. */
  lemma EmergencyIff(p: RiskPosition)
    requires Assessable(p) && p.position.qty != 0
    ensures
      var entry := if p.position.qty > 0 then p.position.entryValue else -p.position.entryValue;
      Emergency(p) <==> p.marginHeld > 0 && 10 * ((entry - p.position.qty * p.mark) * p.def.unitValue) >= 9 * p.marginHeld
  {
    UnrealizedIs(p.def.unitValue, p.position, p.mark);
    var entry := if p.position.qty > 0 then p.position.entryValue else -p.position.entryValue;
    assert -((p.position.qty * p.mark - entry) * p.def.unitValue) == (entry - p.position.qty * p.mark) * p.def.unitValue;
  }

  function TotalUnrealized(positions: seq<RiskPosition>): int {
    if positions == [] then 0 else TotalUnrealized(positions[..|positions| - 1]) + Unrealized(positions[|positions| - 1])
  }

  function TotalMaintenance(positions: seq<RiskPosition>): int
    requires AllAssessable(positions)
  {
    if positions == [] then 0 else TotalMaintenance(positions[..|positions| - 1]) + Maintenance(positions[|positions| - 1])
  }

  function TotalInitial(positions: seq<RiskPosition>): int
    requires AllAssessable(positions)
  {
    if positions == [] then 0 else TotalInitial(positions[..|positions| - 1]) + InitialMargin(positions[|positions| - 1])
  }

  method AssessFuturesRisk(positions: seq<RiskPosition>, balance: int, debt: int) returns (r: Assessment)
    requires AllAssessable(positions)
    ensures r.unrealized == TotalUnrealized(positions) && r.maintenance == TotalMaintenance(positions)
    ensures r.initial == TotalInitial(positions) && r.equity == balance + TotalUnrealized(positions) - debt
    ensures r.belowMaintenance <==> r.equity < r.maintenance
    ensures r.shortfall == Max(0, r.initial - r.equity)
    ensures forall k :: k in r.emergency <==> exists i :: 0 <= i < |positions| && positions[i].key == k && Emergency(positions[i])
  {
    var unrealized, maintenance, initial := 0, 0, 0;
    var emergency: seq<PositionKey> := [];
    for i := 0 to |positions|
      invariant unrealized == TotalUnrealized(positions[..i])
      invariant maintenance == TotalMaintenance(positions[..i])
      invariant initial == TotalInitial(positions[..i])
      invariant forall k :: k in emergency <==> exists j :: 0 <= j < i && positions[j].key == k && Emergency(positions[j])
    {
      assert positions[..i + 1][..i] == positions[..i];
      var p := positions[i];
      if p.position.qty != 0 {
        var pnl := Unrealized(p);
        unrealized := unrealized + pnl;
        maintenance := maintenance + FutureMaintenanceMargin(p.def, p.position.qty, p.mark, p.leverage);
        initial := initial + FutureMarginPerContract(p.def, p.mark, p.leverage) * Abs(p.position.qty);
        if p.marginHeld > 0 && -pnl * 10_000 >= p.marginHeld * FUTURES_EMERGENCY_LOSS_BPS {
          emergency := emergency + [p.key];
        }
      }
    }
    assert positions[..|positions|] == positions;
    var equity := balance + unrealized - debt;
    var shortfall := if initial > equity then initial - equity else 0;
    r := Assessment(equity, unrealized, maintenance, initial, equity < maintenance, shortfall, emergency);
  }

  function MarginCallLiquidationQty(qty: int, shortfall: int, initial: int): (n: nat)
    ensures n <= Abs(qty)
  {
    var size := Abs(qty);
    if size == 0 || shortfall <= 0 then 0
    else if initial <= 0 || shortfall >= initial then size
    else Max(1, Min(size, (size * shortfall + initial - 1) / initial))
  }

  // ---------------------------------------------------------------- closing at the mark

  /** What the settled liquidation order leaves of a position, and what it realizes. */
  function Closed(p: RiskPosition, n: nat): FillResult
    requires Assessable(p) && n <= Abs(p.position.qty)
  {
    if n == 0 then FillResult(p.position, 0, 0, 0)
    else ApplyFill(p.def.unitValue, p.position, p.key.row, if p.position.qty > 0 then Sell else Buy, p.mark, n)
  }

  function Liquidated(p: RiskPosition, shortfall: int, initial: int): RiskPosition
    requires Assessable(p)
  {
    var left := Closed(p, MarginCallLiquidationQty(p.position.qty, shortfall, initial)).position;
    p.(position := left, marginHeld := if left.qty == 0 then 0 else FuturePositionMargin(p.def, left.entryValue, p.leverage))
  }

  function Realized(p: RiskPosition, shortfall: int, initial: int): int
    requires Assessable(p)
  {
    Closed(p, MarginCallLiquidationQty(p.position.qty, shortfall, initial)).realized
  }

  function LiquidateAll(positions: seq<RiskPosition>, shortfall: int, initial: int): (after: seq<RiskPosition>)
    requires AllAssessable(positions)
    ensures |after| == |positions|
    ensures forall i :: 0 <= i < |after| ==> after[i] == Liquidated(positions[i], shortfall, initial)
  {
    if positions == [] then []
    else LiquidateAll(positions[..|positions| - 1], shortfall, initial) + [Liquidated(positions[|positions| - 1], shortfall, initial)]
  }

  /** Cash after each realized amount has been settled in turn. */
  function Settled(purse: Purse, positions: seq<RiskPosition>, shortfall: int, initial: int): Purse
    requires AllAssessable(positions)
  {
    if positions == [] then purse
    else
      var p := positions[|positions| - 1];
      ApplyFuturesCash(Settled(purse, positions[..|positions| - 1], shortfall, initial), Realized(p, shortfall, initial))
  }

  lemma UnrealizedIs(unitValue: int, p: Position, mark: int)
    requires Valid(p)
    ensures FutureUnrealized(unitValue, p, mark) == (p.qty * mark - SignedEntry(p)) * unitValue
  {
    if p.qty > 0 {
      assert Abs(p.qty) * mark == p.qty * mark;
    } else if p.qty < 0 {
      assert -(Abs(p.qty) * mark) == p.qty * mark;
    }
  }

  /** Closing at the mark turns unrealized profit into realized profit, to the won. */
  lemma ClosingIsNeutral(p: RiskPosition, n: nat)
    requires Assessable(p) && n <= Abs(p.position.qty)
    ensures
      var r := Closed(p, n);
      && Valid(r.position) && FitsRow(r.position, p.key.row)
      && Abs(r.position.qty) == Abs(p.position.qty) - n
      && FutureUnrealized(p.def.unitValue, r.position, p.mark) + r.realized == Unrealized(p)
  {
    var r := Closed(p, n);
    if n > 0 {
      var side := if p.position.qty > 0 then Sell else Buy;
      RowFillExact(p.def.unitValue, p.position, p.key.row, side, p.mark, n);
      UnrealizedIs(p.def.unitValue, p.position, p.mark);
      UnrealizedIs(p.def.unitValue, r.position, p.mark);
      var moved := Delta(side, n);
      var x := r.position.qty * p.mark - SignedEntry(r.position);
      var y := SignedEntry(r.position) - SignedEntry(p.position) - moved * p.mark;
      Distribute(x, y, p.def.unitValue);
      Distribute(p.position.qty, moved, p.mark);
      assert x + y == p.position.qty * p.mark - SignedEntry(p.position);
    }
  }

  /** The liquidated share is at least the shortfall's share of the initial margin. */
  lemma LiquidationShare(qty: int, shortfall: int, initial: int)
    requires 0 < shortfall < initial
    ensures (Abs(qty) - MarginCallLiquidationQty(qty, shortfall, initial)) * initial <= Abs(qty) * (initial - shortfall)
  {
    var size := Abs(qty);
    if size > 0 {
      var a := size * shortfall;
      var n := (a + initial - 1) / initial;
      DivBetween(a + initial - 1, initial);
      assert n * initial >= a;
      assert MarginCallLiquidationQty(qty, shortfall, initial) >= Min(size, n);
      MulMono(shortfall, initial, size);
      assert size * initial >= a;
      assert size * (initial - shortfall) == size * initial - a;
      var m := MarginCallLiquidationQty(qty, shortfall, initial);
      MulMono(Min(size, n), m, initial);
      assert (size - m) * initial == size * initial - m * initial;
    }
  }

  /** The fewest contracts whose share of the initial margin is the shortfall's share; all of them when nothing less would do. */
  predicate IsLeastShare(n: int, size: nat, shortfall: int, initial: int) {
    if size == 0 || shortfall <= 0 then n == 0
    else if shortfall >= initial then n == size
    else 1 <= n <= size && (n - 1) * initial < size * shortfall <= n * initial
  }

  lemma LiquidationIsLeast(qty: int, shortfall: int, initial: int)
    ensures IsLeastShare(MarginCallLiquidationQty(qty, shortfall, initial), Abs(qty), shortfall, initial)
  {
    var size := Abs(qty);
    if size > 0 && 0 < shortfall < initial {
      var a := size * shortfall;
      var n := (a + initial - 1) / initial;
      DivBetween(a + initial - 1, initial);
      assert (n - 1) * initial == n * initial - initial;
      MulMono(1, shortfall, size);
      MulMono(shortfall, initial, size);
      assert a == shortfall * size && a > 0;
      MulOrder(0, n, initial);
      MulOrder(n - 1, size, initial);
    }
  }

  /**
   * What a position needs: for every contract the least whole amount that covers
   * the initial rate of one contract at the mark, and to keep it the least whole
   * amount that covers the maintenance rate of all of them.
   */
  lemma MarginsRoundUp(p: RiskPosition) returns (perContract: int)
    requires Assessable(p)
    ensures
      var size, value, rate := if p.position.qty < 0 then -p.position.qty else p.position.qty, p.mark * p.def.unitValue, FutureMarginBps(p.def, p.leverage);
      && RoundsUp(perContract, value * rate.initial) && InitialMargin(p) == perContract * size
      && RoundsUp(Maintenance(p), size * p.mark * p.def.unitValue * rate.maintenance)
  {
    perContract := FutureMarginPerContract(p.def, p.mark, p.leverage);
  }

  lemma MarginsNonNegative(p: RiskPosition)
    requires Assessable(p)
    ensures 0 <= FutureMarginPerContract(p.def, p.mark, p.leverage)
    ensures 0 <= InitialMargin(p)
    ensures Maintenance(p) <= InitialMargin(p)
  {
    var bps := FutureMarginBps(p.def, p.leverage);
    BpsOrder(p);
    var value := p.mark * p.def.unitValue;
    assert value >= 0;
    MulMono(0, value, bps.initial);
    DivMono(0, value * bps.initial + 9_999, 10_000);
    var size := Abs(p.position.qty);
    MulMono(0, FutureMarginPerContract(p.def, p.mark, p.leverage), size);
    CeilPerUnit(value, bps.maintenance, bps.initial, size);
    assert size * p.mark * p.def.unitValue == value * size;
  }

  lemma BpsOrder(p: RiskPosition)
    requires Assessable(p)
    ensures var bps := FutureMarginBps(p.def, p.leverage); 0 <= bps.maintenance <= bps.initial
  {
    if p.leverage.Some? {
      DivMono(0, 10_000 + p.leverage.value - 1, p.leverage.value);
    }
  }

  /** A rounded-up whole is at most the sum of its rounded-up parts, even at the higher rate. */
  lemma CeilPerUnit(value: int, low: int, high: int, size: nat)
    requires 0 <= value && 0 <= low <= high
    ensures CeilBps(value * size, low) <= CeilBps(value, high) * size
  {
    var c := CeilBps(value, high);
    DivBetween(value * high + 9_999, 10_000);
    assert value * high <= c * 10_000;
    MulMono(low, high, value);
    MulMono(value * low, c * 10_000, size);
    assert value * size * low == value * low * size;
    assert c * 10_000 * size == c * size * 10_000;
    DivMono(value * size * low + 9_999, c * size * 10_000 + 9_999, 10_000);
    DivIs(c * size * 10_000 + 9_999, 10_000, c * size);
  }

  // ---------------------------------------------------------------- the whole account

  lemma {:induction false} LiquidationKeepsEquity(positions: seq<RiskPosition>, purse: Purse, shortfall: int, initial: int)
    requires AllAssessable(positions)
    ensures
      var after := LiquidateAll(positions, shortfall, initial);
      && AllAssessable(after)
      && Equity(Settled(purse, positions, shortfall, initial)) + TotalUnrealized(after)
         == Equity(purse) + TotalUnrealized(positions)
  {
    if positions != [] {
      var n := |positions| - 1;
      var p := positions[n];
      LiquidationKeepsEquity(positions[..n], purse, shortfall, initial);
      var before := LiquidateAll(positions[..n], shortfall, initial);
      assert LiquidateAll(positions, shortfall, initial)[..n] == before;
      ClosingIsNeutral(p, MarginCallLiquidationQty(p.position.qty, shortfall, initial));
      CashExact(Settled(purse, positions[..n], shortfall, initial), Realized(p, shortfall, initial));
    }
  }

  lemma {:induction false} LiquidationShrinksMargin(positions: seq<RiskPosition>, shortfall: int, initial: int)
    requires AllAssessable(positions) && 0 < shortfall < initial
    requires AllAssessable(LiquidateAll(positions, shortfall, initial))
    ensures TotalInitial(LiquidateAll(positions, shortfall, initial)) * initial <= TotalInitial(positions) * (initial - shortfall)
  {
    if positions != [] {
      var n := |positions| - 1;
      var p := positions[n];
      var after := LiquidateAll(positions, shortfall, initial);
      assert after[..n] == LiquidateAll(positions[..n], shortfall, initial);
      LiquidationShrinksMargin(positions[..n], shortfall, initial);
      OneShrinks(p, shortfall, initial);
      Distribute(TotalInitial(after[..n]), InitialMargin(after[n]), initial);
      Distribute(TotalInitial(positions[..n]), InitialMargin(p), initial - shortfall);
    }
  }

  lemma OneShrinks(p: RiskPosition, shortfall: int, initial: int)
    requires Assessable(p) && 0 < shortfall < initial && Assessable(Liquidated(p, shortfall, initial))
    ensures InitialMargin(Liquidated(p, shortfall, initial)) * initial <= InitialMargin(p) * (initial - shortfall)
  {
    var m := FutureMarginPerContract(p.def, p.mark, p.leverage);
    var size := Abs(p.position.qty);
    var n := MarginCallLiquidationQty(p.position.qty, shortfall, initial);
    ClosingIsNeutral(p, n);
    MarginsNonNegative(p);
    LiquidationShare(p.position.qty, shortfall, initial);
    Scale(m, size - n, initial, size, initial - shortfall);
  }

  lemma Scale(m: int, x: int, a: int, y: int, b: int)
    requires x * a <= y * b && m >= 0
    ensures m * x * a <= m * y * b
  {
    MulMono(x * a, y * b, m);
    assert x * a * m == m * x * a;
    assert y * b * m == m * y * b;
  }

  lemma Unscale(x: int, y: int, a: int)
    requires x * a <= a * y && a > 0
    ensures x <= y
  {
    if y < x {
      MulMono(y + 1, x, a);
    }
  }

  lemma {:induction false} AllClosed(positions: seq<RiskPosition>, shortfall: int, initial: int)
    requires AllAssessable(positions) && shortfall > 0 && shortfall >= initial
    requires AllAssessable(LiquidateAll(positions, shortfall, initial))
    ensures TotalInitial(LiquidateAll(positions, shortfall, initial)) == 0
  {
    if positions != [] {
      var n := |positions| - 1;
      var p := positions[n];
      var after := LiquidateAll(positions, shortfall, initial);
      assert after[..n] == LiquidateAll(positions[..n], shortfall, initial);
      AllClosed(positions[..n], shortfall, initial);
      ClosingIsNeutral(p, MarginCallLiquidationQty(p.position.qty, shortfall, initial));
      assert Abs(after[n].position.qty) == 0;
    }
  }

  lemma {:induction false} NothingClosed(positions: seq<RiskPosition>, initial: int)
    requires AllAssessable(positions) && AllAssessable(LiquidateAll(positions, 0, initial))
    ensures TotalInitial(LiquidateAll(positions, 0, initial)) == TotalInitial(positions)
  {
    if positions != [] {
      var n := |positions| - 1;
      assert LiquidateAll(positions, 0, initial)[..n] == LiquidateAll(positions[..n], 0, initial);
      NothingClosed(positions[..n], initial);
    }
  }

  lemma {:induction false} MaintenanceBelowInitial(positions: seq<RiskPosition>)
    requires AllAssessable(positions)
    ensures 0 <= TotalInitial(positions) && TotalMaintenance(positions) <= TotalInitial(positions)
  {
    if positions != [] {
      MaintenanceBelowInitial(positions[..|positions| - 1]);
      MarginsNonNegative(positions[|positions| - 1]);
    }
  }

  function EquityOf(positions: seq<RiskPosition>, purse: Purse): int {
    Equity(purse) + TotalUnrealized(positions)
  }

  function Shortfall(positions: seq<RiskPosition>, purse: Purse): int
    requires AllAssessable(positions)
  {
    Max(0, TotalInitial(positions) - EquityOf(positions, purse))
  }

  /** What the close-out leaves needs no more margin than the equity there is. */
  lemma MarginFits(positions: seq<RiskPosition>, shortfall: int, initial: int, equity: int)
    requires AllAssessable(positions) && AllAssessable(LiquidateAll(positions, shortfall, initial))
    requires initial == TotalInitial(positions) && shortfall == Max(0, initial - equity) && equity >= 0
    ensures TotalInitial(LiquidateAll(positions, shortfall, initial)) <= equity
  {
    if shortfall == 0 {
      NothingClosed(positions, initial);
    } else if shortfall >= initial {
      AllClosed(positions, shortfall, initial);
    } else {
      LiquidationShrinksMargin(positions, shortfall, initial);
      Unscale(TotalInitial(LiquidateAll(positions, shortfall, initial)), equity, initial);
    }
  }

  /**
   * A deadline liquidation at the marks leaves equity where it was, and cures the
   * call - no shortfall, equity not below maintenance - exactly when the account
   * was not under water.
   */
  lemma LiquidationCures(positions: seq<RiskPosition>, purse: Purse)
    requires AllAssessable(positions)
    ensures
      var shortfall, initial := Shortfall(positions, purse), TotalInitial(positions);
      var after, cash := LiquidateAll(positions, shortfall, initial), Settled(purse, positions, shortfall, initial);
      && AllAssessable(after)
      && EquityOf(after, cash) == EquityOf(positions, purse)
      && (Shortfall(after, cash) == 0 <==> EquityOf(positions, purse) >= 0)
      && (EquityOf(positions, purse) >= 0 ==> TotalMaintenance(after) <= EquityOf(after, cash))
  {
    var shortfall, initial := Shortfall(positions, purse), TotalInitial(positions);
    LiquidationKeepsEquity(positions, purse, shortfall, initial);
    var after := LiquidateAll(positions, shortfall, initial);
    MaintenanceBelowInitial(after);
    if EquityOf(positions, purse) >= 0 {
      MarginFits(positions, shortfall, initial, EquityOf(positions, purse));
    }
  }
}
