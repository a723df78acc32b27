/**
 * What floor division cannot break: every fill moves the signed entry value by
 * exactly what it trades plus what it realizes, average entry prices stay
 * between the prices that opened the position, and cash moves by exactly the
 * realized amount.
 */
module FuturesLaws {
  import opened Arithmetic
  import opened Common
  import opened Futures

  /** Entry value with the sign of the position: what the open contracts cost, or brought in. */
  function SignedEntry(p: Position): int {
    Sign(p.qty) * p.entryValue
  }

  lemma BasisBounds(e: int, k: int, n: int)
    requires 0 <= e && 0 < k <= n
    ensures 0 <= e * k / n <= e && (k == n ==> e * k / n == e)
    ensures (e - e * k / n) * n - (n - 1) <= e * (n - k) <= (e - e * k / n) * n
  {
    var b := e * k / n;
    DivBetween(e * k, n);
    MulMono(k, n, e);
    assert e * k <= e * n;
    assert e * k >= 0;
    DivMono(0, e * k, n);
    DivIs(e * n, n, e);
    DivMono(e * k, e * n, n);
    RestTimes(e, b, k, n);
  }

  lemma RestTimes(e: int, b: int, k: int, n: int)
    ensures (e - b) * n == e * n - b * n && e * (n - k) == e * n - e * k
  {
  }

  /**
   * One fill on a net position: the contracts move by the fill, the position
   * stays valid, and the signed entry value moves by exactly delta times price
   * plus the realized amount per unit of value.
   */
  lemma FillExact(unitValue: int, p: Position, side: Side, price: int, fillQty: nat)
    requires Valid(p) && price >= 0 && fillQty > 0
    ensures
      var r := ApplyFutureFill(unitValue, p, side, price, fillQty);
      && Valid(r.position)
      && r.position.qty == p.qty + Delta(side, fillQty)
      && r.realized == (SignedEntry(r.position) - SignedEntry(p) - Delta(side, fillQty) * price) * unitValue
  {
    if !Opens(p, side) {
      BasisBounds(p.entryValue, Min(fillQty, Abs(p.qty)), Abs(p.qty));
      CloseExact(unitValue, p, side, price, fillQty);
    } else {
      OpenExact(unitValue, p, side, price, fillQty);
    }
  }

  lemma OpenExact(unitValue: int, p: Position, side: Side, price: int, fillQty: nat)
    requires Valid(p) && price >= 0 && fillQty > 0 && Opens(p, side)
    ensures
      var r := ApplyFutureFill(unitValue, p, side, price, fillQty);
      && Valid(r.position)
      && r.position.qty == p.qty + Delta(side, fillQty)
      && SignedEntry(r.position) - SignedEntry(p) - Delta(side, fillQty) * price == 0
      && r.realized == 0
  {
    var r := ApplyFutureFill(unitValue, p, side, price, fillQty);
    assert Sign(r.position.qty) == Sign(Delta(side, fillQty));
    assert price * fillQty >= 0;
    if side == Buy {
      assert SignedEntry(r.position) == p.entryValue + price * fillQty;
    } else {
      assert SignedEntry(r.position) == -p.entryValue - price * fillQty;
    }
  }

  lemma CloseExact(unitValue: int, p: Position, side: Side, price: int, fillQty: nat)
    requires Valid(p) && price >= 0 && fillQty > 0 && !Opens(p, side)
    requires var k := Min(fillQty, Abs(p.qty)); 0 <= Basis(p, k) <= p.entryValue && (k == Abs(p.qty) ==> Basis(p, k) == p.entryValue)
    ensures
      var r := ApplyFutureFill(unitValue, p, side, price, fillQty);
      && Valid(r.position)
      && r.position.qty == p.qty + Delta(side, fillQty)
      && r.realized == (SignedEntry(r.position) - SignedEntry(p) - Delta(side, fillQty) * price) * unitValue
  {
    var r := ApplyFutureFill(unitValue, p, side, price, fillQty);
    var k := Min(fillQty, Abs(p.qty));
    var b := Basis(p, k);
    var s := Sign(p.qty);
    assert s == -Sign(Delta(side, fillQty));
    if fillQty == k {
      CloseWithin(p, s, side, price, k, b, r.position);
    } else {
      CloseThrough(p, s, side, price, fillQty, k, r.position);
    }
    Scaled(s * (price * k - b), SignedEntry(r.position) - SignedEntry(p) - Delta(side, fillQty) * price, unitValue);
  }

  lemma Scaled(x: int, y: int, n: int)
    requires x == y
    ensures x * n == y * n
  {
  }

  lemma Negated(n: int, price: int)
    ensures -n * price == -(price * n) && -1 * n * price == -(price * n)
  {
  }

  lemma CloseWithin(p: Position, s: int, side: Side, price: int, k: nat, b: int, left: Position)
    requires Valid(p) && p.qty != 0 && s == Sign(p.qty) && Delta(side, k) == -s * k && 0 < k <= Abs(p.qty)
    requires left.qty == p.qty + Delta(side, k) && left.entryValue == if left.qty == 0 then 0 else p.entryValue - b
    requires k == Abs(p.qty) ==> b == p.entryValue
    ensures s * (price * k - b) == SignedEntry(left) - SignedEntry(p) - Delta(side, k) * price
  {
    assert SignedEntry(left) == s * (p.entryValue - b);
    if s == 1 {
      assert Delta(side, k) == -1 * k;
      Negated(k, price);
    } else {
      assert Delta(side, k) == k;
    }
  }

  lemma CloseThrough(p: Position, s: int, side: Side, price: int, fillQty: nat, k: nat, left: Position)
    requires Valid(p) && p.qty != 0 && s == Sign(p.qty) && Delta(side, fillQty) == -s * fillQty && k == Abs(p.qty) < fillQty
    requires left == Position(Delta(side, fillQty - k), price * (fillQty - k))
    ensures s * (price * k - p.entryValue) == SignedEntry(left) - SignedEntry(p) - Delta(side, fillQty) * price
  {
    assert price * fillQty == price * k + price * (fillQty - k);
    Negated(fillQty, price);
    if side == Buy {
      assert SignedEntry(left) == price * (fillQty - k);
    } else {
      assert SignedEntry(left) == -(price * (fillQty - k));
    }
  }

  /** The contracts of a fill that reach the position: all but the overflow of a hedge close. */
  function Moved(r: FillResult, fillQty: nat): int {
    fillQty - r.overflow
  }

  function OverflowOf(p: Position, row: RowSide, side: Side, fillQty: nat): nat {
    if row == Net || IsOpeningHedgeOrder(side, row) then 0 else Max(0, fillQty - Abs(p.qty))
  }

  /**
   * The same law for every kind of row: only the contracts that moved count, a
   * hedge row never flips, and overflow is exactly what a close asked beyond it.
   */
  lemma RowFillExact(unitValue: int, p: Position, row: RowSide, side: Side, price: int, fillQty: nat)
    requires Valid(p) && FitsRow(p, row) && price >= 0 && fillQty > 0
    ensures
      var r := ApplyFill(unitValue, p, row, side, price, fillQty);
      && Valid(r.position) && FitsRow(r.position, row)
      && r.overflow == OverflowOf(p, row, side, fillQty)
      && r.position.qty == p.qty + Delta(side, Moved(r, fillQty))
      && r.realized == (SignedEntry(r.position) - SignedEntry(p) - Delta(side, Moved(r, fillQty)) * price) * unitValue
  {
    if row == Net || IsOpeningHedgeOrder(side, row) {
      FillExact(unitValue, p, side, price, fillQty);
    } else if p.qty != 0 {
      FillExact(unitValue, p, side, price, Min(fillQty, Abs(p.qty)));
    }
  }

  // ---------------------------------------------------------------- runs of fills on one row

  datatype Fill = Fill(side: Side, price: int, qty: nat)

  predicate Fills(fills: seq<Fill>) {
    forall f :: f in fills ==> f.price >= 0 && f.qty > 0
  }

  datatype Played = Played(position: Position, realized: int, bought: int)

  /**
   * Applies fills in order to a flat row. `bought` adds up price times contracts
   * bought minus price times contracts sold, over the contracts that moved.
   */
  function Play(unitValue: int, row: RowSide, fills: seq<Fill>): Played
    requires Fills(fills)
  {
    if fills == [] then Played(FLAT, 0, 0)
    else
      var before := Play(unitValue, row, fills[..|fills| - 1]);
      var f := fills[|fills| - 1];
      var r := ApplyFill(unitValue, before.position, row, f.side, f.price, f.qty);
      Played(r.position, before.realized + r.realized, before.bought + Delta(f.side, Moved(r, f.qty)) * f.price)
  }

  /** However the fills divide the entry value, realized profit is proceeds minus purchases plus the open basis. */
  lemma {:induction false} RealizedExact(unitValue: int, row: RowSide, fills: seq<Fill>)
    requires Fills(fills)
    ensures
      var end := Play(unitValue, row, fills);
      && Valid(end.position) && FitsRow(end.position, row)
      && end.realized == (SignedEntry(end.position) - end.bought) * unitValue
  {
    if fills != [] {
      var f := fills[|fills| - 1];
      assert f in fills;
      var earlier := fills[..|fills| - 1];
      RealizedExact(unitValue, row, earlier);
      var before := Play(unitValue, row, earlier);
      RowFillExact(unitValue, before.position, row, f.side, f.price, f.qty);
      var end := Play(unitValue, row, fills);
      var moved := Delta(f.side, Moved(ApplyFill(unitValue, before.position, row, f.side, f.price, f.qty), f.qty)) * f.price;
      Distribute(SignedEntry(before.position) - before.bought, SignedEntry(end.position) - SignedEntry(before.position) - moved, unitValue);
    }
  }

  lemma Distribute(x: int, y: int, n: int)
    ensures x * n + y * n == (x + y) * n
  {
  }

  /** The prices at which the contracts now open were opened, since the row was last flat or last turned. */
  function OpeningPrices(unitValue: int, row: RowSide, fills: seq<Fill>): seq<int>
    requires Fills(fills)
  {
    if fills == [] then []
    else
      var earlier := fills[..|fills| - 1];
      var before := Play(unitValue, row, earlier).position;
      var after := Play(unitValue, row, fills).position;
      var f := fills[|fills| - 1];
      if after.qty == 0 then []
      else if before.qty == 0 || Sign(before.qty) != Sign(after.qty) then [f.price]
      else if Abs(after.qty) > Abs(before.qty) then OpeningPrices(unitValue, row, earlier) + [f.price]
      else OpeningPrices(unitValue, row, earlier)
  }

  predicate AllWithin(prices: seq<int>, lo: int, hi: int) {
    forall i :: 0 <= i < |prices| ==> lo <= prices[i] <= hi
  }

  /** The average entry price lies between `lo` and `hi`. */
  predicate AverageWithin(p: Position, lo: int, hi: int) {
    lo * Abs(p.qty) <= p.entryValue <= hi * Abs(p.qty)
  }

  lemma CloseKeepsAverage(e: int, k: int, n: int, lo: int, hi: int)
    requires 0 <= e && 0 < k <= n && lo * n <= e <= hi * n
    ensures lo * (n - k) <= e - e * k / n <= hi * (n - k)
  {
    BasisBounds(e, k, n);
    MulMono(lo * n, e, n - k);
    MulMono(e, hi * n, n - k);
    Swap(lo, n, n - k);
    Swap(hi, n, n - k);
    Squeeze(e - e * k / n, e * (n - k), n, lo * (n - k), hi * (n - k));
  }

  lemma Squeeze(rest: int, value: int, n: int, lo: int, hi: int)
    requires n > 0 && rest * n - (n - 1) <= value <= rest * n
    requires lo * n <= value <= hi * n
    ensures lo <= rest <= hi
  {
    MulOrder(lo, rest + 1, n);
    MulOrder(rest, hi + 1, n);
  }

  lemma Swap(x: int, n: int, m: int)
    ensures x * n * m == x * m * n
  {
  }

  lemma OpenKeepsAverage(e: int, n: int, price: int, k: int, lo: int, hi: int)
    requires lo <= price <= hi && k >= 0 && lo * n <= e <= hi * n
    ensures lo * (n + k) <= e + price * k <= hi * (n + k)
  {
    MulMono(lo, price, k);
    MulMono(price, hi, k);
    Distribute(n, k, lo);
    Distribute(n, k, hi);
  }

  /** One fill keeps the average within bounds that also cover the price, when it opens contracts. */
  lemma FillKeepsAverage(unitValue: int, p: Position, row: RowSide, side: Side, price: int, fillQty: nat, lo: int, hi: int)
    requires Valid(p) && FitsRow(p, row) && price >= 0 && fillQty > 0
    requires p.qty != 0 ==> AverageWithin(p, lo, hi)
    requires
      var after := ApplyFill(unitValue, p, row, side, price, fillQty).position;
      after.qty != 0 && (p.qty == 0 || Sign(p.qty) != Sign(after.qty) || Abs(after.qty) > Abs(p.qty)) ==> lo <= price <= hi
    ensures AverageWithin(ApplyFill(unitValue, p, row, side, price, fillQty).position, lo, hi)
  {
    var r := ApplyFill(unitValue, p, row, side, price, fillQty);
    if Opens(p, side) && (row == Net || IsOpeningHedgeOrder(side, row)) {
      OpenKeepsAverage(p.entryValue, Abs(p.qty), price, fillQty, lo, hi);
    } else if p.qty == 0 {
    } else {
      var qty := if row == Net then fillQty else Min(fillQty, Abs(p.qty));
      var k := Min(qty, Abs(p.qty));
      if qty == k {
        CloseKeepsAverage(p.entryValue, k, Abs(p.qty), lo, hi);
      } else {
        OpenKeepsAverage(0, 0, price, qty - k, lo, hi);
      }
    }
  }

  /** Rounding never escapes: the average entry price stays between the lowest and highest opening price. */
  lemma {:induction false} AverageBounded(unitValue: int, row: RowSide, fills: seq<Fill>, lo: int, hi: int)
    requires Fills(fills)
    requires AllWithin(OpeningPrices(unitValue, row, fills), lo, hi)
    ensures AverageWithin(Play(unitValue, row, fills).position, lo, hi)
  {
    if fills != [] {
      var f := fills[|fills| - 1];
      assert f in fills;
      var earlier := fills[..|fills| - 1];
      var before := Play(unitValue, row, earlier).position;
      RealizedExact(unitValue, row, earlier);
      RealizedExact(unitValue, row, fills);
      var after := Play(unitValue, row, fills).position;
      if after.qty != 0 {
        if before.qty != 0 && Sign(before.qty) == Sign(after.qty) {
          var prices := OpeningPrices(unitValue, row, earlier);
          assert forall i :: 0 <= i < |prices| ==> prices[i] == OpeningPrices(unitValue, row, fills)[i];
          AverageBounded(unitValue, row, earlier, lo, hi);
          StayKeepsAverage(unitValue, before, row, f, lo, hi, OpeningPrices(unitValue, row, fills));
        } else {
          assert OpeningPrices(unitValue, row, fills)[0] == f.price;
          TurnKeepsAverage(unitValue, before, row, f, lo, hi);
        }
      }
    }
  }

  lemma StayKeepsAverage(unitValue: int, p: Position, row: RowSide, f: Fill, lo: int, hi: int, prices: seq<int>)
    requires Valid(p) && FitsRow(p, row) && f.price >= 0 && f.qty > 0 && p.qty != 0 && AverageWithin(p, lo, hi)
    requires AllWithin(prices, lo, hi)
    requires
      var after := ApplyFill(unitValue, p, row, f.side, f.price, f.qty).position;
      Sign(p.qty) == Sign(after.qty) && (Abs(after.qty) > Abs(p.qty) ==> prices != [] && prices[|prices| - 1] == f.price)
    ensures AverageWithin(ApplyFill(unitValue, p, row, f.side, f.price, f.qty).position, lo, hi)
  {
    FillKeepsAverage(unitValue, p, row, f.side, f.price, f.qty, lo, hi);
  }

  lemma TurnKeepsAverage(unitValue: int, p: Position, row: RowSide, f: Fill, lo: int, hi: int)
    requires Valid(p) && FitsRow(p, row) && f.price >= 0 && f.qty > 0 && lo <= f.price <= hi
    requires
      var after := ApplyFill(unitValue, p, row, f.side, f.price, f.qty).position;
      after.qty != 0 && (p.qty == 0 || Sign(p.qty) != Sign(after.qty))
    ensures AverageWithin(ApplyFill(unitValue, p, row, f.side, f.price, f.qty).position, lo, hi)
  {
    var after := ApplyFill(unitValue, p, row, f.side, f.price, f.qty).position;
    RowFillExact(unitValue, p, row, f.side, f.price, f.qty);
    var k := Abs(after.qty);
    assert after.entryValue == f.price * k;
    MulMono(lo, f.price, k);
    MulMono(f.price, hi, k);
  }

  // ---------------------------------------------------------------- cash

  /**
   * Realized profit or loss moves equity by exactly its amount. A loss takes
   * cash only down to the hold and turns into debt exactly for the rest; a
   * profit repays debt before it reaches the balance.
   */
  lemma CashExact(p: Purse, realized: int)
    ensures
      var after := ApplyFuturesCash(p, realized);
      && after.hold == p.hold
      && Equity(after) == Equity(p) + realized
      && (p.debt >= 0 ==> after.debt >= 0)
      && (p.balance >= p.hold ==> after.balance >= p.hold)
      && (p.debt >= 0 ==> (after.debt > p.debt <==> -realized > Max(0, p.balance - p.hold)))
      && (0 <= p.debt < after.debt && p.balance >= p.hold ==> after.balance == p.hold)
      && (after.balance > p.balance ==> after.debt == 0 || p.debt < 0)
  {
  }
}
