/**
 * The maker's two-sided ladder: prices on the tick grid around a center, the
 * self-trade test every new quote must pass, and why a center may move by one
 * tick at a time. Prices are whole won; the grid step is positive.
 */
module Liquidity {
  import opened Common
  import opened Arithmetic
  import opened LadderSizing

  const MAX_RECENTER_TICKS := 1

  datatype Quote = Quote(side: Side, level: nat, price: int, qty: int)

  /** The nearest grid price, halves up, and never below one tick. */
  function AlignToTick(price: int, tick: int): int
    requires tick > 0
  {
    Max(tick, (2 * price + tick) / (2 * tick) * tick)
  }

  predicate OnGrid(price: int, tick: int)
    requires tick > 0
  {
    price % tick == 0
  }

  lemma MultipleOnGrid(n: int, tick: int)
    requires tick > 0
    ensures OnGrid(n * tick, tick) && n * tick / tick == n
  {
    DivIs(n * tick, tick, n);
  }

  /** The nearest multiple, halves going up; below one tick it is one tick at most. */
  lemma NearestMultiple(price: int, tick: int)
    requires tick > 0
    ensures
      var n := (2 * price + tick) / (2 * tick);
      && -tick < 2 * (n * tick - price) <= tick
      && (price >= tick ==> n * tick >= tick) && (price < tick ==> n * tick <= tick)
  {
    var n := (2 * price + tick) / (2 * tick);
    DivBetween(2 * price + tick, 2 * tick);
    assert 2 * (n * tick) == n * (2 * tick);
    if price >= tick {
      MulOrder(0, n, tick);
      MulMono(1, n, tick);
    } else {
      MulOrder(n, 2, tick);
      MulMono(n, 1, tick);
    }
  }

  /** An aligned price is on the grid, the nearest to any price from one tick up with halves going up, and aligning again changes nothing. */
  lemma AlignedIsNearest(price: int, tick: int)
    requires tick > 0
    ensures
      var p := AlignToTick(price, tick);
      && p >= tick && OnGrid(p, tick) && AlignToTick(p, tick) == p
      && (if price >= tick then -tick < 2 * (p - price) <= tick else p == tick)
  {
    var n := (2 * price + tick) / (2 * tick);
    NearestMultiple(price, tick);
    MultipleOnGrid(n, tick);
    MultipleOnGrid(1, tick);
    GridPriceIsAligned(AlignToTick(price, tick), tick);
  }

  predicate Aligned(price: int, tick: int)
    requires tick > 0
  {
    price >= tick && OnGrid(price, tick)
  }

  /** From one aligned price towards another, by at most the step. */
  function StepTowards(current: int, target: int, step: int): int {
    if -step <= target - current <= step then target
    else if target > current then current + step
    else current - step
  }

  function MaxStep(tick: int, maxStepTicks: int): int {
    tick * Max(1, maxStepTicks)
  }

  function MoveQuoteCenter(currentCenter: int, targetCenter: int, tick: int, maxStepTicks: int): int
    requires tick > 0
  {
    StepTowards(AlignToTick(currentCenter, tick), AlignToTick(targetCenter, tick), MaxStep(tick, maxStepTicks))
  }

  function Distance(a: int, b: int): nat {
    if a < b then b - a else a - b
  }

  lemma GridShift(price: int, k: int, tick: int)
    requires tick > 0 && OnGrid(price, tick)
    ensures OnGrid(price + k * tick, tick)
  {
    DivBetween(price, tick);
    assert (price / tick + k) * tick == price / tick * tick + k * tick;
    MultipleOnGrid(price / tick + k, tick);
  }

  lemma StepStaysAligned(current: int, target: int, tick: int, k: int)
    requires tick > 0 && k >= 1 && Aligned(current, tick) && Aligned(target, tick)
    ensures Aligned(StepTowards(current, target, tick * k), tick) && tick * k >= tick
  {
    GridShift(current, k, tick);
    GridShift(current, -k, tick);
    MulMono(1, k, tick);
    assert k * tick == tick * k && -k * tick == -(tick * k);
  }

  /** One move stays on the grid, goes at most the allowed step, and gets nearer by the whole step or arrives. */
  lemma MoveGetsNearer(currentCenter: int, targetCenter: int, tick: int, maxStepTicks: int)
    requires tick > 0
    ensures
      var current := AlignToTick(currentCenter, tick);
      var target := AlignToTick(targetCenter, tick);
      var next := MoveQuoteCenter(currentCenter, targetCenter, tick, maxStepTicks);
      var step := if maxStepTicks < 1 then tick else tick * maxStepTicks;
      && AlignToTick(next, tick) == next
      && Distance(current, next) <= step
      && Distance(next, target) == Max(0, Distance(current, target) - step)
  {
    AlignedIsNearest(currentCenter, tick);
    AlignedIsNearest(targetCenter, tick);
    var current := AlignToTick(currentCenter, tick);
    var target := AlignToTick(targetCenter, tick);
    var k := Max(1, maxStepTicks);
    StepStaysAligned(current, target, tick, k);
    GridPriceIsAligned(StepTowards(current, target, tick * k), tick);
    StepDistance(current, target, tick * k);
  }

  lemma StepDistance(current: int, target: int, step: int)
    requires step > 0
    ensures var next := StepTowards(current, target, step);
            Distance(current, next) <= step && Distance(next, target) == Max(0, Distance(current, target) - step)
  {
  }

  lemma GridPriceIsAligned(price: int, tick: int)
    requires tick > 0 && OnGrid(price, tick) && price >= tick
    ensures AlignToTick(price, tick) == price
  {
    var n := price / tick;
    assert price == n * tick;
    assert n * (2 * tick) == 2 * price;
    DivIs(2 * price + tick, 2 * tick, n);
  }

  function CenterAfter(current: int, target: int, tick: int, moves: nat): int
    requires tick > 0
    decreases moves
  {
    if moves == 0 then current else CenterAfter(MoveQuoteCenter(current, target, tick, MAX_RECENTER_TICKS), target, tick, moves - 1)
  }

  /** One-tick moves reach the target, in exactly as many moves as it is ticks away. */
  lemma {:induction false} MovesArrive(current: int, target: int, tick: int, moves: nat)
    requires tick > 0 && AlignToTick(current, tick) == current && AlignToTick(target, tick) == target
    ensures CenterAfter(current, target, tick, moves) == target <==> moves * tick >= Distance(current, target)
    decreases moves
  {
    if moves > 0 {
      MoveGetsNearer(current, target, tick, MAX_RECENTER_TICKS);
      var next := MoveQuoteCenter(current, target, tick, MAX_RECENTER_TICKS);
      MovesArrive(next, target, tick, moves - 1);
      assert moves * tick == (moves - 1) * tick + tick;
    }
  }

  // ---- The ladder ----

  function LevelPrice(center: int, tick: int, side: Side, level: nat): int {
    if side == Buy then center - (level + 1) * tick else center + (level + 1) * tick
  }

  predicate IsRung(quote: Quote, center: int, tick: int, quantities: seq<int>) {
    && quote.level < |quantities|
    && quote.price == LevelPrice(center, tick, quote.side, quote.level)
    && quote.qty == quantities[quote.level]
    && (quote.side == Buy ==> quote.price >= tick)
  }

  predicate HasSlot(quotes: seq<Quote>, side: Side, level: nat) {
    exists i :: 0 <= i < |quotes| && quotes[i].side == side && quotes[i].level == level
  }

  predicate OnePerSlot(quotes: seq<Quote>) {
    forall i, j :: 0 <= i < j < |quotes| ==> quotes[i].side != quotes[j].side || quotes[i].level != quotes[j].level
  }

  /** Every level on both sides, except buys below one tick. */
  predicate IsLadder(quotes: seq<Quote>, center: int, tick: int, quantities: seq<int>) {
    && (forall i :: 0 <= i < |quotes| ==> IsRung(quotes[i], center, tick, quantities))
    && OnePerSlot(quotes)
    && (forall level: nat :: level < |quantities| ==>
          HasSlot(quotes, Sell, level) && (LevelPrice(center, tick, Buy, level) >= tick ==> HasSlot(quotes, Buy, level)))
  }

  lemma SlotPushed(quotes: seq<Quote>, quote: Quote)
    ensures HasSlot(quotes + [quote], quote.side, quote.level)
    ensures forall side, level: nat :: HasSlot(quotes, side, level) ==> HasSlot(quotes + [quote], side, level)
  {
    var more := quotes + [quote];
    assert more[|quotes|] == quote;
    forall side, level: nat | HasSlot(quotes, side, level)
      ensures HasSlot(more, side, level)
    {
      var i :| 0 <= i < |quotes| && quotes[i].side == side && quotes[i].level == level;
      assert more[i] == quotes[i];
    }
  }

  method BuildBaseLiquidityLadder(center: int, tick: int, quantities: seq<int>) returns (quotes: seq<Quote>)
    requires tick > 0
    ensures IsLadder(quotes, center, tick, quantities)
  {
    quotes := [];
    for level := 0 to |quantities|
      invariant forall i :: 0 <= i < |quotes| ==> IsRung(quotes[i], center, tick, quantities) && quotes[i].level < level
      invariant OnePerSlot(quotes)
      invariant forall l: nat :: l < level ==> HasSlot(quotes, Sell, l) && (LevelPrice(center, tick, Buy, l) >= tick ==> HasSlot(quotes, Buy, l))
    {
      var bid := LevelPrice(center, tick, Buy, level);
      if bid >= tick {
        var quote := Quote(Buy, level, bid, quantities[level]);
        SlotPushed(quotes, quote);
        quotes := quotes + [quote];
      }
      var quote := Quote(Sell, level, LevelPrice(center, tick, Sell, level), quantities[level]);
      SlotPushed(quotes, quote);
      quotes := quotes + [quote];
    }
  }

  // ---- Self-trade tests ----

  predicate CanPair(side: Side, price: int, otherSide: Side, otherPrice: int) {
    side == otherSide || (if side == Buy then price < otherPrice else price > otherPrice)
  }

  predicate CanAddWithoutSelfTrade(candidate: Quote, existing: seq<Quote>) {
    forall i :: 0 <= i < |existing| ==> CanPair(candidate.side, candidate.price, existing[i].side, existing[i].price)
  }

  predicate CanLaddersCoexist(current: seq<Quote>, next: seq<Quote>) {
    forall i :: 0 <= i < |next| ==> CanAddWithoutSelfTrade(next[i], current)
  }

  predicate PlanUncrossed(plan: seq<Quote>) {
    forall i, j :: 0 <= i < |plan| && 0 <= j < |plan| ==> CanPair(plan[i].side, plan[i].price, plan[j].side, plan[j].price)
  }

  /** A ladder never crosses itself. */
  lemma LadderUncrossed(quotes: seq<Quote>, center: int, tick: int, quantities: seq<int>)
    requires tick > 0 && IsLadder(quotes, center, tick, quantities)
    ensures PlanUncrossed(quotes)
  {
    forall i, j | 0 <= i < |quotes| && 0 <= j < |quotes|
      ensures CanPair(quotes[i].side, quotes[i].price, quotes[j].side, quotes[j].price)
    {
      assert IsRung(quotes[i], center, tick, quantities) && IsRung(quotes[j], center, tick, quantities);
      RungSides(center, tick, quotes[i].level);
      RungSides(center, tick, quotes[j].level);
    }
  }

  lemma RungSides(center: int, tick: int, level: nat)
    requires tick > 0
    ensures LevelPrice(center, tick, Buy, level) <= center - tick && center + tick <= LevelPrice(center, tick, Sell, level)
  {
    assert (level + 1) * tick == level * tick + tick;
    assert level * tick >= 0;
  }

  /** Two ladders around grid prices coexist exactly when their centers are less than two ticks apart. */
  lemma LaddersCoexistIff(current: seq<Quote>, next: seq<Quote>, c: int, n: int, tick: int, cq: seq<int>, nq: seq<int>)
    requires tick > 0 && |cq| > 0 && |nq| > 0 && Aligned(c, tick) && Aligned(n, tick)
    requires IsLadder(current, c, tick, cq) && IsLadder(next, n, tick, nq)
    ensures CanLaddersCoexist(current, next) <==> Distance(c, n) < 2 * tick
  {
    if Distance(c, n) < 2 * tick {
      forall i, j | 0 <= i < |next| && 0 <= j < |current|
        ensures CanPair(next[i].side, next[i].price, current[j].side, current[j].price)
      {
        assert IsRung(next[i], n, tick, nq) && IsRung(current[j], c, tick, cq);
        RungSides(n, tick, next[i].level);
        RungSides(c, tick, current[j].level);
      }
    } else {
      assert HasSlot(current, Sell, 0) && HasSlot(next, Sell, 0);
      if c < n {
        assert HasSlot(next, Buy, 0);
        var i :| 0 <= i < |next| && next[i].side == Buy && next[i].level == 0;
        var j :| 0 <= j < |current| && current[j].side == Sell && current[j].level == 0;
        assert IsRung(next[i], n, tick, nq) && IsRung(current[j], c, tick, cq);
        assert !CanAddWithoutSelfTrade(next[i], current);
      } else {
        assert HasSlot(current, Buy, 0);
        var i :| 0 <= i < |next| && next[i].side == Sell && next[i].level == 0;
        var j :| 0 <= j < |current| && current[j].side == Buy && current[j].level == 0;
        assert IsRung(next[i], n, tick, nq) && IsRung(current[j], c, tick, cq);
        assert !CanAddWithoutSelfTrade(next[i], current);
      }
    }
  }

  /** So the ordinary one-tick move always leaves the old and the new ladder able to coexist. */
  lemma OneTickMoveCoexists(current: seq<Quote>, next: seq<Quote>, center: int, target: int, tick: int, cq: seq<int>, nq: seq<int>)
    requires tick > 0 && AlignToTick(center, tick) == center
    requires IsLadder(current, center, tick, cq)
    requires IsLadder(next, MoveQuoteCenter(center, target, tick, MAX_RECENTER_TICKS), tick, nq)
    ensures CanLaddersCoexist(current, next) && CanLaddersCoexist(next, current)
  {
    var n := MoveQuoteCenter(center, target, tick, MAX_RECENTER_TICKS);
    AlignedIsNearest(target, tick);
    MoveGetsNearer(center, AlignToTick(target, tick), tick, MAX_RECENTER_TICKS);
    forall i, j | 0 <= i < |next| && 0 <= j < |current|
      ensures CanPair(next[i].side, next[i].price, current[j].side, current[j].price)
      ensures CanPair(current[j].side, current[j].price, next[i].side, next[i].price)
    {
      assert IsRung(next[i], n, tick, nq) && IsRung(current[j], center, tick, cq);
      RungSides(n, tick, next[i].level);
      RungSides(center, tick, current[j].level);
    }
  }

  predicate AtFace(quotes: seq<Quote>, side: Side, price: int) {
    exists i :: 0 <= i < |quotes| && quotes[i].side == side && quotes[i].price == price
  }

  /** The one price of a side that a one-tick move gives up: the best on the side it moves away from, the last on the other. */
  function GivenUp(center: int, tick: int, up: bool, side: Side, levels: nat): int
    requires levels > 0
  {
    LevelPrice(center, tick, side, if up == (side == Sell) then 0 else levels - 1)
  }

  /** After a one-tick move the level a rung of the old ladder is on in the new one. */
  function MovedLevel(up: bool, side: Side, level: nat): int {
    if up == (side == Sell) then level - 1 else level + 1
  }

  lemma MovedRung(center: int, tick: int, up: bool, side: Side, level: nat)
    requires MovedLevel(up, side, level) >= 0
    ensures LevelPrice(if up then center + tick else center - tick, tick, side, MovedLevel(up, side, level)) == LevelPrice(center, tick, side, level)
  {
    assert (level + 2) * tick == (level + 1) * tick + tick;
    assert (level + 1) * tick == level * tick + tick;
  }

  /** After a one-tick move every price of the old ladder is in the new one, but for one of each side. */
  lemma OneTickMoveReusesRungs(was: seq<Quote>, next: seq<Quote>, center: int, up: bool, tick: int, oq: seq<int>, nq: seq<int>, i: nat)
    requires tick > 0 && |oq| == |nq| > 0 && i < |was|
    requires IsLadder(was, center, tick, oq) && IsLadder(next, if up then center + tick else center - tick, tick, nq)
    ensures AtFace(next, was[i].side, was[i].price) || was[i].price == GivenUp(center, tick, up, was[i].side, |oq|)
  {
    var q := was[i];
    assert IsRung(q, center, tick, oq);
    var level := MovedLevel(up, q.side, q.level);
    if 0 <= level < |nq| {
      MovedRung(center, tick, up, q.side, q.level);
      assert HasSlot(next, q.side, level);
      var j :| 0 <= j < |next| && next[j].side == q.side && next[j].level == level;
      assert IsRung(next[j], if up then center + tick else center - tick, tick, nq);
    }
  }
}
