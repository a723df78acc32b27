/**
 * How a maker starts beside rows it inherited: the center that keeps a fresh
 * ladder clear of them, and the test under which an old ladder is adopted.
 */
module MakerStartup {
  import opened Common
  import opened Arithmetic
  import opened Liquidity
  import opened MakerQuotes
  import opened MakerRuns

  datatype Guard = Guard(side: Side, price: int)

  function GuardPrice(guard: Guard, tick: int): int
    requires tick > 0
  {
    AlignToTick(guard.price, tick)
  }

  /** The centers between the highest BUY guard and the lowest SELL guard, on the grid. */
  datatype Span = Span(low: int, high: Option<int>)

  predicate Covers(span: Span, guards: seq<Guard>, n: nat, tick: int)
    requires tick > 0 && n <= |guards|
  {
    && span.low >= tick
    && (forall i :: 0 <= i < n && guards[i].side == Buy ==> GuardPrice(guards[i], tick) <= span.low)
    && (span.low == tick || exists i :: 0 <= i < n && guards[i].side == Buy && GuardPrice(guards[i], tick) == span.low)
    && (forall i :: 0 <= i < n && guards[i].side == Sell ==> span.high.Some? && span.high.value <= GuardPrice(guards[i], tick))
    && (span.high.Some? ==> exists i :: 0 <= i < n && guards[i].side == Sell && GuardPrice(guards[i], tick) == span.high.value)
  }

  method SpanOf(guards: seq<Guard>, tick: int) returns (span: Span)
    requires tick > 0
    ensures Covers(span, guards, |guards|, tick)
  {
    span := Span(tick, None);
    for i := 0 to |guards|
      invariant Covers(span, guards, i, tick)
    {
      var price := GuardPrice(guards[i], tick);
      if guards[i].side == Buy {
        span := span.(low := Max(span.low, price));
      } else {
        span := span.(high := Some(if span.high.Some? then Min(span.high.value, price) else price));
      }
    }
  }

  /** A BUY guard at or below the center, and a SELL guard at or above it, on the grid. */
  predicate Within(center: int, guards: seq<Guard>, tick: int)
    requires tick > 0
  {
    forall i :: 0 <= i < |guards| ==>
      if guards[i].side == Buy then GuardPrice(guards[i], tick) <= center else center <= GuardPrice(guards[i], tick)
  }

  /** Every rung of a ladder at this center can be added beside the guards. */
  predicate CanUseCenter(center: int, guards: seq<Guard>, tick: int, levels: nat)
    requires tick > 0
  {
    forall level: nat, i :: level < levels && 0 <= i < |guards| ==> RungsClear(center, guards[i], tick, level)
  }

  predicate RungsClear(center: int, guard: Guard, tick: int, level: nat) {
    && CanPair(Sell, LevelPrice(center, tick, Sell, level), guard.side, guard.price)
    && (LevelPrice(center, tick, Buy, level) >= tick ==> CanPair(Buy, LevelPrice(center, tick, Buy, level), guard.side, guard.price))
  }

  /** Between the guards, even ones off the grid, a ladder is always clear of them: no search is needed. */
  lemma BetweenIsUsable(center: int, guards: seq<Guard>, tick: int, levels: nat)
    requires tick > 0 && Within(center, guards, tick)
    ensures CanUseCenter(center, guards, tick, levels)
  {
    forall level: nat, i | level < levels && 0 <= i < |guards|
      ensures RungsClear(center, guards[i], tick, level)
    {
      AlignedIsNearest(guards[i].price, tick);
      RungSides(center, tick, level);
    }
  }

  /** No BUY guard lies above a SELL guard, on the grid. */
  predicate GuardsUncrossed(guards: seq<Guard>, tick: int)
    requires tick > 0
  {
    forall i, j :: 0 <= i < |guards| && 0 <= j < |guards| && guards[i].side == Buy && guards[j].side == Sell ==>
      GuardPrice(guards[i], tick) <= GuardPrice(guards[j], tick)
  }

  /**
   * There is a center exactly when no BUY guard lies above a SELL guard; then
   * it is the one between the guards that is nearest to the aligned request, and a
   * ladder there is clear of all of them. The search for a center further away
   * never starts.
   */
  method GuardedQuoteCenter(requestedCenter: int, guards: seq<Guard>, tick: int, levels: nat) returns (center: Option<int>)
    requires tick > 0
    ensures center.Some? <==> GuardsUncrossed(guards, tick)
    ensures center.Some? ==> CanUseCenter(center.value, guards, tick, levels) && Within(center.value, guards, tick)
    ensures center.Some? ==> AlignToTick(center.value, tick) == center.value
    ensures center.Some? ==> forall c :: c >= tick && Within(c, guards, tick) ==>
      Distance(AlignToTick(requestedCenter, tick), center.value) <= Distance(AlignToTick(requestedCenter, tick), c)
  {
    var span := SpanOf(guards, tick);
    if span.high.Some? && span.low > span.high.value {
      CrossedSpan(span, guards, tick);
      return None;
    }
    var requested := AlignToTick(requestedCenter, tick);
    AlignedIsNearest(requestedCenter, tick);
    var raised := Max(requested, span.low);
    var clamped := if span.high.Some? then Min(raised, span.high.value) else raised;
    SpanAligned(span, guards, tick);
    center := Some(AlignToTick(clamped, tick));
    assert Within(clamped, guards, tick);
    forall c | c >= tick && Within(c, guards, tick)
      ensures Distance(requested, clamped) <= Distance(requested, c)
    {
      SpanBounds(span, guards, tick, c);
    }
    BetweenIsUsable(clamped, guards, tick, levels);
  }

  lemma SpanAligned(span: Span, guards: seq<Guard>, tick: int)
    requires tick > 0 && Covers(span, guards, |guards|, tick)
    ensures AlignToTick(span.low, tick) == span.low
    ensures span.high.Some? ==> AlignToTick(span.high.value, tick) == span.high.value
  {
    MultipleOnGrid(1, tick);
    GridPriceIsAligned(tick, tick);
    forall i | 0 <= i < |guards|
      ensures AlignToTick(GuardPrice(guards[i], tick), tick) == GuardPrice(guards[i], tick)
    {
      AlignedIsNearest(guards[i].price, tick);
    }
  }

  lemma SpanBounds(span: Span, guards: seq<Guard>, tick: int, c: int)
    requires tick > 0 && Covers(span, guards, |guards|, tick) && c >= tick && Within(c, guards, tick)
    ensures span.low <= c && (span.high.Some? ==> c <= span.high.value)
  {
  }

  lemma CrossedSpan(span: Span, guards: seq<Guard>, tick: int)
    requires tick > 0 && Covers(span, guards, |guards|, tick) && span.high.Some? && span.low > span.high.value
    ensures !GuardsUncrossed(guards, tick)
  {
    var j :| 0 <= j < |guards| && guards[j].side == Sell && GuardPrice(guards[j], tick) == span.high.value;
    AlignedIsNearest(guards[j].price, tick);
    var i :| 0 <= i < |guards| && guards[i].side == Buy && GuardPrice(guards[i], tick) == span.low;
    assert GuardPrice(guards[i], tick) > GuardPrice(guards[j], tick);
  }

  // ---- Adopting an inherited ladder ----

  predicate OrderPairs(x: Order, y: Order) {
    CanPair(x.side, x.price, y.side, y.price)
  }

  /** The leftover rows are clear of every planned price and of one another, tested one by one. */
  predicate ResidualsAreSafe(plan: seq<Quote>, residuals: seq<Order>) {
    && (forall k, i :: 0 <= k < |residuals| && 0 <= i < |plan| ==> CanPair(residuals[k].side, residuals[k].price, plan[i].side, plan[i].price))
    && (forall k, l :: 0 <= l < k < |residuals| ==> OrderPairs(residuals[k], residuals[l]))
  }

  /** Each adopted row stands at a planned price. */
  predicate AdoptedFrom(active: map<Slot, Managed>, plan: seq<Quote>) {
    forall s :: s in active ==> exists i :: 0 <= i < |plan| && plan[i].side == active[s].row.order.side && plan[i].price == active[s].row.order.price
  }

  predicate AreResiduals(rows: map<int, Row>, residuals: seq<Order>) {
    forall id :: id in rows ==> rows[id].order in residuals
  }

  lemma AdoptedPair(m: Maker, plan: seq<Quote>, residuals: seq<Order>, x: Order, y: Order)
    requires PlanUncrossed(plan) && ResidualsAreSafe(plan, residuals) && AdoptedFrom(m.active, plan)
    requires m.retiring == map[] && AreResiduals(m.preserved, residuals) && AreResiduals(m.retirable, residuals)
    requires Tracks(m, x) && Tracks(m, y) && x.side != y.side
    ensures OrderPairs(x, y)
  {
    if ActiveHas(m.active, x) && ActiveHas(m.active, y) {
      var s :| s in m.active && m.active[s].row.order == x;
      var t :| t in m.active && m.active[t].row.order == y;
      var i :| 0 <= i < |plan| && plan[i].side == x.side && plan[i].price == x.price;
      var j :| 0 <= j < |plan| && plan[j].side == y.side && plan[j].price == y.price;
      assert CanPair(plan[i].side, plan[i].price, plan[j].side, plan[j].price);
    } else if ActiveHas(m.active, x) || ActiveHas(m.active, y) {
      var (a, r) := if ActiveHas(m.active, x) then (x, y) else (y, x);
      var s :| s in m.active && m.active[s].row.order == a;
      var i :| 0 <= i < |plan| && plan[i].side == a.side && plan[i].price == a.price;
      assert r in residuals;
      var k :| 0 <= k < |residuals| && residuals[k] == r;
      assert CanPair(residuals[k].side, residuals[k].price, plan[i].side, plan[i].price);
    } else {
      assert x in residuals && y in residuals;
      var k :| 0 <= k < |residuals| && residuals[k] == x;
      var l :| 0 <= l < |residuals| && residuals[l] == y;
      assert OrderPairs(residuals[k], residuals[l]) || OrderPairs(residuals[l], residuals[k]);
    }
  }

  /** An adopted ladder with its leftovers is a safe start, provided every order that lives was inherited. */
  lemma AdoptionIsSafe(m: Maker, plan: seq<Quote>, residuals: seq<Order>, live: set<Order>, issued: set<int>)
    requires WellKeyed(m) && m.retiring == map[] && PlanUncrossed(plan)
    requires AdoptedFrom(m.active, plan) && ResidualsAreSafe(plan, residuals)
    requires AreResiduals(m.preserved, residuals) && AreResiduals(m.retirable, residuals)
    requires forall o :: o in live ==> Tracks(m, o)
    requires forall o :: Tracks(m, o) ==> o.id in issued
    ensures Safe(State(m, {}, live, issued))
  {
    var st := State(m, {}, live, issued);
    forall b, a | Known(st, b) && Known(st, a) && b.side == Buy && a.side == Sell
      ensures b.price < a.price
    {
      AdoptedPair(m, plan, residuals, b, a);
    }
  }
}
