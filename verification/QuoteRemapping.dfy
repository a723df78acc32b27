/** Re-keying the live ladder by the levels of a new plan, pool by pool. */
module QuoteRemapping {
  import opened Common
  import opened Liquidity
  import opened MakerQuotes

  /** A side and a price: the rows at one face are interchangeable. */
  datatype Face = Face(side: Side, price: int)

  type Pools = map<Face, seq<Managed>>

  function FaceOf(current: Managed): Face {
    Face(current.row.order.side, current.row.order.price)
  }

  function HomeOf(current: Managed): Slot {
    Slot(current.row.order.side, current.level)
  }

  predicate InPool(pools: Pools, current: Managed) {
    FaceOf(current) in pools && current in pools[FaceOf(current)]
  }

  predicate PoolSorted(face: Face, pool: seq<Managed>) {
    && (forall j :: 0 <= j < |pool| ==> FaceOf(pool[j]) == face)
    && (forall j, k :: 0 <= j < k < |pool| ==> pool[j] != pool[k])
  }

  predicate PoolsOk(pools: Pools) {
    forall face :: face in pools ==> PoolSorted(face, pools[face])
  }

  ghost predicate PoolsHold(pools: Pools, pooled: set<Managed>) {
    forall current :: current in pooled <==> InPool(pools, current)
  }

  /** Members of the pools come from the old ladder, and each has one home there. */
  predicate FromActive(before: map<Slot, Managed>, pooled: set<Managed>) {
    forall current :: current in pooled ==> HomeOf(current) in before && before[HomeOf(current)] == current
  }

  ghost predicate FromSlots(before: map<Slot, Managed>, rest: set<Slot>, pooled: set<Managed>) {
    FromActive(before, pooled) && forall s :: s in before ==> (before[s] in pooled <==> s !in rest)
  }

  lemma PutInPool(pools: Pools, pooled: set<Managed>, current: Managed)
    requires PoolsOk(pools) && PoolsHold(pools, pooled) && current !in pooled
    ensures
      var face := FaceOf(current);
      var matches := if face in pools then pools[face] else [];
      var after := pools[face := matches + [current]];
      PoolsOk(after) && PoolsHold(after, pooled + {current})
  {
    var face := FaceOf(current);
    var matches := if face in pools then pools[face] else [];
    var after := pools[face := matches + [current]];
    assert current !in matches by {
      assert !InPool(pools, current);
    }
    forall q
      ensures q in pooled + {current} <==> InPool(after, q)
    {
      if FaceOf(q) == face {
        assert q in after[face] <==> q in matches || q == current;
        assert q in pooled <==> InPool(pools, q);
      }
    }
  }

  lemma TakeFromPool(pools: Pools, pooled: set<Managed>, face: Face)
    requires PoolsOk(pools) && PoolsHold(pools, pooled) && face in pools && pools[face] != []
    ensures
      var current := pools[face][0];
      var after := pools[face := pools[face][1..]];
      current in pooled && FaceOf(current) == face && PoolsOk(after) && PoolsHold(after, pooled - {current})
  {
    var pool := pools[face];
    var current := pool[0];
    var after := pools[face := pool[1..]];
    assert PoolSorted(face, pool);
    assert InPool(pools, current);
    forall q
      ensures q in pooled - {current} <==> InPool(after, q)
    {
      assert pool == [current] + pool[1..];
      if FaceOf(q) == face {
        assert q in pool <==> q == current || q in pool[1..];
        assert q in pooled <==> InPool(pools, q);
      }
    }
  }

  lemma Pooled(before: map<Slot, Managed>, rest: set<Slot>, s: Slot, pooled: set<Managed>)
    requires KeyedBySlot(before) && FromSlots(before, rest, pooled) && s in rest && s in before
    ensures before[s] !in pooled && FromSlots(before, rest - {s}, pooled + {before[s]})
  {
    assert s == HomeOf(before[s]);
    forall t | t in before
      ensures before[t] in pooled + {before[s]} <==> t !in rest - {s}
    {
      assert t == HomeOf(before[t]);
    }
  }

  method BuildPools(active: map<Slot, Managed>) returns (pools: Pools, ghost pooled: set<Managed>)
    requires KeyedBySlot(active)
    ensures PoolsOk(pools) && PoolsHold(pools, pooled) && FromSlots(active, {}, pooled)
  {
    pools := map[];
    pooled := {};
    var rest := active.Keys;
    while rest != {}
      invariant rest <= active.Keys && PoolsOk(pools) && PoolsHold(pools, pooled) && FromSlots(active, rest, pooled)
      decreases |rest|
    {
      var s := Pick(rest);
      var current := active[s];
      Pooled(active, rest, s, pooled);
      PutInPool(pools, pooled, current);
      var face := FaceOf(current);
      var matches := if face in pools then pools[face] else [];
      pools := pools[face := matches + [current]];
      pooled := pooled + {current};
      rest := rest - {s};
    }
  }

  /** `source` says which old entry each re-keyed one came from. */
  ghost predicate Sourced(after: map<Slot, Managed>, source: map<Slot, Managed>, taken: set<Managed>) {
    && after.Keys == source.Keys
    && (forall s :: s in after ==> source[s] in taken && after[s].row == source[s].row && after[s].level == s.level && after[s].row.order.side == s.side)
    && (forall current :: current in taken ==> exists s :: s in source && source[s] == current)
    && (forall s, t :: s in source && t in source && source[s] == source[t] ==> s == t)
  }

  lemma SourcedMore(after: map<Slot, Managed>, source: map<Slot, Managed>, taken: set<Managed>, s: Slot, current: Managed, entry: Managed)
    requires Sourced(after, source, taken) && s !in after && current !in taken
    requires entry.row == current.row && entry.level == s.level && current.row.order.side == s.side
    ensures Sourced(after[s := entry], source[s := current], taken + {current})
  {
    var source' := source[s := current];
    forall c | c in taken + {current}
      ensures exists t :: t in source' && source'[t] == c
    {
      if c == current {
        assert source'[s] == c;
      } else {
        var t :| t in source && source[t] == c;
        assert source'[t] == c;
      }
    }
  }

  predicate DistinctSlots(plan: seq<Quote>) {
    forall i, j :: 0 <= i < j < |plan| ==> SlotOf(plan[i]) != SlotOf(plan[j])
  }

  /** The entries re-keyed for the first n quotes of the plan. */
  ghost predicate Served(before: map<Slot, Managed>, plan: seq<Quote>, n: nat, strictSides: set<Side>, after: map<Slot, Managed>, pooled: set<Managed>)
    requires n <= |plan|
  {
    && (forall s :: s in after ==> PlanHasSlot(plan[..n], s))
    && (forall i :: 0 <= i < n ==> Reuses(before, after, plan[i], strictSides))
    && (forall i :: 0 <= i < n && SlotOf(plan[i]) !in after ==> FaceGone(pooled, plan[i]))
  }

  predicate FaceGone(pooled: set<Managed>, desired: Quote) {
    forall current :: current in pooled ==> FaceOf(current) != Face(desired.side, desired.price)
  }

  lemma NotYet(plan: seq<Quote>, n: nat)
    requires n < |plan| && DistinctSlots(plan)
    ensures !PlanHasSlot(plan[..n], SlotOf(plan[n]))
  {
    forall i | 0 <= i < n
      ensures SlotOf(plan[..n][i]) != SlotOf(plan[n])
    {
      assert plan[..n][i] == plan[i];
    }
  }

  lemma ServedMore(before: map<Slot, Managed>, plan: seq<Quote>, n: nat, strictSides: set<Side>,
                   after: map<Slot, Managed>, pooled: set<Managed>, current: Managed, entry: Managed)
    requires n < |plan| && DistinctSlots(plan) && Served(before, plan, n, strictSides, after, pooled)
    requires FromActive(before, pooled) && current in pooled && FaceOf(current) == Face(plan[n].side, plan[n].price)
    requires entry.row == current.row && entry.needsNormalization == Excessive(current, plan[n], strictSides)
    ensures Served(before, plan, n + 1, strictSides, after[SlotOf(plan[n]) := entry], pooled - {current})
    ensures SlotOf(plan[n]) !in after
  {
    var slot := SlotOf(plan[n]);
    var after' := after[slot := entry];
    NotYet(plan, n);
    assert before[HomeOf(current)] == current;
    assert Reuses(before, after', plan[n], strictSides);
    forall s | s in after'
      ensures PlanHasSlot(plan[..n + 1], s)
    {
      if s == slot {
        assert SlotOf(plan[..n + 1][n]) == s;
      } else {
        var i :| 0 <= i < n && SlotOf(plan[..n][i]) == s;
        assert SlotOf(plan[..n + 1][i]) == s;
      }
    }
    forall i | 0 <= i < n
      ensures Reuses(before, after', plan[i], strictSides)
    {
      assert Reuses(before, after, plan[i], strictSides);
    }
  }

  lemma ServedNone(before: map<Slot, Managed>, plan: seq<Quote>, n: nat, strictSides: set<Side>, after: map<Slot, Managed>, pooled: set<Managed>)
    requires n < |plan| && DistinctSlots(plan) && Served(before, plan, n, strictSides, after, pooled) && FaceGone(pooled, plan[n])
    ensures Served(before, plan, n + 1, strictSides, after, pooled)
  {
    var slot := SlotOf(plan[n]);
    NotYet(plan, n);
    forall s | s in after
      ensures PlanHasSlot(plan[..n + 1], s)
    {
      var i :| 0 <= i < n && SlotOf(plan[..n][i]) == s;
      assert SlotOf(plan[..n + 1][i]) == s;
    }
  }

  method TakeForPlan(active: map<Slot, Managed>, plan: seq<Quote>, strictSides: set<Side>, pools: Pools, ghost pooled: set<Managed>)
    returns (left: Pools, remapped: map<Slot, Managed>, ghost unused: set<Managed>, ghost source: map<Slot, Managed>, ghost taken: set<Managed>)
    requires DistinctSlots(plan) && PoolsOk(pools) && PoolsHold(pools, pooled) && FromActive(active, pooled)
    ensures PoolsOk(left) && PoolsHold(left, unused) && FromActive(active, unused)
    ensures unused + taken == pooled && unused !! taken
    ensures Sourced(remapped, source, taken) && Served(active, plan, |plan|, strictSides, remapped, unused)
  {
    left, remapped := pools, map[];
    unused, source, taken := pooled, map[], {};
    for i := 0 to |plan|
      invariant PoolsOk(left) && PoolsHold(left, unused) && FromActive(active, unused)
      invariant unused + taken == pooled && unused !! taken
      invariant Sourced(remapped, source, taken) && Served(active, plan, i, strictSides, remapped, unused)
    {
      var desired := plan[i];
      var face := Face(desired.side, desired.price);
      if face in left && left[face] != [] {
        var current := left[face][0];
        TakeFromPool(left, unused, face);
        var entry := Managed(current.row, desired.level, Excessive(current, desired, strictSides));
        ServedMore(active, plan, i, strictSides, remapped, unused, current, entry);
        SourcedMore(remapped, source, taken, SlotOf(desired), current, entry);
        left := left[face := left[face][1..]];
        remapped := remapped[SlotOf(desired) := entry];
        source := source[SlotOf(desired) := current];
        unused := unused - {current};
        taken := taken + {current};
      } else {
        assert FaceGone(unused, desired) by {
          forall current | current in unused
            ensures FaceOf(current) != face
          {
            assert InPool(left, current);
          }
        }
        ServedNone(active, plan, i, strictSides, remapped, unused);
      }
    }
  }

  function RowsOf(pool: seq<Managed>): (rows: seq<Row>) {
    seq(|pool|, i requires 0 <= i < |pool| => pool[i].row)
  }

  predicate CameFrom(row: Row, pooled: set<Managed>, rest: set<Face>) {
    exists current :: current in pooled && FaceOf(current) !in rest && current.row == row
  }

  /** The rows collected so far are those of the pooled entries outside the remaining faces. */
  ghost predicate Collected(rows: seq<Row>, pooled: set<Managed>, rest: set<Face>) {
    && (forall current :: current in pooled && FaceOf(current) !in rest ==> current.row in rows)
    && (forall k :: 0 <= k < |rows| ==> CameFrom(rows[k], pooled, rest))
    && DistinctIds(rows)
  }

  lemma SameId(before: map<Slot, Managed>, pooled: set<Managed>, a: Managed, b: Managed)
    requires KeyedBySlot(before) && FromActive(before, pooled) && a in pooled && b in pooled && a.row.order.id == b.row.order.id
    ensures a == b
  {
  }

  lemma CollectPool(before: map<Slot, Managed>, pools: Pools, pooled: set<Managed>, rows: seq<Row>, rest: set<Face>, face: Face)
    requires KeyedBySlot(before) && FromActive(before, pooled) && PoolsOk(pools) && PoolsHold(pools, pooled)
    requires face in rest && face in pools && Collected(rows, pooled, rest)
    ensures Collected(rows + RowsOf(pools[face]), pooled, rest - {face})
  {
    var pool := pools[face];
    var more := RowsOf(pool);
    var all := rows + more;
    assert PoolSorted(face, pool);
    forall j | 0 <= j < |pool|
      ensures pool[j] in pooled && FaceOf(pool[j]) == face
    {
      assert InPool(pools, pool[j]);
    }
    forall current | current in pooled && FaceOf(current) !in rest - {face}
      ensures current.row in all
    {
      if FaceOf(current) == face {
        assert InPool(pools, current);
        var j :| 0 <= j < |pool| && pool[j] == current;
        assert all[|rows| + j] == current.row;
      } else {
        var k :| 0 <= k < |rows| && rows[k] == current.row;
        assert all[k] == current.row;
      }
    }
    forall k | 0 <= k < |all|
      ensures CameFrom(all[k], pooled, rest - {face})
    {
      if k < |rows| {
        assert CameFrom(rows[k], pooled, rest);
      } else {
        assert pool[k - |rows|] in pooled;
      }
    }
    PoolRowsDistinct(before, pooled, rows, rest, pool, face);
  }

  lemma PoolRowsDistinct(before: map<Slot, Managed>, pooled: set<Managed>, rows: seq<Row>, rest: set<Face>, pool: seq<Managed>, face: Face)
    requires KeyedBySlot(before) && FromActive(before, pooled) && PoolSorted(face, pool)
    requires face in rest && Collected(rows, pooled, rest) && forall j :: 0 <= j < |pool| ==> pool[j] in pooled
    ensures DistinctIds(rows + RowsOf(pool))
  {
    var all := rows + RowsOf(pool);
    forall i, j | 0 <= i < j < |all| && j >= |rows|
      ensures all[i].order.id != all[j].order.id
    {
      var b := pool[j - |rows|];
      if i >= |rows| {
        var a := pool[i - |rows|];
        if a.row.order.id == b.row.order.id {
          SameId(before, pooled, a, b);
        }
      } else {
        assert CameFrom(rows[i], pooled, rest);
        var a :| a in pooled && FaceOf(a) !in rest && a.row == rows[i];
        if a.row.order.id == b.row.order.id {
          SameId(before, pooled, a, b);
        }
      }
    }
  }

  method Flatten(ghost before: map<Slot, Managed>, pools: Pools, ghost pooled: set<Managed>) returns (rows: seq<Row>)
    requires KeyedBySlot(before) && FromActive(before, pooled) && PoolsOk(pools) && PoolsHold(pools, pooled)
    ensures Collected(rows, pooled, {})
  {
    rows := [];
    var rest := pools.Keys;
    assert Collected(rows, pooled, rest) by {
      forall current | current in pooled
        ensures FaceOf(current) in rest
      {
        assert InPool(pools, current);
      }
    }
    while rest != {}
      invariant rest <= pools.Keys && Collected(rows, pooled, rest)
      decreases |rest|
    {
      var face := Pick(rest);
      CollectPool(before, pools, pooled, rows, rest, face);
      rows := rows + RowsOf(pools[face]);
      rest := rest - {face};
    }
  }

  lemma RemappedKeyed(before: map<Slot, Managed>, after: map<Slot, Managed>, source: map<Slot, Managed>, taken: set<Managed>)
    requires KeyedBySlot(before) && FromActive(before, taken) && Sourced(after, source, taken)
    ensures KeyedBySlot(after)
  {
    forall s, t | s in after && t in after && after[s].row.order.id == after[t].row.order.id
      ensures s == t
    {
      SameId(before, taken, source[s], source[t]);
    }
  }

  lemma RemapSplits(before: map<Slot, Managed>, after: map<Slot, Managed>, source: map<Slot, Managed>,
                    taken: set<Managed>, unused: set<Managed>, rows: seq<Row>)
    requires KeyedBySlot(before) && FromSlots(before, {}, unused + taken) && unused !! taken
    requires Sourced(after, source, taken) && Collected(rows, unused, {})
    ensures Splits(before, after, rows)
  {
    var all := unused + taken;
    RemappedKeyed(before, after, source, taken);
    forall row
      ensures ActiveHasRow(before, row) <==> ActiveHasRow(after, row) || row in rows
    {
      if ActiveHasRow(before, row) {
        var s :| s in before && before[s].row == row;
        assert before[s] in all;
        if before[s] in taken {
          var t :| t in source && source[t] == before[s];
          assert after[t].row == row;
        }
      }
      if ActiveHasRow(after, row) {
        var t :| t in after && after[t].row == row;
        assert before[HomeOf(source[t])].row == row;
      }
      if row in rows {
        UnusedRow(rows, unused, row);
        var current :| current in unused && current.row == row;
        assert before[HomeOf(current)].row == row;
      }
    }
    forall row | row in rows
      ensures !ActiveHasRow(after, row)
    {
      UnusedRow(rows, unused, row);
      var current :| current in unused && current.row == row;
      if t :| t in after && after[t].row == row {
        SameId(before, all, source[t], current);
        assert false;
      }
    }
  }

  lemma UnusedRow(rows: seq<Row>, unused: set<Managed>, row: Row)
    requires Collected(rows, unused, {}) && row in rows
    ensures exists current :: current in unused && current.row == row
  {
    var k :| 0 <= k < |rows| && rows[k] == row;
    assert CameFrom(rows[k], unused, {});
  }

  /** Re-keys the ladder for a plan with one quote a slot; the rows no slot took are returned. */
  method RemapActiveQuotesForPlan(active: map<Slot, Managed>, plan: seq<Quote>, strictSides: set<Side>)
    returns (remapped: map<Slot, Managed>, superseded: seq<Row>)
    requires KeyedBySlot(active) && DistinctSlots(plan)
    ensures Remapped(active, plan, strictSides, remapped, superseded)
  {
    ghost var pooled, unused, source, taken;
    var pools, left;
    pools, pooled := BuildPools(active);
    left, remapped, unused, source, taken := TakeForPlan(active, plan, strictSides, pools, pooled);
    superseded := Flatten(active, left, unused);
    RemapSplits(active, remapped, source, taken, unused, superseded);
    assert plan[..|plan|] == plan;
    forall i | 0 <= i < |plan|
      ensures NothingWasted(remapped, superseded, plan[i])
    {
      if SlotOf(plan[i]) !in remapped {
        forall k | 0 <= k < |superseded|
          ensures superseded[k].order.side != plan[i].side || superseded[k].order.price != plan[i].price
        {
          UnusedRow(superseded, unused, superseded[k]);
          var current :| current in unused && current.row == superseded[k];
          assert FaceOf(current) != Face(plan[i].side, plan[i].price);
        }
      }
    }
  }

  // ---- What a one-tick move supersedes ----

  predicate OneRowPerFace(active: map<Slot, Managed>) {
    forall s, t :: s in active && t in active && FaceOf(active[s]) == FaceOf(active[t]) ==> s == t
  }

  predicate StandsOn(active: map<Slot, Managed>, ladder: seq<Quote>) {
    forall s :: s in active ==> AtFace(ladder, active[s].row.order.side, active[s].row.order.price)
  }

  /** With one row at each price, nothing at a planned price is superseded. */
  lemma PlannedIsKept(before: map<Slot, Managed>, plan: seq<Quote>, strictSides: set<Side>, after: map<Slot, Managed>, superseded: seq<Row>, k: nat)
    requires KeyedBySlot(before) && OneRowPerFace(before) && Remapped(before, plan, strictSides, after, superseded) && k < |superseded|
    ensures !AtFace(plan, superseded[k].order.side, superseded[k].order.price)
  {
    var row := superseded[k];
    assert row in superseded;
    assert ActiveHasRow(before, row);
    var t :| t in before && before[t].row == row;
    forall i | 0 <= i < |plan|
      ensures plan[i].side != row.order.side || plan[i].price != row.order.price
    {
      assert Reuses(before, after, plan[i], strictSides) && NothingWasted(after, superseded, plan[i]);
      var slot := SlotOf(plan[i]);
      if slot in after {
        var s :| s in before && before[s].row == after[slot].row;
        assert ActiveHasRow(after, before[s].row);
        assert s != t;
        assert FaceOf(before[s]) != FaceOf(before[t]);
      }
    }
  }

  /** A one-tick move supersedes at most one row of each side; all others keep their orders. */
  lemma OneTickMoveSupersedesOne(before: map<Slot, Managed>, was: seq<Quote>, next: seq<Quote>, center: int, up: bool, tick: int,
                                 oq: seq<int>, nq: seq<int>, strictSides: set<Side>, after: map<Slot, Managed>, superseded: seq<Row>)
    requires KeyedBySlot(before) && OneRowPerFace(before) && StandsOn(before, was) && tick > 0 && |oq| == |nq| > 0
    requires IsLadder(was, center, tick, oq) && IsLadder(next, if up then center + tick else center - tick, tick, nq)
    requires Remapped(before, next, strictSides, after, superseded)
    ensures forall i, j :: 0 <= i < j < |superseded| ==> superseded[i].order.side != superseded[j].order.side
  {
    forall k | 0 <= k < |superseded|
      ensures ActiveHasRow(before, superseded[k]) && superseded[k].order.price == GivenUp(center, tick, up, superseded[k].order.side, |oq|)
    {
      assert superseded[k] in superseded;
      var s :| s in before && before[s].row == superseded[k];
      var i :| 0 <= i < |was| && was[i].side == superseded[k].order.side && was[i].price == superseded[k].order.price;
      OneTickMoveReusesRungs(was, next, center, up, tick, oq, nq, i);
      PlannedIsKept(before, next, strictSides, after, superseded, k);
    }
    forall i, j | 0 <= i < j < |superseded|
      ensures superseded[i].order.side != superseded[j].order.side
    {
      assert ActiveHasRow(before, superseded[i]) && ActiveHasRow(before, superseded[j]);
      var s :| s in before && before[s].row == superseded[i];
      var t :| t in before && before[t].row == superseded[j];
      assert s != t;
      assert FaceOf(before[s]) != FaceOf(before[t]);
    }
  }
}
