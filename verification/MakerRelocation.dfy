/**
 * Relocating a ladder far away, one side first: the first side is never
 * blocked, and when exactly the second is not, so that the relocation completes.
 */
module MakerRelocation {
  import Arithmetic
  import opened Common
  import opened Liquidity
  import opened MakerQuotes
  import opened QuoteRemapping
  import opened MakerRefresh
  import opened MakerStartup

  datatype Progress = StagingFirstSide | WaitingForFirstSideRetirement | StagingSecondSide | Complete

  const FAST_REPRICE_MIN_TICKS := 6

  datatype StagedQuoteMigration = StagedQuoteMigration(targetCenter: int, firstSide: Side)

  /** The fast path, only when one-tick moves would be too slow; moving up, asks go first, moving down, bids. */
  function BeginStagedQuoteMigration(currentCenter: int, targetCenter: int, tick: int): Option<StagedQuoteMigration>
    requires tick > 0
  {
    var current, target := AlignToTick(currentCenter, tick), AlignToTick(targetCenter, tick);
    if Distance(current, target) < FAST_REPRICE_MIN_TICKS * tick then None
    else Some(StagedQuoteMigration(target, if target > current then Sell else Buy))
  }

  /**
   * A staged relocation begins exactly when five one-tick moves would not get
   * there; then the target is aligned, and the side that moves away from the old
   * ladder goes first.
   */
  lemma BeginsIffFar(currentCenter: int, targetCenter: int, tick: int)
    requires tick > 0
    ensures
      var current, target := AlignToTick(currentCenter, tick), AlignToTick(targetCenter, tick);
      match BeginStagedQuoteMigration(currentCenter, targetCenter, tick)
      case None => CenterAfter(current, target, tick, 5) == target
      case Some(migration) =>
        CenterAfter(current, target, tick, 5) != target && migration.targetCenter == target &&
        LevelPrice(target, tick, migration.firstSide, 0) != LevelPrice(current, tick, migration.firstSide, 0) &&
        CanPair(migration.firstSide, LevelPrice(target, tick, migration.firstSide, 0),
                Opposite(migration.firstSide), LevelPrice(current, tick, Opposite(migration.firstSide), 0))
  {
    var current, target := AlignToTick(currentCenter, tick), AlignToTick(targetCenter, tick);
    AlignedIsNearest(currentCenter, tick);
    AlignedIsNearest(targetCenter, tick);
    MovesArrive(current, target, tick, 5);
    WholeTicks(current, target, tick);
  }

  lemma WholeTicks(current: int, target: int, tick: int)
    requires tick > 0 && OnGrid(current, tick) && OnGrid(target, tick)
    ensures Distance(current, target) < 6 * tick <==> Distance(current, target) <= 5 * tick
  {
    var k := target / tick - current / tick;
    Arithmetic.DivBetween(current, tick);
    Arithmetic.DivBetween(target, tick);
    assert target - current == k * tick;
    if k * tick < 6 * tick {
      Arithmetic.MulOrder(k, 6, tick);
      Arithmetic.MulMono(k, 5, tick);
    }
    assert -k * tick == current - target;
    if -k * tick < 6 * tick {
      Arithmetic.MulOrder(-k, 6, tick);
      Arithmetic.MulMono(-k, 5, tick);
    }
  }

  predicate HasLiveSide(rows: map<int, Row>, side: Side) {
    exists id :: id in rows && rows[id].order.side == side
  }

  /** The rows lie outside the plan: no quote of it would trade with one. */
  predicate OutsidePlan(rows: map<int, Row>, plan: seq<Quote>) {
    forall i :: 0 <= i < |plan| ==> PairsWithRows(plan[i], rows)
  }

  // ---- One call ----

  /** What one call does: at most one side is refreshed, with whatever the exchange answers. */
  ghost predicate Advances(m: Maker, plan: seq<Quote>, firstSide: Side, replies: Replies, progress: Progress, done: set<nat>, after: Maker) {
    var ready := SideMatchesPlan(m.active, plan, firstSide);
    && (progress.StagingFirstSide? <==> !ready)
    && (progress.WaitingForFirstSideRetirement? <==> ready && HasLiveSide(m.retiring, firstSide))
    && (progress.Complete? <==> ready && !HasLiveSide(m.retiring, firstSide) && SideMatchesPlan(m.active, plan, Opposite(firstSide)))
    && if progress.WaitingForFirstSideRetirement? || progress.Complete? then after == m
       else Staged(m, plan, if progress.StagingFirstSide? then firstSide else Opposite(firstSide), replies, done, after)
  }

  ghost predicate Staged(m: Maker, plan: seq<Quote>, side: Side, replies: Replies, done: set<nat>, after: Maker) {
    var quotes := OnSide(plan, side);
    && Answered(replies, quotes) && SideRefreshed(m, quotes, replies, done, after)
    && forall i :: 0 <= i < |quotes| ==> (i in done <==> Won(m, quotes[i], replies))
  }

  /** The quotes of a plan that its side asks for and the exchange accepts. */
  predicate Taken(m: Maker, plan: seq<Quote>, side: Side, replies: Replies, k: nat) {
    k < |plan| && plan[k].side == side && SlotOf(plan[k]) in replies && Won(m, plan[k], replies)
  }

  ghost predicate TakenAt(m: Maker, plan: seq<Quote>, side: Side, replies: Replies, s: Slot) {
    exists k: nat :: Taken(m, plan, side, replies, k) && SlotOf(plan[k]) == s
  }

  /** The call, quote by quote and slot by slot. */
  ghost predicate Filled(m: Maker, plan: seq<Quote>, side: Side, replies: Replies, active: map<Slot, Managed>) {
    && (forall k: nat :: Taken(m, plan, side, replies, k) ==>
          SlotOf(plan[k]) in active && active[SlotOf(plan[k])] == Entry(plan[k], replies[SlotOf(plan[k])].id))
    && (forall s :: !TakenAt(m, plan, side, replies, s) ==> (s in active <==> s in m.active) && (s in m.active ==> active[s] == m.active[s]))
  }

  /** What is being retired was before, or was active at a slot of the plan's side. */
  predicate RetiresOnly(m: Maker, side: Side, retiring: map<int, Row>) {
    forall id :: id in retiring ==>
      (id in m.retiring && retiring[id] == m.retiring[id]) || WasActive(m.active, side, retiring[id])
  }

  predicate WasActive(active: map<Slot, Managed>, side: Side, row: Row) {
    exists s :: s in active && s.side == side && active[s].row == row
  }

  lemma OnSideIs(plan: seq<Quote>, side: Side)
    requires DistinctSlots(plan)
    ensures DistinctSlots(OnSide(plan, side))
    ensures forall q :: q in OnSide(plan, side) <==> q in plan && q.side == side
  {
    Selected(plan, (q: Quote) => q.side == side);
  }

  lemma TakenIsDone(m: Maker, plan: seq<Quote>, side: Side, replies: Replies, done: set<nat>, after: Maker, k: nat) returns (i: nat)
    requires DistinctSlots(plan) && Staged(m, plan, side, replies, done, after) && Taken(m, plan, side, replies, k)
    ensures i < |OnSide(plan, side)| && i in done && OnSide(plan, side)[i] == plan[k]
  {
    OnSideIs(plan, side);
    assert plan[k] in OnSide(plan, side);
    i :| 0 <= i < |OnSide(plan, side)| && OnSide(plan, side)[i] == plan[k];
  }

  lemma DoneIsTaken(m: Maker, plan: seq<Quote>, side: Side, replies: Replies, done: set<nat>, after: Maker, i: nat) returns (k: nat)
    requires DistinctSlots(plan) && Staged(m, plan, side, replies, done, after) && i in done && i < |OnSide(plan, side)|
    ensures Taken(m, plan, side, replies, k) && plan[k] == OnSide(plan, side)[i]
  {
    OnSideIs(plan, side);
    assert OnSide(plan, side)[i] in plan;
    k :| 0 <= k < |plan| && plan[k] == OnSide(plan, side)[i];
  }

  lemma StagedFills(m: Maker, plan: seq<Quote>, side: Side, replies: Replies, done: set<nat>, after: Maker)
    requires DistinctSlots(plan) && Staged(m, plan, side, replies, done, after)
    ensures Filled(m, plan, side, replies, after.active)
  {
    var quotes := OnSide(plan, side);
    forall k: nat | Taken(m, plan, side, replies, k)
      ensures SlotOf(plan[k]) in after.active && after.active[SlotOf(plan[k])] == Entry(plan[k], replies[SlotOf(plan[k])].id)
    {
      var i := TakenIsDone(m, plan, side, replies, done, after, k);
    }
    forall s | !TakenAt(m, plan, side, replies, s)
      ensures (s in after.active <==> s in m.active) && (s in m.active ==> after.active[s] == m.active[s])
    {
      if MakerRefresh.Served(quotes, done, s) {
        var i :| i in done && i < |quotes| && SlotOf(quotes[i]) == s;
        var k := DoneIsTaken(m, plan, side, replies, done, after, i);
      }
    }
  }

  lemma StagedRetires(m: Maker, plan: seq<Quote>, side: Side, replies: Replies, done: set<nat>, after: Maker)
    requires DistinctSlots(plan) && Staged(m, plan, side, replies, done, after)
    ensures RetiresOnly(m, side, after.retiring)
  {
    var quotes := OnSide(plan, side);
    forall id | id in after.retiring && id !in m.retiring
      ensures WasActive(m.active, side, after.retiring[id])
    {
      var i :| i in done && i < |quotes| && SlotOf(quotes[i]) in m.active && m.active[SlotOf(quotes[i])].row.order.id == id;
      var k := DoneIsTaken(m, plan, side, replies, done, after, i);
      assert IsRetiring(m, SlotOf(quotes[i]), after.retiring);
    }
  }

  // ---- What every call and every snapshot keeps ----

  /** No quote of the first side would trade with anything tracked. */
  predicate FirstOpen(m: Maker, plan: seq<Quote>, firstSide: Side) {
    forall k :: 0 <= k < |plan| && plan[k].side == firstSide ==> CanAdd(plan[k], m)
  }

  predicate SidesKeyed(active: map<Slot, Managed>) {
    forall s :: s in active ==> active[s].row.order.side == s.side
  }

  predicate Relocating(m: Maker, plan: seq<Quote>, firstSide: Side) {
    SidesKeyed(m.active) && FirstOpen(m, plan, firstSide) && OutsidePlan(m.preserved, plan) && OutsidePlan(m.retirable, plan)
  }

  predicate GoodPlan(plan: seq<Quote>) {
    DistinctSlots(plan) && PlanUncrossed(plan) && forall k :: 0 <= k < |plan| ==> plan[k].qty >= 1
  }

  lemma FilledPairs(m: Maker, plan: seq<Quote>, side: Side, replies: Replies, active: map<Slot, Managed>, s: Slot, k: nat)
    requires GoodPlan(plan) && Filled(m, plan, side, replies, active) && s in active && k < |plan| && CanAdd(plan[k], m)
    ensures CanPair(plan[k].side, plan[k].price, active[s].row.order.side, active[s].row.order.price)
  {
    if TakenAt(m, plan, side, replies, s) {
      var j: nat :| Taken(m, plan, side, replies, j) && SlotOf(plan[j]) == s;
      assert CanPair(plan[k].side, plan[k].price, plan[j].side, plan[j].price);
    }
  }

  lemma StagedKeeps(m: Maker, plan: seq<Quote>, firstSide: Side, side: Side, replies: Replies, done: set<nat>, after: Maker)
    requires GoodPlan(plan) && Relocating(m, plan, firstSide) && Staged(m, plan, side, replies, done, after)
    ensures Relocating(after, plan, firstSide)
  {
    StagedFills(m, plan, side, replies, done, after);
    StagedRetires(m, plan, side, replies, done, after);
    forall s | s in after.active ensures after.active[s].row.order.side == s.side {
      if TakenAt(m, plan, side, replies, s) {
        var j: nat :| Taken(m, plan, side, replies, j) && SlotOf(plan[j]) == s;
      }
    }
    forall k: nat | k < |plan| && plan[k].side == firstSide ensures CanAdd(plan[k], after) {
      forall s | s in after.active
        ensures CanPair(plan[k].side, plan[k].price, after.active[s].row.order.side, after.active[s].row.order.price)
      {
        FilledPairs(m, plan, side, replies, after.active, s, k);
      }
    }
  }

  lemma AdvanceKeeps(m: Maker, plan: seq<Quote>, firstSide: Side, replies: Replies, progress: Progress, done: set<nat>, after: Maker)
    requires GoodPlan(plan) && Relocating(m, plan, firstSide) && Advances(m, plan, firstSide, replies, progress, done, after)
    ensures Relocating(after, plan, firstSide)
  {
    if progress.StagingFirstSide? {
      StagedKeeps(m, plan, firstSide, firstSide, replies, done, after);
    } else if progress.StagingSecondSide? {
      StagedKeeps(m, plan, firstSide, Opposite(firstSide), replies, done, after);
    }
  }

  lemma ReconcileKeeps(m: Maker, plan: seq<Quote>, firstSide: Side, snapshot: Snapshot, after: Maker)
    requires Relocating(m, plan, firstSide) && Reconciled(m, snapshot, after)
    ensures Relocating(after, plan, firstSide)
  {
    RowsStayOutside(m.preserved, snapshot, after.preserved, plan);
    RowsStayOutside(m.retirable, snapshot, after.retirable, plan);
  }

  lemma RowsStayOutside(rows: map<int, Row>, snapshot: Snapshot, after: map<int, Row>, plan: seq<Quote>)
    requires OutsidePlan(rows, plan) && RowsReconciled(rows, snapshot, after)
    ensures OutsidePlan(after, plan)
  {
    forall i | 0 <= i < |plan| ensures PairsWithRows(plan[i], after) {
      assert PairsWithRows(plan[i], rows);
    }
  }

  // ---- Call after call, with a snapshot between ----

  datatype Round = Round(replies: Replies, progress: Progress, done: set<nat>, mid: Maker, snapshot: Snapshot)

  ghost predicate RoundOf(m: Maker, plan: seq<Quote>, firstSide: Side, round: Round, next: Maker) {
    Advances(m, plan, firstSide, round.replies, round.progress, round.done, round.mid) && Reconciled(round.mid, round.snapshot, next)
  }

  ghost predicate RoundAt(trace: seq<Maker>, rounds: seq<Round>, plan: seq<Quote>, firstSide: Side, i: nat)
    requires |trace| == |rounds| + 1 && i < |rounds|
  {
    RoundOf(trace[i], plan, firstSide, rounds[i], trace[i + 1])
  }

  ghost predicate Rounds(trace: seq<Maker>, rounds: seq<Round>, plan: seq<Quote>, firstSide: Side) {
    |trace| == |rounds| + 1 && forall i: nat :: i < |rounds| ==> RoundAt(trace, rounds, plan, firstSide, i)
  }

  lemma RoundKeeps(m: Maker, plan: seq<Quote>, firstSide: Side, round: Round, next: Maker)
    requires GoodPlan(plan) && Relocating(m, plan, firstSide) && RoundOf(m, plan, firstSide, round, next)
    ensures Relocating(next, plan, firstSide)
  {
    AdvanceKeeps(m, plan, firstSide, round.replies, round.progress, round.done, round.mid);
    ReconcileKeeps(round.mid, plan, firstSide, round.snapshot, next);
  }

  lemma RoundKeepsAt(trace: seq<Maker>, rounds: seq<Round>, plan: seq<Quote>, firstSide: Side, i: nat)
    requires GoodPlan(plan) && |trace| == |rounds| + 1 && i < |rounds| && RoundAt(trace, rounds, plan, firstSide, i)
    requires Relocating(trace[i], plan, firstSide)
    ensures Relocating(trace[i + 1], plan, firstSide)
  {
    RoundKeeps(trace[i], plan, firstSide, rounds[i], trace[i + 1]);
  }

  /** However the exchange answers and whatever fills or closes, the first side is never blocked. */
  lemma {:induction false} FirstSideNeverBlocked(trace: seq<Maker>, rounds: seq<Round>, plan: seq<Quote>, firstSide: Side, i: nat)
    requires GoodPlan(plan) && Rounds(trace, rounds, plan, firstSide) && Relocating(trace[0], plan, firstSide) && i < |trace|
    ensures Relocating(trace[i], plan, firstSide)
  {
    if i > 0 {
      FirstSideNeverBlocked(trace, rounds, plan, firstSide, i - 1);
      RoundKeepsAt(trace, rounds, plan, firstSide, i - 1);
    }
  }

  // ---- A side stands after it was staged ----

  /** Every placement is accepted. */
  predicate Accepting(replies: Replies, plan: seq<Quote>) {
    forall k :: 0 <= k < |plan| ==> SlotOf(plan[k]) in replies && replies[SlotOf(plan[k])].Placed?
  }

  lemma EntrySuffices(desired: Quote, id: int, active: map<Slot, Managed>)
    requires desired.qty >= 1 && SlotOf(desired) in active && active[SlotOf(desired)] == Entry(desired, id)
    ensures IsQuoteSufficient(active, desired)
  {
  }

  lemma NotTaken(m: Maker, plan: seq<Quote>, side: Side, replies: Replies, k: nat)
    requires DistinctSlots(plan) && k < |plan| && !Taken(m, plan, side, replies, k)
    ensures !TakenAt(m, plan, side, replies, SlotOf(plan[k]))
  {
    forall j: nat | Taken(m, plan, side, replies, j)
      ensures SlotOf(plan[j]) != SlotOf(plan[k])
    {
      assert j != k;
    }
  }

  lemma SideStands(m: Maker, plan: seq<Quote>, side: Side, replies: Replies, done: set<nat>, after: Maker)
    requires GoodPlan(plan) && Staged(m, plan, side, replies, done, after) && Accepting(replies, plan)
    requires forall k :: 0 <= k < |plan| && plan[k].side == side ==> CanAdd(plan[k], m)
    ensures SideMatchesPlan(after.active, plan, side)
  {
    StagedFills(m, plan, side, replies, done, after);
    forall k: nat | k < |plan| && plan[k].side == side ensures IsQuoteSufficient(after.active, plan[k]) {
      if IsQuoteSufficient(m.active, plan[k]) {
        NotTaken(m, plan, side, replies, k);
      } else {
        assert Taken(m, plan, side, replies, k);
        EntrySuffices(plan[k], replies[SlotOf(plan[k])].id, after.active);
      }
    }
  }

  lemma OtherSideStands(m: Maker, plan: seq<Quote>, side: Side, replies: Replies, done: set<nat>, after: Maker)
    requires GoodPlan(plan) && Staged(m, plan, side, replies, done, after) && SideMatchesPlan(m.active, plan, Opposite(side))
    ensures SideMatchesPlan(after.active, plan, Opposite(side))
  {
    StagedFills(m, plan, side, replies, done, after);
    forall k: nat | k < |plan| && plan[k].side == Opposite(side) ensures IsQuoteSufficient(after.active, plan[k]) {
      NotTaken(m, plan, side, replies, k);
    }
  }

  // ---- When the second side is blocked ----

  predicate ClearOf(quote: Quote, row: Row) {
    CanPair(quote.side, quote.price, row.order.side, row.order.price)
  }

  /** A row of the first side at a level the plan does not have: it is never replaced. */
  predicate Stale(active: map<Slot, Managed>, plan: seq<Quote>, firstSide: Side, s: Slot) {
    s in active && s.side == firstSide && !PlanHasSlot(plan, s)
  }

  predicate ReachesNone(row: Row, plan: seq<Quote>, firstSide: Side) {
    forall k :: 0 <= k < |plan| && plan[k].side != firstSide ==> ClearOf(plan[k], row)
  }

  /** No stale row reaches a quote of the second side. */
  predicate StaleClear(active: map<Slot, Managed>, plan: seq<Quote>, firstSide: Side) {
    forall s {:trigger Stale(active, plan, firstSide, s)} :: s in active && Stale(active, plan, firstSide, s) ==> ReachesNone(active[s].row, plan, firstSide)
  }

  /**
   * Once the first side stands and nothing on it waits for its cancellation,
   * no quote of the second side is blocked if and only if no stale row of the
   * first reaches one.
   */
  lemma SecondSideOpenIff(m: Maker, plan: seq<Quote>, firstSide: Side)
    requires GoodPlan(plan) && Relocating(m, plan, firstSide)
    requires SideMatchesPlan(m.active, plan, firstSide) && !HasLiveSide(m.retiring, firstSide)
    ensures (forall k :: 0 <= k < |plan| && plan[k].side != firstSide ==> CanAdd(plan[k], m)) <==> StaleClear(m.active, plan, firstSide)
  {
    if StaleClear(m.active, plan, firstSide) {
      forall k: nat | k < |plan| && plan[k].side != firstSide ensures CanAdd(plan[k], m) {
        SecondSideOpen(m, plan, firstSide, k);
      }
    } else {
      var s :| s in m.active && Stale(m.active, plan, firstSide, s) && !ReachesNone(m.active[s].row, plan, firstSide);
      var k :| 0 <= k < |plan| && plan[k].side != firstSide && !ClearOf(plan[k], m.active[s].row);
      assert !CanAdd(plan[k], m);
    }
  }

  lemma SecondSideOpen(m: Maker, plan: seq<Quote>, firstSide: Side, k: nat)
    requires GoodPlan(plan) && Relocating(m, plan, firstSide) && StaleClear(m.active, plan, firstSide)
    requires SideMatchesPlan(m.active, plan, firstSide) && !HasLiveSide(m.retiring, firstSide)
    requires k < |plan| && plan[k].side != firstSide
    ensures CanAdd(plan[k], m)
  {
    var q := plan[k];
    forall s | s in m.active
      ensures CanPair(q.side, q.price, m.active[s].row.order.side, m.active[s].row.order.price)
    {
      if s.side == firstSide {
        if PlanHasSlot(plan, s) {
          var i :| 0 <= i < |plan| && SlotOf(plan[i]) == s;
          assert IsQuoteSufficient(m.active, plan[i]);
          assert CanPair(q.side, q.price, plan[i].side, plan[i].price);
        } else {
          assert Stale(m.active, plan, firstSide, s);
          assert ClearOf(q, m.active[s].row);
        }
      }
    }
  }

  lemma StaleStays(m: Maker, plan: seq<Quote>, side: Side, replies: Replies, done: set<nat>, after: Maker, s: Slot)
    requires GoodPlan(plan) && Staged(m, plan, side, replies, done, after) && !PlanHasSlot(plan, s)
    ensures (s in after.active <==> s in m.active) && (s in m.active ==> after.active[s] == m.active[s])
  {
    StagedFills(m, plan, side, replies, done, after);
    assert !TakenAt(m, plan, side, replies, s);
  }

  lemma AdvanceKeepsStale(m: Maker, plan: seq<Quote>, firstSide: Side, replies: Replies, progress: Progress, done: set<nat>, after: Maker)
    requires GoodPlan(plan) && Advances(m, plan, firstSide, replies, progress, done, after) && StaleClear(m.active, plan, firstSide)
    ensures StaleClear(after.active, plan, firstSide)
  {
    if progress.StagingFirstSide? || progress.StagingSecondSide? {
      var side := if progress.StagingFirstSide? then firstSide else Opposite(firstSide);
      forall s | !PlanHasSlot(plan, s)
        ensures (s in after.active <==> s in m.active) && (s in m.active ==> after.active[s] == m.active[s])
      {
        StaleStays(m, plan, side, replies, done, after, s);
      }
      forall s | Stale(after.active, plan, firstSide, s) ensures ReachesNone(after.active[s].row, plan, firstSide) {
        assert Stale(m.active, plan, firstSide, s);
      }
    }
  }

  // ---- Undisturbed rounds ----

  /** The snapshot shows every active row as it is: nothing was filled or closed but what was replaced. */
  predicate Undisturbed(active: map<Slot, Managed>, snapshot: Snapshot) {
    forall s :: s in active ==> Kept(active[s].row.order.id, snapshot) && Seen(active[s].row, snapshot) == active[s].row
  }

  lemma UndisturbedKeeps(m: Maker, snapshot: Snapshot, after: Maker)
    requires Undisturbed(m.active, snapshot) && Reconciled(m, snapshot, after)
    ensures after.active == m.active
    ensures forall side :: HasLiveSide(after.retiring, side) ==> HasLiveSide(m.retiring, side)
  {
    forall s | s in m.active ensures s in after.active && after.active[s] == m.active[s] {
      assert m.active[s].(row := m.active[s].row) == m.active[s];
    }
    assert after.active.Keys == m.active.Keys;
    forall side | HasLiveSide(after.retiring, side) ensures HasLiveSide(m.retiring, side) {
      var id :| id in after.retiring && after.retiring[id].order.side == side;
      assert id in m.retiring && m.retiring[id].order.side == side;
    }
  }

  ghost predicate Calm(m: Maker, plan: seq<Quote>, firstSide: Side, round: Round, next: Maker) {
    RoundOf(m, plan, firstSide, round, next) && Accepting(round.replies, plan) && Undisturbed(round.mid.active, round.snapshot)
  }

  lemma CalmFirst(m: Maker, plan: seq<Quote>, firstSide: Side, round: Round, next: Maker)
    requires GoodPlan(plan) && Relocating(m, plan, firstSide) && Calm(m, plan, firstSide, round, next)
    ensures SideMatchesPlan(next.active, plan, firstSide)
  {
    UndisturbedKeeps(round.mid, round.snapshot, next);
    if round.progress.StagingFirstSide? {
      SideStands(m, plan, firstSide, round.replies, round.done, round.mid);
    } else if round.progress.StagingSecondSide? {
      assert Opposite(Opposite(firstSide)) == firstSide;
      OtherSideStands(m, plan, Opposite(firstSide), round.replies, round.done, round.mid);
    }
  }

  lemma CalmRetired(m: Maker, plan: seq<Quote>, firstSide: Side, round: Round, next: Maker)
    requires GoodPlan(plan) && Relocating(m, plan, firstSide) && Calm(m, plan, firstSide, round, next)
    requires SideMatchesPlan(m.active, plan, firstSide) && !HasLiveSide(m.retiring, firstSide)
    ensures !HasLiveSide(next.retiring, firstSide)
  {
    UndisturbedKeeps(round.mid, round.snapshot, next);
    if round.progress.StagingSecondSide? {
      StagedRetires(m, plan, Opposite(firstSide), round.replies, round.done, round.mid);
      forall id | id in round.mid.retiring ensures round.mid.retiring[id].order.side != firstSide {
        if !(id in m.retiring && round.mid.retiring[id] == m.retiring[id]) {
          var s :| s in m.active && s.side == Opposite(firstSide) && m.active[s].row == round.mid.retiring[id];
        }
      }
    }
  }

  lemma CalmSecond(m: Maker, plan: seq<Quote>, firstSide: Side, round: Round, next: Maker)
    requires GoodPlan(plan) && Relocating(m, plan, firstSide) && Calm(m, plan, firstSide, round, next)
    requires SideMatchesPlan(m.active, plan, firstSide) && !HasLiveSide(m.retiring, firstSide) && StaleClear(m.active, plan, firstSide)
    ensures round.progress.Complete? || SideMatchesPlan(next.active, plan, Opposite(firstSide))
  {
    UndisturbedKeeps(round.mid, round.snapshot, next);
    if round.progress.StagingSecondSide? {
      SecondSideOpenIff(m, plan, firstSide);
      SideStands(m, plan, Opposite(firstSide), round.replies, round.done, round.mid);
    }
  }

  ghost predicate CalmAt(trace: seq<Maker>, rounds: seq<Round>, plan: seq<Quote>, firstSide: Side, i: nat)
    requires |trace| == |rounds| + 1 && i < |rounds|
  {
    Calm(trace[i], plan, firstSide, rounds[i], trace[i + 1])
  }

  ghost predicate AllCalm(trace: seq<Maker>, rounds: seq<Round>, plan: seq<Quote>, firstSide: Side) {
    |trace| == |rounds| + 1 && forall i: nat :: i < |rounds| ==> CalmAt(trace, rounds, plan, firstSide, i)
  }

  lemma CalmKeepsStale(m: Maker, plan: seq<Quote>, firstSide: Side, round: Round, next: Maker)
    requires GoodPlan(plan) && Calm(m, plan, firstSide, round, next) && StaleClear(m.active, plan, firstSide)
    ensures StaleClear(next.active, plan, firstSide)
  {
    AdvanceKeepsStale(m, plan, firstSide, round.replies, round.progress, round.done, round.mid);
    UndisturbedKeeps(round.mid, round.snapshot, next);
  }

  /** Nothing blocks the first side, and no stale row is in the second side's way. */
  predicate Unblocked(m: Maker, plan: seq<Quote>, firstSide: Side) {
    Relocating(m, plan, firstSide) && StaleClear(m.active, plan, firstSide)
  }

  /** Once the first side stands with nothing left to retire, this call or the next completes. */
  lemma CompletesSoon(m: Maker, round: Round, next: Maker, after: Round, last: Maker, plan: seq<Quote>, firstSide: Side)
    requires GoodPlan(plan) && Relocating(m, plan, firstSide) && StaleClear(m.active, plan, firstSide)
    requires Calm(m, plan, firstSide, round, next) && RoundOf(next, plan, firstSide, after, last)
    requires SideMatchesPlan(m.active, plan, firstSide) && !HasLiveSide(m.retiring, firstSide)
    ensures round.progress.Complete? || after.progress.Complete?
  {
    CalmFirst(m, plan, firstSide, round, next);
    CalmRetired(m, plan, firstSide, round, next);
    CalmSecond(m, plan, firstSide, round, next);
  }

  lemma CompletesSoonAt(trace: seq<Maker>, rounds: seq<Round>, plan: seq<Quote>, firstSide: Side, i: nat)
    requires GoodPlan(plan) && |trace| == |rounds| + 1 && i + 1 < |rounds|
    requires CalmAt(trace, rounds, plan, firstSide, i) && CalmAt(trace, rounds, plan, firstSide, i + 1)
    requires Unblocked(trace[i], plan, firstSide) && SideMatchesPlan(trace[i].active, plan, firstSide)
    requires !HasLiveSide(trace[i].retiring, firstSide)
    ensures rounds[i].progress.Complete? || rounds[i + 1].progress.Complete?
  {
    CompletesSoon(trace[i], rounds[i], trace[i + 1], rounds[i + 1], trace[i + 2], plan, firstSide);
  }

  lemma UnblockedNext(trace: seq<Maker>, rounds: seq<Round>, plan: seq<Quote>, firstSide: Side, i: nat)
    requires GoodPlan(plan) && |trace| == |rounds| + 1 && i < |rounds| && CalmAt(trace, rounds, plan, firstSide, i)
    requires Unblocked(trace[i], plan, firstSide)
    ensures Unblocked(trace[i + 1], plan, firstSide) && SideMatchesPlan(trace[i + 1].active, plan, firstSide)
  {
    RoundKeeps(trace[i], plan, firstSide, rounds[i], trace[i + 1]);
    CalmKeepsStale(trace[i], plan, firstSide, rounds[i], trace[i + 1]);
    CalmFirst(trace[i], plan, firstSide, rounds[i], trace[i + 1]);
  }

  lemma {:induction false} StaysUnblocked(trace: seq<Maker>, rounds: seq<Round>, plan: seq<Quote>, firstSide: Side, i: nat)
    requires GoodPlan(plan) && AllCalm(trace, rounds, plan, firstSide) && i < |trace| && Unblocked(trace[0], plan, firstSide)
    ensures Unblocked(trace[i], plan, firstSide) && (i > 0 ==> SideMatchesPlan(trace[i].active, plan, firstSide))
  {
    if i > 0 {
      StaysUnblocked(trace, rounds, plan, firstSide, i - 1);
      UnblockedNext(trace, rounds, plan, firstSide, i - 1);
    }
  }

  /**
   * In undisturbed rounds with every placement accepted, the relocation is
   * complete at the latest two calls after the first side's old rows are
   * reported closed, if no stale row stands in the way.
   */
  lemma RelocationCompletes(trace: seq<Maker>, rounds: seq<Round>, plan: seq<Quote>, firstSide: Side, i: nat)
    requires GoodPlan(plan) && AllCalm(trace, rounds, plan, firstSide)
    requires Unblocked(trace[0], plan, firstSide)
    requires 1 <= i && i + 1 < |rounds| && !HasLiveSide(trace[i].retiring, firstSide)
    ensures rounds[i].progress.Complete? || rounds[i + 1].progress.Complete?
  {
    StaysUnblocked(trace, rounds, plan, firstSide, i);
    CompletesSoonAt(trace, rounds, plan, firstSide, i);
  }

  // ---- A stale row in the way stalls it for good ----

  /** The quote cannot be added beside the stale row, and its slot does not hold its price. */
  predicate Stuck(active: map<Slot, Managed>, plan: seq<Quote>, firstSide: Side, s: Slot, k: nat) {
    && Stale(active, plan, firstSide, s)
    && k < |plan| && plan[k].side != firstSide && !ClearOf(plan[k], active[s].row)
    && (SlotOf(plan[k]) in active ==> active[SlotOf(plan[k])].row.order.price != plan[k].price)
  }

  lemma StaysStuck(m: Maker, plan: seq<Quote>, firstSide: Side, side: Side, replies: Replies, done: set<nat>, after: Maker, s: Slot, k: nat)
    requires GoodPlan(plan) && Staged(m, plan, side, replies, done, after) && Stuck(m.active, plan, firstSide, s, k)
    ensures Stuck(after.active, plan, firstSide, s, k)
  {
    StagedFills(m, plan, side, replies, done, after);
    StaleStays(m, plan, side, replies, done, after, s);
    assert !CanAdd(plan[k], m);
    NotTaken(m, plan, side, replies, k);
  }

  lemma StuckRound(m: Maker, plan: seq<Quote>, firstSide: Side, round: Round, next: Maker, s: Slot, k: nat)
    requires GoodPlan(plan) && Calm(m, plan, firstSide, round, next) && Stuck(m.active, plan, firstSide, s, k)
    ensures Stuck(next.active, plan, firstSide, s, k) && !round.progress.Complete?
  {
    assert !IsQuoteSufficient(m.active, plan[k]);
    UndisturbedKeeps(round.mid, round.snapshot, next);
    if round.progress.StagingFirstSide? {
      StaysStuck(m, plan, firstSide, firstSide, round.replies, round.done, round.mid, s, k);
    } else if round.progress.StagingSecondSide? {
      StaysStuck(m, plan, firstSide, Opposite(firstSide), round.replies, round.done, round.mid, s, k);
    }
  }

  lemma StuckRoundAt(trace: seq<Maker>, rounds: seq<Round>, plan: seq<Quote>, firstSide: Side, s: Slot, k: nat, i: nat)
    requires GoodPlan(plan) && |trace| == |rounds| + 1 && i < |rounds| && CalmAt(trace, rounds, plan, firstSide, i)
    requires Stuck(trace[i].active, plan, firstSide, s, k)
    ensures Stuck(trace[i + 1].active, plan, firstSide, s, k) && !rounds[i].progress.Complete?
  {
    StuckRound(trace[i], plan, firstSide, rounds[i], trace[i + 1], s, k);
  }

  /** In undisturbed rounds such a row stalls the relocation for good. */
  lemma {:induction false} StuckNeverCompletes(trace: seq<Maker>, rounds: seq<Round>, plan: seq<Quote>, firstSide: Side, s: Slot, k: nat, i: nat)
    requires GoodPlan(plan) && AllCalm(trace, rounds, plan, firstSide) && Stuck(trace[0].active, plan, firstSide, s, k) && i < |rounds|
    ensures Stuck(trace[i].active, plan, firstSide, s, k) && !rounds[i].progress.Complete?
  {
    if i > 0 {
      StuckNeverCompletes(trace, rounds, plan, firstSide, s, k, i - 1);
      StuckRoundAt(trace, rounds, plan, firstSide, s, k, i - 1);
    }
    StuckRoundAt(trace, rounds, plan, firstSide, s, k, i);
  }

  // ---- Exactly when it completes ----

  /** No slot holds the price the plan wants there. */
  predicate NoneStands(active: map<Slot, Managed>, plan: seq<Quote>) {
    forall k :: 0 <= k < |plan| && SlotOf(plan[k]) in active ==> active[SlotOf(plan[k])].row.order.price != plan[k].price
  }

  lemma StaleRow(active: map<Slot, Managed>, plan: seq<Quote>, firstSide: Side) returns (s: Slot, k: nat)
    requires !StaleClear(active, plan, firstSide)
    ensures Stale(active, plan, firstSide, s) && k < |plan| && plan[k].side != firstSide && !ClearOf(plan[k], active[s].row)
  {
    s :| s in active && Stale(active, plan, firstSide, s) && !ReachesNone(active[s].row, plan, firstSide);
    k :| 0 <= k < |plan| && plan[k].side != firstSide && !ClearOf(plan[k], active[s].row);
  }

  lemma StaleStalls(trace: seq<Maker>, rounds: seq<Round>, plan: seq<Quote>, firstSide: Side, i: nat)
    requires GoodPlan(plan) && AllCalm(trace, rounds, plan, firstSide) && i < |rounds|
    requires NoneStands(trace[0].active, plan) && !StaleClear(trace[0].active, plan, firstSide)
    ensures !rounds[i].progress.Complete?
  {
    var s, k := StaleRow(trace[0].active, plan, firstSide);
    StuckNeverCompletes(trace, rounds, plan, firstSide, s, k, i);
  }

  /**
   * In undisturbed rounds with every placement accepted, once the first side's
   * old rows are reported closed: the relocation completes if and only if no
   * row at a level the plan lacks reaches the plan's second side.
   */
  lemma RelocationCompletesIff(trace: seq<Maker>, rounds: seq<Round>, plan: seq<Quote>, firstSide: Side, i: nat)
    requires GoodPlan(plan) && AllCalm(trace, rounds, plan, firstSide)
    requires Relocating(trace[0], plan, firstSide) && NoneStands(trace[0].active, plan)
    requires 1 <= i && i + 1 < |rounds| && !HasLiveSide(trace[i].retiring, firstSide)
    ensures rounds[i].progress.Complete? || rounds[i + 1].progress.Complete? <==> StaleClear(trace[0].active, plan, firstSide)
  {
    if StaleClear(trace[0].active, plan, firstSide) {
      RelocationCompletes(trace, rounds, plan, firstSide, i);
    } else {
      StaleStalls(trace, rounds, plan, firstSide, i);
      StaleStalls(trace, rounds, plan, firstSide, i + 1);
    }
  }

  // ---- From a ladder that stands at its center ----

  /** Every active row is on the ladder around the center. */
  predicate StandsAt(active: map<Slot, Managed>, center: int, tick: int, levels: nat) {
    forall s :: s in active ==>
      0 <= s.level < levels && active[s].row.order.side == s.side && active[s].row.order.price == LevelPrice(center, tick, s.side, s.level)
  }

  /** No level of the ladder is missing. */
  predicate StandsWhole(active: map<Slot, Managed>, center: int, tick: int, levels: nat) {
    && StandsAt(active, center, tick, levels)
    && (forall level: nat :: level < levels ==> Slot(Sell, level) in active)
    && (forall level: nat :: level < levels && LevelPrice(center, tick, Buy, level) >= tick ==> Slot(Buy, level) in active)
  }

  /** The start of a relocation: nothing waits to be retired, and inherited rows lie outside the target's ladder. */
  predicate Begins(m: Maker, plan: seq<Quote>, center: int, target: int, firstSide: Side, tick: int, quantities: seq<int>) {
    && tick > 0 && Aligned(center, tick) && AlignToTick(center, tick) == center
    && BeginStagedQuoteMigration(center, target, tick) == Some(StagedQuoteMigration(target, firstSide))
    && IsLadder(plan, target, tick, quantities) && (forall l :: 0 <= l < |quantities| ==> quantities[l] >= 1)
    && StandsAt(m.active, center, tick, |quantities|) && m.retiring == map[] && m.retirable == map[] && OutsidePlan(m.preserved, plan)
  }

  predicate GuardedBy(rows: map<int, Row>, guards: seq<Guard>) {
    forall id :: id in rows ==> Guard(rows[id].order.side, rows[id].order.price) in guards
  }

  /** A target center that is clear of the inherited rows leaves them outside its ladder. */
  lemma GuardedTargetIsOutside(rows: map<int, Row>, guards: seq<Guard>, plan: seq<Quote>, target: int, tick: int, quantities: seq<int>)
    requires tick > 0 && IsLadder(plan, target, tick, quantities) && GuardedBy(rows, guards)
    requires CanUseCenter(target, guards, tick, |quantities|)
    ensures OutsidePlan(rows, plan)
  {
    forall k, id | 0 <= k < |plan| && id in rows
      ensures CanPair(plan[k].side, plan[k].price, rows[id].order.side, rows[id].order.price)
    {
      assert IsRung(plan[k], target, tick, quantities);
      var i :| 0 <= i < |guards| && guards[i] == Guard(rows[id].order.side, rows[id].order.price);
      assert RungsClear(target, guards[i], tick, plan[k].level);
    }
  }

  lemma TargetIs(m: Maker, plan: seq<Quote>, center: int, target: int, firstSide: Side, tick: int, quantities: seq<int>)
    requires Begins(m, plan, center, target, firstSide, tick, quantities)
    ensures Aligned(target, tick) && target != center && firstSide == if target > center then Sell else Buy
    ensures GoodPlan(plan)
  {
    AlignedIsNearest(target, tick);
    LadderUncrossed(plan, target, tick, quantities);
    forall k | 0 <= k < |plan| ensures plan[k].qty >= 1 {
      assert IsRung(plan[k], target, tick, quantities);
    }
  }

  lemma BeginsRelocating(m: Maker, plan: seq<Quote>, center: int, target: int, firstSide: Side, tick: int, quantities: seq<int>)
    requires Begins(m, plan, center, target, firstSide, tick, quantities)
    ensures Relocating(m, plan, firstSide)
  {
    TargetIs(m, plan, center, target, firstSide, tick, quantities);
    forall k: nat, s | k < |plan| && plan[k].side == firstSide && s in m.active
      ensures CanPair(plan[k].side, plan[k].price, m.active[s].row.order.side, m.active[s].row.order.price)
    {
      assert IsRung(plan[k], target, tick, quantities);
      RungSides(target, tick, plan[k].level);
      RungSides(center, tick, s.level);
    }
  }

  lemma BeginsElsewhere(m: Maker, plan: seq<Quote>, center: int, target: int, firstSide: Side, tick: int, quantities: seq<int>)
    requires Begins(m, plan, center, target, firstSide, tick, quantities)
    ensures NoneStands(m.active, plan)
  {
    TargetIs(m, plan, center, target, firstSide, tick, quantities);
    forall k | 0 <= k < |plan| && SlotOf(plan[k]) in m.active
      ensures m.active[SlotOf(plan[k])].row.order.price != plan[k].price
    {
      assert IsRung(plan[k], target, tick, quantities);
    }
  }

  // ---- The moves that stall ----

  /** A move up, a move to a center with every bid level, or one down to no less than half. */
  predicate MoveIsClear(center: int, target: int, tick: int, levels: nat, firstSide: Side) {
    firstSide == Sell || target > levels * tick || center <= 2 * target
  }

  lemma GridApart(x: int, y: int, tick: int)
    requires tick > 0 && OnGrid(x, tick) && OnGrid(y, tick) && x > y
    ensures x >= y + tick
  {
    var a, b := x / tick, y / tick;
    assert x == a * tick && y == b * tick;
    if a <= b {
      Arithmetic.MulMono(a, b, tick);
    } else {
      Arithmetic.MulMono(b + 1, a, tick);
      assert (b + 1) * tick == b * tick + tick;
    }
  }

  lemma LevelOnGrid(center: int, tick: int, level: nat)
    requires tick > 0 && OnGrid(center, tick)
    ensures OnGrid(LevelPrice(center, tick, Buy, level), tick) && OnGrid((level + 1) * tick, tick)
  {
    GridShift(center, -(level + 1), tick);
    MultipleOnGrid(level + 1, tick);
    assert center + -(level + 1) * tick == center - (level + 1) * tick;
  }

  /** A bid level that stands at the center but is not on the target's ladder. */
  lemma StaleBid(plan: seq<Quote>, target: int, tick: int, quantities: seq<int>, level: nat)
    requires tick > 0 && Aligned(target, tick) && IsLadder(plan, target, tick, quantities) && level < |quantities|
    ensures PlanHasSlot(plan, Slot(Buy, level)) <==> target > (level + 1) * tick
    ensures PlanHasSlot(plan, Slot(Sell, level))
  {
    LevelOnGrid(target, tick, level);
    assert HasSlot(plan, Sell, level);
    var j :| 0 <= j < |plan| && plan[j].side == Sell && plan[j].level == level;
    assert SlotOf(plan[j]) == Slot(Sell, level);
    if target > (level + 1) * tick {
      GridApart(target, (level + 1) * tick, tick);
      assert HasSlot(plan, Buy, level);
      var i :| 0 <= i < |plan| && plan[i].side == Buy && plan[i].level == level;
      assert SlotOf(plan[i]) == Slot(Buy, level);
    } else {
      forall i | 0 <= i < |plan| ensures SlotOf(plan[i]) != Slot(Buy, level) {
        assert IsRung(plan[i], target, tick, quantities);
      }
    }
  }

  /** A bid level below one tick at the target lies, at the center, at or below the target. */
  lemma StaleBidIsLow(center: int, target: int, tick: int, level: nat, levels: nat)
    requires tick > 0 && level < levels && target <= (level + 1) * tick && MoveIsClear(center, target, tick, levels, Buy)
    ensures LevelPrice(center, tick, Buy, level) <= target
  {
    Arithmetic.MulMono(level + 1, levels, tick);
  }

  lemma StaleIsLow(active: map<Slot, Managed>, plan: seq<Quote>, center: int, target: int, tick: int, quantities: seq<int>, firstSide: Side, s: Slot)
    requires tick > 0 && Aligned(target, tick) && IsLadder(plan, target, tick, quantities) && StandsAt(active, center, tick, |quantities|)
    requires MoveIsClear(center, target, tick, |quantities|, firstSide) && Stale(active, plan, firstSide, s)
    ensures firstSide == Buy && active[s].row.order.side == Buy && active[s].row.order.price <= target
  {
    StaleBid(plan, target, tick, quantities, s.level);
    assert s == Slot(s.side, s.level);
    StaleBidIsLow(center, target, tick, s.level, |quantities|);
  }

  lemma ClearMove(m: Maker, plan: seq<Quote>, center: int, target: int, firstSide: Side, tick: int, quantities: seq<int>)
    requires Begins(m, plan, center, target, firstSide, tick, quantities) && MoveIsClear(center, target, tick, |quantities|, firstSide)
    ensures StaleClear(m.active, plan, firstSide)
  {
    TargetIs(m, plan, center, target, firstSide, tick, quantities);
    forall s | Stale(m.active, plan, firstSide, s)
      ensures ReachesNone(m.active[s].row, plan, firstSide)
    {
      StaleIsLow(m.active, plan, center, target, tick, quantities, firstSide, s);
      forall k | 0 <= k < |plan| && plan[k].side != firstSide ensures ClearOf(plan[k], m.active[s].row) {
        assert IsRung(plan[k], target, tick, quantities);
        RungSides(target, tick, plan[k].level);
      }
    }
  }

  lemma StallingMove(m: Maker, plan: seq<Quote>, center: int, target: int, firstSide: Side, tick: int, quantities: seq<int>)
    requires Begins(m, plan, center, target, firstSide, tick, quantities) && !MoveIsClear(center, target, tick, |quantities|, firstSide)
    requires StandsWhole(m.active, center, tick, |quantities|)
    ensures !StaleClear(m.active, plan, firstSide)
  {
    TargetIs(m, plan, center, target, firstSide, tick, quantities);
    var level := target / tick - 1;
    assert target == (level + 1) * tick;
    assert (|quantities| + 1) * tick == |quantities| * tick + tick;
    Arithmetic.MulOrder(level + 1, |quantities| + 1, tick);
    LevelOnGrid(center, tick, level);
    GridApart(LevelPrice(center, tick, Buy, level), target, tick);
    StaleBid(plan, target, tick, quantities, level);
    assert HasSlot(plan, Sell, 0);
    var k :| 0 <= k < |plan| && plan[k].side == Sell && plan[k].level == 0;
    assert IsRung(plan[k], target, tick, quantities);
    assert Stale(m.active, plan, firstSide, Slot(Buy, level)) && !ClearOf(plan[k], m.active[Slot(Buy, level)].row);
  }

  lemma StallsIff(m: Maker, plan: seq<Quote>, center: int, target: int, firstSide: Side, tick: int, quantities: seq<int>)
    requires Begins(m, plan, center, target, firstSide, tick, quantities) && StandsWhole(m.active, center, tick, |quantities|)
    ensures StaleClear(m.active, plan, firstSide) <==> MoveIsClear(center, target, tick, |quantities|, firstSide)
    ensures GoodPlan(plan) && Relocating(m, plan, firstSide) && NoneStands(m.active, plan)
  {
    TargetIs(m, plan, center, target, firstSide, tick, quantities);
    BeginsRelocating(m, plan, center, target, firstSide, tick, quantities);
    BeginsElsewhere(m, plan, center, target, firstSide, tick, quantities);
    if MoveIsClear(center, target, tick, |quantities|, firstSide) {
      ClearMove(m, plan, center, target, firstSide, tick, quantities);
    } else {
      StallingMove(m, plan, center, target, firstSide, tick, quantities);
    }
  }

  /**
   * From a whole ladder at its center: the relocation completes exactly unless
   * it moves down, to a center of at most as many ticks as there are levels, and
   * to less than half the old one.
   */
  lemma WholeLadderRelocatesIff(trace: seq<Maker>, rounds: seq<Round>, plan: seq<Quote>, center: int, target: int, firstSide: Side,
                                tick: int, quantities: seq<int>, i: nat)
    requires AllCalm(trace, rounds, plan, firstSide) && Begins(trace[0], plan, center, target, firstSide, tick, quantities)
    requires StandsWhole(trace[0].active, center, tick, |quantities|)
    requires 1 <= i && i + 1 < |rounds| && !HasLiveSide(trace[i].retiring, firstSide)
    ensures rounds[i].progress.Complete? || rounds[i + 1].progress.Complete? <==> MoveIsClear(center, target, tick, |quantities|, firstSide)
  {
    StallsIff(trace[0], plan, center, target, firstSide, tick, quantities);
    RelocationCompletesIff(trace, rounds, plan, firstSide, i);
  }

  /** A drop from 100 to 5 at a tick of one, with twelve levels, is tried again and again and never completes. */
  lemma DropStalls(trace: seq<Maker>, rounds: seq<Round>, plan: seq<Quote>, quantities: seq<int>, i: nat)
    requires AllCalm(trace, rounds, plan, Buy) && i < |rounds|
    requires |quantities| == 12 && Begins(trace[0], plan, 100, 5, Buy, 1, quantities) && StandsWhole(trace[0].active, 100, 1, 12)
    ensures BeginStagedQuoteMigration(100, 5, 1) == Some(StagedQuoteMigration(5, Buy))
    ensures !rounds[i].progress.Complete?
  {
    StallsIff(trace[0], plan, 100, 5, Buy, 1, quantities);
    StaleStalls(trace, rounds, plan, Buy, i);
  }
}
