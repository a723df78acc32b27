/**
 * The maker's own orders and the four maps that track them: the active ladder,
 * rows whose cancellation is pending, preserved rows it must not cancel, and
 * rows to retire once a replacement stands. Requests take time: an order may
 * rest in the book before the maker hears of it, and after it asked to cancel.
 */
module MakerQuotes {
  import opened Common
  import opened Liquidity

  datatype Order = Order(id: int, side: Side, price: int)
  datatype Row = Row(order: Order, qty: int)
  datatype Slot = Slot(side: Side, level: int)
  datatype Managed = Managed(row: Row, level: int, needsNormalization: bool)

  datatype Maker = Maker(
    active: map<Slot, Managed>,
    retiring: map<int, Row>,
    preserved: map<int, Row>,
    retirable: map<int, Row>
  )

  function SlotOf(quote: Quote): Slot {
    Slot(quote.side, quote.level)
  }

  // ---- What is tracked ----

  predicate ActiveHas(active: map<Slot, Managed>, o: Order) {
    exists s :: s in active && active[s].row.order == o
  }

  predicate Holds(rows: map<int, Row>, o: Order) {
    o.id in rows && rows[o.id].order == o
  }

  predicate Tracks(m: Maker, o: Order) {
    ActiveHas(m.active, o) || Holds(m.retiring, o) || Holds(m.preserved, o) || Holds(m.retirable, o)
  }

  predicate KeyedById(rows: map<int, Row>) {
    forall id :: id in rows ==> rows[id].order.id == id
  }

  predicate Apart(rows: map<int, Row>, others: map<int, Row>) {
    forall id :: id in rows ==> id !in others
  }

  predicate KeyedBySlot(active: map<Slot, Managed>) {
    && (forall s :: s in active ==> s == Slot(active[s].row.order.side, active[s].level))
    && (forall s, t :: s in active && t in active && active[s].row.order.id == active[t].row.order.id ==> s == t)
  }

  predicate ActiveApart(active: map<Slot, Managed>, rows: map<int, Row>) {
    forall s :: s in active ==> active[s].row.order.id !in rows
  }

  /** Every id is in one place, under its own key. */
  predicate WellKeyed(m: Maker) {
    && KeyedBySlot(m.active) && KeyedById(m.retiring) && KeyedById(m.preserved) && KeyedById(m.retirable)
    && ActiveApart(m.active, m.retiring) && ActiveApart(m.active, m.preserved) && ActiveApart(m.active, m.retirable)
    && Apart(m.retiring, m.preserved) && Apart(m.retiring, m.retirable) && Apart(m.preserved, m.retirable)
  }

  // ---- When a quote is good enough, and when one may be added ----

  /** The quantity below which a level is refilled: nine tenths for the best level, 45 in a hundred elsewhere, rounded up. */
  function LowWater(desired: Quote): int {
    Max(1, if desired.level == 0 then (9 * desired.qty + 9) / 10 else (9 * desired.qty + 19) / 20)
  }

  predicate IsQuoteSufficient(active: map<Slot, Managed>, desired: Quote) {
    && SlotOf(desired) in active
    && var current := active[SlotOf(desired)];
       current.row.order.price == desired.price && !current.needsNormalization && current.row.qty >= LowWater(desired)
  }

  predicate MatchesPlan(active: map<Slot, Managed>, plan: seq<Quote>) {
    |active| == |plan| && forall i :: 0 <= i < |plan| ==> IsQuoteSufficient(active, plan[i])
  }

  predicate SideMatchesPlan(active: map<Slot, Managed>, plan: seq<Quote>, side: Side) {
    forall i :: 0 <= i < |plan| && plan[i].side == side ==> IsQuoteSufficient(active, plan[i])
  }

  predicate PairsWithRows(quote: Quote, rows: map<int, Row>) {
    forall id :: id in rows ==> CanPair(quote.side, quote.price, rows[id].order.side, rows[id].order.price)
  }

  predicate CanAdd(quote: Quote, m: Maker) {
    && (forall s :: s in m.active ==> CanPair(quote.side, quote.price, m.active[s].row.order.side, m.active[s].row.order.price))
    && PairsWithRows(quote, m.retiring) && PairsWithRows(quote, m.preserved) && PairsWithRows(quote, m.retirable)
  }

  lemma CanAddMeans(quote: Quote, m: Maker, o: Order)
    requires CanAdd(quote, m) && Tracks(m, o)
    ensures CanPair(quote.side, quote.price, o.side, o.price)
  {
  }

  /** The maker after a placement was confirmed: the new order takes the slot, the old one waits for its cancellation. */
  function Posted(m: Maker, desired: Quote, id: int): Maker {
    var slot := SlotOf(desired);
    m.(active := m.active[slot := Managed(Row(Order(id, desired.side, desired.price), desired.qty), desired.level, false)],
       retiring := if slot in m.active then m.retiring[m.active[slot].row.order.id := m.active[slot].row] else m.retiring)
  }

  lemma PostedTracks(m: Maker, desired: Quote, id: int, o: Order)
    requires WellKeyed(m)
    ensures Tracks(Posted(m, desired, id), o) <==> o == Order(id, desired.side, desired.price) || Tracks(m, o)
  {
    var slot := SlotOf(desired);
    var after := Posted(m, desired, id);
    if ActiveHas(m.active, o) {
      var s :| s in m.active && m.active[s].row.order == o;
      if s != slot {
        assert after.active[s].row.order == o;
      }
    }
    assert after.active[slot].row.order == Order(id, desired.side, desired.price);
    if Holds(m.retiring, o) && slot in m.active {
      assert m.active[slot].row.order.id !in m.retiring;
    }
  }

  predicate NewId(m: Maker, id: int) {
    && id !in m.retiring && id !in m.preserved && id !in m.retirable
    && forall s :: s in m.active ==> m.active[s].row.order.id != id
  }

  lemma PostedWellKeyed(m: Maker, desired: Quote, id: int)
    requires WellKeyed(m) && NewId(m, id)
    ensures WellKeyed(Posted(m, desired, id))
  {
  }

  /** A row to retire becomes a row being retired. */
  function Retired(m: Maker, id: int): Maker
    requires id in m.retirable
  {
    m.(retiring := m.retiring[id := m.retirable[id]], retirable := m.retirable - {id})
  }

  lemma RetiredTracks(m: Maker, id: int, o: Order)
    requires WellKeyed(m) && id in m.retirable
    ensures Tracks(Retired(m, id), o) <==> Tracks(m, o)
    ensures WellKeyed(Retired(m, id))
  {
  }

  // ---- Reconciling with the account's live orders ----

  /** The remaining quantity of each order the account reports live, and whether the list may have been cut short. */
  datatype Snapshot = Snapshot(remaining: map<int, int>, truncated: bool)

  function Seen(row: Row, snapshot: Snapshot): Row {
    if row.order.id in snapshot.remaining then row.(qty := snapshot.remaining[row.order.id]) else row
  }

  predicate Kept(id: int, snapshot: Snapshot) {
    id in snapshot.remaining || snapshot.truncated
  }

  ghost predicate RowsReconciled(before: map<int, Row>, snapshot: Snapshot, after: map<int, Row>) {
    forall id :: (id in after <==> id in before && Kept(id, snapshot)) && (id in after ==> after[id] == Seen(before[id], snapshot))
  }

  ghost predicate ActiveReconciled(before: map<Slot, Managed>, snapshot: Snapshot, after: map<Slot, Managed>) {
    forall s :: (s in after <==> s in before && Kept(before[s].row.order.id, snapshot)) &&
                (s in after ==> after[s] == before[s].(row := Seen(before[s].row, snapshot)))
  }

  ghost predicate Reconciled(before: Maker, snapshot: Snapshot, after: Maker) {
    && ActiveReconciled(before.active, snapshot, after.active)
    && RowsReconciled(before.retiring, snapshot, after.retiring)
    && RowsReconciled(before.preserved, snapshot, after.preserved)
    && RowsReconciled(before.retirable, snapshot, after.retirable)
  }

  lemma RowsReconciledHold(before: map<int, Row>, snapshot: Snapshot, after: map<int, Row>, o: Order)
    requires KeyedById(before) && RowsReconciled(before, snapshot, after)
    ensures Holds(after, o) <==> Holds(before, o) && Kept(o.id, snapshot)
    ensures KeyedById(after)
  {
  }

  lemma ActiveReconciledHas(before: map<Slot, Managed>, snapshot: Snapshot, after: map<Slot, Managed>, o: Order)
    requires ActiveReconciled(before, snapshot, after)
    ensures ActiveHas(after, o) <==> ActiveHas(before, o) && Kept(o.id, snapshot)
  {
    if ActiveHas(before, o) && Kept(o.id, snapshot) {
      var s :| s in before && before[s].row.order == o;
      assert s in after;
    }
    if ActiveHas(after, o) {
      var s :| s in after && after[s].row.order == o;
      assert s in before;
    }
  }

  /** Exactly the orders the snapshot allows to be dropped are dropped. */
  lemma ReconciledTracks(before: Maker, snapshot: Snapshot, after: Maker, o: Order)
    requires WellKeyed(before) && Reconciled(before, snapshot, after)
    ensures Tracks(after, o) <==> Tracks(before, o) && Kept(o.id, snapshot)
  {
    ActiveReconciledHas(before.active, snapshot, after.active, o);
    RowsReconciledHold(before.retiring, snapshot, after.retiring, o);
    RowsReconciledHold(before.preserved, snapshot, after.preserved, o);
    RowsReconciledHold(before.retirable, snapshot, after.retirable, o);
  }

  predicate Shows(snapshot: Snapshot, before: Row, after: Row) {
    && after.order == before.order
    && (before.order.id in snapshot.remaining ==> after.qty == snapshot.remaining[before.order.id])
    && (before.order.id !in snapshot.remaining ==> after.qty == before.qty)
  }

  /**
   * In its own words: an order stays tracked exactly when the account still
   * reports it or the report may have been cut short, and a row that stays shows
   * the reported remainder, or what it showed before if it was not reported.
   */
  lemma ReconciledByReport(before: Maker, snapshot: Snapshot, after: Maker, o: Order)
    requires WellKeyed(before) && Reconciled(before, snapshot, after)
    ensures Tracks(after, o) <==> Tracks(before, o) && (o.id in snapshot.remaining || snapshot.truncated)
    ensures forall s :: s in after.active ==>
      && s in before.active && after.active[s].row.order == before.active[s].row.order
      && Shows(snapshot, before.active[s].row, after.active[s].row)
      && after.active[s].needsNormalization == before.active[s].needsNormalization
    ensures forall id :: id in after.preserved ==> id in before.preserved && Shows(snapshot, before.preserved[id], after.preserved[id])
    ensures forall id :: id in after.retiring ==> id in before.retiring && Shows(snapshot, before.retiring[id], after.retiring[id])
    ensures forall id :: id in after.retirable ==> id in before.retirable && Shows(snapshot, before.retirable[id], after.retirable[id])
  {
    ReconciledTracks(before, snapshot, after, o);
  }

  lemma ReconciledWellKeyed(before: Maker, snapshot: Snapshot, after: Maker)
    requires WellKeyed(before) && Reconciled(before, snapshot, after)
    ensures WellKeyed(after)
  {
    assert KeyedBySlot(after.active);
  }

  // ---- Re-keying the active ladder for a plan ----

  predicate ActiveHasRow(active: map<Slot, Managed>, row: Row) {
    exists s :: s in active && active[s].row == row
  }

  predicate DistinctIds(rows: seq<Row>) {
    forall i, j :: 0 <= i < j < |rows| ==> rows[i].order.id != rows[j].order.id
  }

  /** Every row is either kept under some slot or superseded: none is lost, changed or in both. */
  ghost predicate Splits(before: map<Slot, Managed>, after: map<Slot, Managed>, superseded: seq<Row>) {
    && KeyedBySlot(after) && DistinctIds(superseded)
    && (forall row :: ActiveHasRow(before, row) <==> ActiveHasRow(after, row) || row in superseded)
    && (forall row :: row in superseded ==> !ActiveHasRow(after, row))
  }

  /** Reused quantity may exceed the plan by a quarter, or not at all on a side with preserved depth. */
  function Excessive(current: Managed, desired: Quote, strictSides: set<Side>): bool {
    || (current.needsNormalization && current.row.qty > desired.qty)
    || current.row.qty > if desired.side in strictSides then desired.qty else desired.qty * 5 / 4
  }

  /** A kept row stands where the plan wants its price, marked when it is too large for it. */
  predicate Reuses(before: map<Slot, Managed>, after: map<Slot, Managed>, desired: Quote, strictSides: set<Side>) {
    var slot := SlotOf(desired);
    slot in after ==>
      && after[slot].row.order.price == desired.price
      && exists s :: s in before && before[s].row == after[slot].row && after[slot].needsNormalization == Excessive(before[s], desired, strictSides)
  }

  /**
   * A kept row is marked for replacement exactly when it is larger than planned
   * and was marked already, is by more than a quarter, or lies on a strict side.
   */
  lemma MarkedIff(before: map<Slot, Managed>, after: map<Slot, Managed>, desired: Quote, strictSides: set<Side>) returns (was: Slot)
    requires Reuses(before, after, desired, strictSides) && SlotOf(desired) in after && desired.qty >= 0
    ensures was in before && before[was].row == after[SlotOf(desired)].row
    ensures after[SlotOf(desired)].needsNormalization <==>
      && before[was].row.qty > desired.qty
      && (before[was].needsNormalization || desired.side in strictSides || 4 * before[was].row.qty > 5 * desired.qty)
  {
    var slot := SlotOf(desired);
    was :| was in before && before[was].row == after[slot].row && after[slot].needsNormalization == Excessive(before[was], desired, strictSides);
  }

  predicate PlanHasSlot(plan: seq<Quote>, s: Slot) {
    exists i :: 0 <= i < |plan| && SlotOf(plan[i]) == s
  }

  /** Nothing superseded could have filled a slot that stayed empty. */
  predicate NothingWasted(after: map<Slot, Managed>, superseded: seq<Row>, desired: Quote) {
    SlotOf(desired) !in after ==> forall k :: 0 <= k < |superseded| ==> superseded[k].order.side != desired.side || superseded[k].order.price != desired.price
  }

  ghost predicate Remapped(before: map<Slot, Managed>, plan: seq<Quote>, strictSides: set<Side>, after: map<Slot, Managed>, superseded: seq<Row>) {
    && Splits(before, after, superseded)
    && (forall s :: s in after ==> PlanHasSlot(plan, s))
    && (forall i :: 0 <= i < |plan| ==> Reuses(before, after, plan[i], strictSides) && NothingWasted(after, superseded, plan[i]))
  }

  function PutAll(rows: map<int, Row>, more: seq<Row>): map<int, Row> {
    if more == [] then rows else PutAll(rows, more[..|more| - 1])[more[|more| - 1].order.id := more[|more| - 1]]
  }

  lemma {:induction false} PutAllHolds(rows: map<int, Row>, more: seq<Row>)
    requires DistinctIds(more) && forall k :: 0 <= k < |more| ==> more[k].order.id !in rows
    ensures forall id :: id in PutAll(rows, more) <==> id in rows || exists k :: 0 <= k < |more| && more[k].order.id == id
    ensures forall id :: id in rows ==> PutAll(rows, more)[id] == rows[id]
    ensures forall k :: 0 <= k < |more| ==> PutAll(rows, more)[more[k].order.id] == more[k]
  {
    if more != [] {
      var last := |more| - 1;
      var less := more[..last];
      PutAllHolds(rows, less);
      forall id
        ensures id in PutAll(rows, more) <==> id in rows || exists k :: 0 <= k < |more| && more[k].order.id == id
      {
        if k :| 0 <= k < |less| && less[k].order.id == id {
          assert more[k].order.id == id;
        }
        if k :| 0 <= k < |more| && more[k].order.id == id {
          assert k < last ==> less[k].order.id == id;
        }
      }
      forall k | 0 <= k < |more|
        ensures PutAll(rows, more)[more[k].order.id] == more[k]
      {
        assert k < last ==> less[k] == more[k];
      }
    }
  }

  function Superseding(m: Maker, active: map<Slot, Managed>, superseded: seq<Row>): Maker {
    m.(active := active, retirable := PutAll(m.retirable, superseded))
  }

  lemma HasOrder(active: map<Slot, Managed>, row: Row)
    requires ActiveHasRow(active, row)
    ensures ActiveHas(active, row.order)
  {
    var s :| s in active && active[s].row == row;
  }

  lemma SupersededWasActive(m: Maker, active: map<Slot, Managed>, superseded: seq<Row>)
    requires WellKeyed(m) && Splits(m.active, active, superseded)
    ensures forall k :: 0 <= k < |superseded| ==> NotIn(m, superseded[k].order.id)
    ensures forall s :: s in active ==> NotIn(m, active[s].row.order.id)
  {
    forall k | 0 <= k < |superseded|
      ensures NotIn(m, superseded[k].order.id)
    {
      assert superseded[k] in superseded;
      assert ActiveHasRow(m.active, superseded[k]);
    }
    forall s | s in active
      ensures NotIn(m, active[s].row.order.id)
    {
      assert ActiveHasRow(active, active[s].row);
      assert ActiveHasRow(m.active, active[s].row);
    }
  }

  predicate NotIn(m: Maker, id: int) {
    id !in m.retiring && id !in m.preserved && id !in m.retirable
  }

  /** Re-keying loses no order and duplicates none: what is tracked stays the same. */
  lemma RemappingTracks(m: Maker, active: map<Slot, Managed>, superseded: seq<Row>, o: Order)
    requires WellKeyed(m) && Splits(m.active, active, superseded)
    ensures Tracks(Superseding(m, active, superseded), o) <==> Tracks(m, o)
  {
    SupersededWasActive(m, active, superseded);
    PutAllHolds(m.retirable, superseded);
    var after := Superseding(m, active, superseded);
    if ActiveHas(m.active, o) {
      var s :| s in m.active && m.active[s].row.order == o;
      var row := m.active[s].row;
      assert ActiveHasRow(m.active, row);
      if ActiveHasRow(active, row) {
        HasOrder(active, row);
      } else {
        assert row in superseded;
        var k :| 0 <= k < |superseded| && superseded[k] == row;
        assert after.retirable[superseded[k].order.id] == row;
      }
    }
    if ActiveHas(active, o) {
      var s :| s in active && active[s].row.order == o;
      assert ActiveHasRow(active, active[s].row);
      HasOrder(m.active, active[s].row);
    }
    if Holds(after.retirable, o) && !Holds(m.retirable, o) {
      assert o.id !in m.retirable;
      var k :| 0 <= k < |superseded| && superseded[k].order.id == o.id;
      assert after.retirable[superseded[k].order.id] == superseded[k];
      assert superseded[k] in superseded;
      HasOrder(m.active, superseded[k]);
    }
  }

  lemma RemappingWellKeyed(m: Maker, active: map<Slot, Managed>, superseded: seq<Row>)
    requires WellKeyed(m) && Splits(m.active, active, superseded)
    ensures WellKeyed(Superseding(m, active, superseded))
  {
    SupersededWasActive(m, active, superseded);
    PutAllHolds(m.retirable, superseded);
    var after := Superseding(m, active, superseded);
    assert KeyedById(after.retirable);
    forall s | s in active
      ensures active[s].row.order.id !in after.retirable
    {
      NotSuperseded(m, active, superseded, s);
    }
  }

  lemma NotSuperseded(m: Maker, active: map<Slot, Managed>, superseded: seq<Row>, s: Slot)
    requires WellKeyed(m) && Splits(m.active, active, superseded) && s in active
    ensures forall k :: 0 <= k < |superseded| ==> superseded[k].order.id != active[s].row.order.id
  {
    var row := active[s].row;
    assert ActiveHasRow(active, row);
    assert ActiveHasRow(m.active, row);
    forall k | 0 <= k < |superseded|
      ensures superseded[k].order.id != row.order.id
    {
      assert superseded[k] in superseded;
      assert ActiveHasRow(m.active, superseded[k]);
      if superseded[k].order.id == row.order.id {
        SameRow(m.active, superseded[k], row);
      }
    }
  }

  lemma SameRow(active: map<Slot, Managed>, a: Row, b: Row)
    requires KeyedBySlot(active) && ActiveHasRow(active, a) && ActiveHasRow(active, b) && a.order.id == b.order.id
    ensures a == b
  {
  }
}
