/**
 * Restart of the matching engine: whatever was lost in the crash, the rebuilt
 * book is sound and agrees with the durable rows; and when every accepted order
 * had been consumed it is the book from before the crash.
 */
module EngineRestart {
  import opened Common
  import opened OrderBook
  import opened OrderBookLaws
  import opened Engine
  import opened EngineSafety

  // ---------------------------------------------------------------- sorting what was listed

  /** Arrival numbers in the order the rows were listed. */
  predicate Ascending(list: seq<Resting>) {
    && (forall i :: 0 <= i < |list| ==> list[i].seqNo > 0)
    && (forall i, j :: 0 <= i < j < |list| ==> list[i].seqNo < list[j].seqNo)
  }

  lemma LiveUpTo(list: seq<Resting>, side: Side, a: nat, b: nat)
    requires LiveOn(list, side, a) && a <= b
    ensures LiveOn(list, side, b)
  {
  }

  lemma {:induction false} SortSideIs(list: seq<Resting>, side: Side, seqNo: nat)
    requires Ascending(list) && LiveOn(list, side, seqNo) && Distinct(list)
    ensures
      var sorted := SortSide(list);
      && Sorted(sorted, side) && LiveOn(sorted, side, seqNo) && Distinct(sorted)
      && Ids(sorted) == Ids(list)
      && forall o :: o in sorted <==> o in list
    decreases list
  {
    if list != [] {
      var n := |list| - 1;
      var o := list[n];
      var front := list[..n];
      assert LiveOn(front, side, o.seqNo - 1);
      SortSideIs(front, side, o.seqNo - 1);
      LastIsNew(list);
      InsertKeepsRows(SortSide(front), o, o.seqNo - 1);
      InsertKeepsOrder(SortSide(front), o);
      InsertElements(SortSide(front), o);
      LiveUpTo(SortSide(list), side, o.seqNo, seqNo);
      assert forall r :: r in list <==> r in front || r == o;
    }
  }

  lemma LastIsNew(list: seq<Resting>)
    requires list != [] && Distinct(list)
    ensures list[|list| - 1].orderId !in Ids(list[..|list| - 1])
    ensures Ids(list) == Ids(list[..|list| - 1]) + {list[|list| - 1].orderId}
  {
    var n := |list| - 1;
    forall o | o in list[..n] ensures o.orderId != list[n].orderId {
      var k :| 0 <= k < n && list[..n][k] == o;
      assert o == list[k];
    }
    assert forall r :: r in list <==> r in list[..n] || r == list[n];
  }

  // ---------------------------------------------------------------- listing the rows

  /** A book listed so far: sound except that each side is in listing order. */
  predicate ListedSides(b: Book) {
    && Uncrossed(b.bids, b.asks)
    && Ascending(b.bids) && Ascending(b.asks)
    && LiveOn(b.bids, Buy, b.seqNo) && LiveOn(b.asks, Sell, b.seqNo)
    && Distinct(b.bids) && Distinct(b.asks) && Ids(b.bids) !! Ids(b.asks)
  }

  ghost predicate Listed(b: Book, d: Durable) {
    ListedSides(b) && Ledgered(b, d.trades) && RowsOf(b, d) && b.lastPrice == LastTradePrice(d)
  }

  function Listing(d: Durable, id: OrderId, seqNo: nat): Resting
    requires Replayable(d, id) && FilledQty(d.trades, id) <= d.orders[id].qty
  {
    RestoredRow(d, id, d.orders[id].qty - FilledQty(d.trades, id), seqNo)
  }

  /** The settled row never changes what is restored: recorded trades are always ahead of it. */
  lemma RestoreIs(b: Book, d: Durable, id: OrderId)
    requires DurableOk(d) && Replayable(d, id)
    ensures FilledQty(d.trades, id) < d.orders[id].qty
    ensures
      var row := d.orders[id];
      Restore(b, d, id) ==
      if CrossesRestored(b, row.side, row.kind.price) then b
      else WithSide(b, row.side, SideOf(b, row.side) + [Listing(d, id, b.seqNo + 1)]).(seqNo := b.seqNo + 1)
  {
    RecordedIsFilled(d.trades, d.orders, id);
  }

  lemma ListOne(b: Book, o: Resting)
    requires ListedSides(b) && o.orderId !in BookIds(b)
    requires o.seqNo == b.seqNo + 1 && 0 < o.qty <= o.totalQty && !CrossesRestored(b, o.side, o.price)
    ensures ListedSides(WithSide(b, o.side, SideOf(b, o.side) + [o]).(seqNo := b.seqNo + 1))
  {
    LiveLater(b.bids, Buy, b.seqNo);
    LiveLater(b.asks, Sell, b.seqNo);
    ListOneApart(b, o);
    if o.side == Buy {
      ListOneRow(b.bids, o, b.seqNo);
      assert Ids(b.bids + [o]) !! Ids(b.asks);
    } else {
      ListOneRow(b.asks, o, b.seqNo);
      assert Ids(b.bids) !! Ids(b.asks + [o]);
    }
  }

  lemma ListOneRow(list: seq<Resting>, o: Resting, seqNo: nat)
    requires Ascending(list) && LiveOn(list, o.side, seqNo) && Distinct(list) && o.orderId !in Ids(list)
    requires o.seqNo == seqNo + 1 && 0 < o.qty <= o.totalQty
    ensures Ascending(list + [o]) && LiveOn(list + [o], o.side, seqNo + 1) && Distinct(list + [o])
    ensures Ids(list + [o]) == Ids(list) + {o.orderId}
  {
    forall r | r in list ensures r.orderId != o.orderId { assert r.orderId in Ids(list); }
    assert forall r :: r in list + [o] <==> r in list || r == o;
  }

  lemma ListOneApart(b: Book, o: Resting)
    requires Uncrossed(b.bids, b.asks) && !CrossesRestored(b, o.side, o.price)
    ensures o.side == Buy ==> Uncrossed(b.bids + [o], b.asks)
    ensures o.side == Sell ==> Uncrossed(b.bids, b.asks + [o])
  {
  }

  lemma RestoreKeeps(b: Book, d: Durable, id: OrderId)
    requires DurableOk(d) && Listed(b, d) && Replayable(d, id) && id !in BookIds(b)
    ensures Listed(Restore(b, d, id), d)
    ensures BookIds(b) <= BookIds(Restore(b, d, id)) <= BookIds(b) + {id}
    ensures id in BookIds(Restore(b, d, id)) <==> !CrossesRestored(b, d.orders[id].side, d.orders[id].kind.price)
  {
    var row := d.orders[id];
    RestoreIs(b, d, id);
    if !CrossesRestored(b, row.side, row.kind.price) {
      var o := Listing(d, id, b.seqNo + 1);
      var b' := Restore(b, d, id);
      ListOne(b, o);
      assert forall r :: r in SideOf(b, row.side) + [o] <==> r in SideOf(b, row.side) || r == o;
      BookIdsSides(b, row.side);
      BookIdsSides(b', row.side);
      forall r | InBook(b', r) ensures r == o || InBook(b, r) {}
      assert InBook(b', o);
    }
  }

  predicate Unlisted(b: Book, rows: seq<OrderId>) {
    forall i :: 0 <= i < |rows| ==> rows[i] !in BookIds(b)
  }

  predicate DistinctIds(rows: seq<OrderId>) {
    forall i, j :: 0 <= i < j < |rows| ==> rows[i] != rows[j]
  }

  lemma {:induction false} RestoreAllKeeps(b: Book, d: Durable, rows: seq<OrderId>)
    requires DurableOk(d) && Listed(b, d) && Unlisted(b, rows) && DistinctIds(rows)
    requires forall i :: 0 <= i < |rows| ==> Replayable(d, rows[i])
    ensures Listed(RestoreAll(b, d, rows), d)
    decreases rows
  {
    if rows != [] {
      RestoreKeeps(b, d, rows[0]);
      RestoreAllKeeps(Restore(b, d, rows[0]), d, rows[1..]);
    }
  }

  lemma SortedSound(b: Book)
    requires ListedSides(b)
    ensures
      var b' := b.(bids := SortSide(b.bids), asks := SortSide(b.asks));
      Sound(b') && BookIds(b') == BookIds(b) && forall o :: InBook(b', o) <==> InBook(b, o)
  {
    SortSideIs(b.bids, Buy, b.seqNo);
    SortSideIs(b.asks, Sell, b.seqNo);
    SortUncrossed(b);
  }

  lemma SortUncrossed(b: Book)
    requires Uncrossed(b.bids, b.asks)
    requires forall o :: o in SortSide(b.bids) ==> o in b.bids
    requires forall o :: o in SortSide(b.asks) ==> o in b.asks
    ensures Uncrossed(SortSide(b.bids), SortSide(b.asks))
  {
    var x, y := SortSide(b.bids), SortSide(b.asks);
    forall i, j | 0 <= i < |x| && 0 <= j < |y| ensures x[i].price < y[j].price {
      assert x[i] in b.bids && y[j] in b.asks;
    }
  }

  /** Whatever order the rows are replayed in, the restored book is sorted, uncrossed and true to the records. */
  lemma BootstrapSound(s: State, rows: seq<OrderId>)
    requires Inv(s) && ReplayOrder(s.d, rows)
    ensures Inv(Bootstrap(s, rows))
  {
    var start := CreateBook(LastTradePrice(s.d));
    assert Listed(start, s.d);
    RestoreAllKeeps(start, s.d, rows);
    SortedSound(RestoreAll(start, s.d, rows));
  }
}
