/**
 * How much of the preserved rows really shows in the book: the snapshot's
 * quantities less the maker's own known rows, given to the preserved rows in
 * their order. The snapshot only says totals per side and price.
 */
module PreservedDepth {
  import opened Common
  import opened MakerQuotes
  import opened QuoteRemapping

  datatype Level = Level(price: int, qty: int)
  datatype Book = Book(bids: seq<Level>, asks: seq<Level>)

  function FaceOfRow(row: Row): Face {
    Face(row.order.side, row.order.price)
  }

  /** Rows and levels without a positive price and quantity are skipped. */
  predicate Counts(price: int, qty: int) {
    price > 0 && qty > 0
  }

  function LevelsAt(levels: seq<Level>, price: int): nat {
    if levels == [] then 0
    else
      var last := levels[|levels| - 1];
      LevelsAt(levels[..|levels| - 1], price) + if Counts(last.price, last.qty) && last.price == price then last.qty else 0
  }

  function RowsAt(rows: seq<Row>, face: Face): nat {
    if rows == [] then 0
    else
      var last := rows[|rows| - 1];
      RowsAt(rows[..|rows| - 1], face) + if Counts(last.order.price, last.qty) && FaceOfRow(last) == face then last.qty else 0
  }

  function ShownAt(book: Book, face: Face): nat {
    LevelsAt(if face.side == Buy then book.bids else book.asks, face.price)
  }

  /** What the snapshot shows at a face beyond the maker's own rows. */
  function OthersAt(book: Book, own: seq<Row>, face: Face): nat {
    Max(0, ShownAt(book, face) - RowsAt(own, face))
  }

  /** Of the nth preserved row, what is visible after the earlier rows at its face took theirs. */
  function VisibleQty(preserved: seq<Row>, book: Book, own: seq<Row>, n: nat): int
    requires n < |preserved|
  {
    var row := preserved[n];
    if !Counts(row.order.price, row.qty) then 0
    else Min(row.qty, Max(0, OthersAt(book, own, FaceOfRow(row)) - RowsAt(preserved[..n], FaceOfRow(row))))
  }

  function Budgeted(preserved: seq<Row>, book: Book, own: seq<Row>, n: nat): seq<Row>
    requires n <= |preserved|
  {
    if n == 0 then []
    else
      var visible := VisibleQty(preserved, book, own, n - 1);
      Budgeted(preserved, book, own, n - 1) + if visible > 0 then [preserved[n - 1].(qty := visible)] else []
  }

  function QtyAt(row: Row, face: Face): nat {
    if Counts(row.order.price, row.qty) && FaceOfRow(row) == face then row.qty else 0
  }

  lemma RowsAtMore(rows: seq<Row>, row: Row, face: Face)
    ensures RowsAt(rows + [row], face) == RowsAt(rows, face) + QtyAt(row, face)
  {
    assert (rows + [row])[..|rows|] == rows;
  }

  lemma RowsAtNext(rows: seq<Row>, n: nat, face: Face)
    requires n < |rows|
    ensures RowsAt(rows[..n + 1], face) == RowsAt(rows[..n], face) + QtyAt(rows[n], face)
  {
    assert rows[..n + 1] == rows[..n] + [rows[n]];
    RowsAtMore(rows[..n], rows[n], face);
  }

  lemma BudgetGrows(preserved: seq<Row>, book: Book, own: seq<Row>, n: nat, face: Face)
    requires n < |preserved|
    ensures VisibleQty(preserved, book, own, n) >= 0
    ensures RowsAt(Budgeted(preserved, book, own, n + 1), face) ==
            RowsAt(Budgeted(preserved, book, own, n), face) + if FaceOfRow(preserved[n]) == face then VisibleQty(preserved, book, own, n) else 0
  {
    var visible := VisibleQty(preserved, book, own, n);
    var before := Budgeted(preserved, book, own, n);
    if visible > 0 {
      RowsAtMore(before, preserved[n].(qty := visible), face);
    } else {
      assert Budgeted(preserved, book, own, n + 1) == before + [];
      assert before + [] == before;
    }
  }

  /** First come, first served never gives out more than there is, and never less than asked while some is left. */
  lemma ServedInOrder(given: int, asked: nat, others: nat, qty: nat)
    requires given == Min(asked, others)
    ensures given + Min(qty, Max(0, others - asked)) == Min(asked + qty, others)
  {
  }

  /**
   * At every side and price the budgeted rows together show what the preserved
   * rows hold or what others show there, whichever is less: depth that is the
   * maker's own, or not in the book, is never counted.
   */
  lemma {:induction false} BudgetIsVisible(preserved: seq<Row>, book: Book, own: seq<Row>, n: nat, face: Face)
    requires n <= |preserved|
    ensures
      var shown := LevelsAt(if face.side == Buy then book.bids else book.asks, face.price);
      RowsAt(Budgeted(preserved, book, own, n), face) == Min(RowsAt(preserved[..n], face), Max(0, shown - RowsAt(own, face)))
  {
    if n > 0 {
      var k := n - 1;
      BudgetIsVisible(preserved, book, own, k, face);
      RowsAtNext(preserved, k, face);
      BudgetGrows(preserved, book, own, k, face);
      ServedInOrder(RowsAt(Budgeted(preserved, book, own, k), face), RowsAt(preserved[..k], face), OthersAt(book, own, face), QtyAt(preserved[k], face));
    }
  }

  /** One preserved row, one level shown at its price, one own row there: the row gets what the level shows beyond the own row, up to what it holds. */
  lemma LoneRowIsBudgeted(row: Row, shown: int, mine: Row)
    requires row.order.price > 0 && row.qty > 0 && shown > 0 && mine.qty > 0 && FaceOfRow(mine) == FaceOfRow(row)
    ensures
      var levels := [Level(row.order.price, shown)];
      var book := if row.order.side == Buy then Book(levels, []) else Book([], levels);
      Budgeted([row], book, [mine], 1) == if shown > mine.qty then [row.(qty := Min(row.qty, shown - mine.qty))] else []
  {
    var levels := [Level(row.order.price, shown)];
    assert levels[..0] == [];
    assert [mine][..0] == [] && [row][..0] == [];
    var book := if row.order.side == Buy then Book(levels, []) else Book([], levels);
    assert LevelsAt(levels, row.order.price) == LevelsAt(levels[..0], row.order.price) + shown;
    assert RowsAt([mine], FaceOfRow(row)) == RowsAt([mine][..0], FaceOfRow(row)) + mine.qty;
    assert VisibleQty([row], book, [mine], 0) == Min(row.qty, Max(0, shown - mine.qty));
  }

  predicate PartOf(row: Row, whole: Row) {
    row.order == whole.order && 0 < row.qty <= whole.qty
  }

  predicate PartOfSome(row: Row, preserved: seq<Row>) {
    exists j :: 0 <= j < |preserved| && PartOf(row, preserved[j])
  }

  /** Each budgeted row is a preserved one with at most its quantity. */
  lemma {:induction false} BudgetedFromPreserved(preserved: seq<Row>, book: Book, own: seq<Row>, n: nat)
    requires n <= |preserved|
    ensures forall k :: 0 <= k < |Budgeted(preserved, book, own, n)| ==> PartOfSome(Budgeted(preserved, book, own, n)[k], preserved)
  {
    if n > 0 {
      BudgetedFromPreserved(preserved, book, own, n - 1);
      var visible := VisibleQty(preserved, book, own, n - 1);
      if visible > 0 {
        assert PartOf(preserved[n - 1].(qty := visible), preserved[n - 1]);
      }
    }
  }

  function Left(available: map<Face, int>, face: Face): int {
    if face in available then available[face] else 0
  }

  method AddLevels(available: map<Face, int>, side: Side, levels: seq<Level>) returns (after: map<Face, int>)
    ensures forall face :: Left(after, face) == Left(available, face) + if face.side == side then LevelsAt(levels, face.price) else 0
  {
    after := available;
    for i := 0 to |levels|
      invariant forall face :: Left(after, face) == Left(available, face) + if face.side == side then LevelsAt(levels[..i], face.price) else 0
    {
      assert levels[..i + 1][..i] == levels[..i];
      var level := levels[i];
      if Counts(level.price, level.qty) {
        var face := Face(side, level.price);
        after := after[face := Left(after, face) + level.qty];
      }
    }
    assert levels[..|levels|] == levels;
  }

  method BudgetPreservedGuardsFromSnapshot(preserved: seq<Row>, snapshot: Option<Book>, own: seq<Row>) returns (budgeted: seq<Row>)
    ensures snapshot.None? ==> budgeted == []
    ensures snapshot.Some? ==> budgeted == Budgeted(preserved, snapshot.value, own, |preserved|)
  {
    if snapshot.None? {
      return [];
    }
    var book := snapshot.value;
    var available := AddLevels(map[], Buy, book.bids);
    available := AddLevels(available, Sell, book.asks);
    assert forall face :: Left(available, face) == ShownAt(book, face);
    available := SubtractOwn(available, book, own);
    budgeted := AllotGuards(preserved, book, own, available);
  }

  method SubtractOwn(shown: map<Face, int>, book: Book, own: seq<Row>) returns (available: map<Face, int>)
    requires forall face :: Left(shown, face) == ShownAt(book, face)
    ensures forall face :: Left(available, face) == OthersAt(book, own, face)
  {
    available := shown;
    for i := 0 to |own|
      invariant forall face :: Left(available, face) == Max(0, ShownAt(book, face) - RowsAt(own[..i], face))
    {
      forall face ensures RowsAt(own[..i + 1], face) == RowsAt(own[..i], face) + QtyAt(own[i], face) {
        RowsAtNext(own, i, face);
      }
      var quote := own[i];
      if Counts(quote.order.price, quote.qty) {
        var face := FaceOfRow(quote);
        available := available[face := Max(0, Left(available, face) - quote.qty)];
      }
    }
    assert own[..|own|] == own;
  }

  ghost predicate LeftAfter(available: map<Face, int>, preserved: seq<Row>, book: Book, own: seq<Row>, n: nat)
    requires n <= |preserved|
  {
    forall face :: Left(available, face) == Max(0, OthersAt(book, own, face) - RowsAt(preserved[..n], face))
  }

  lemma LeftAfterNext(available: map<Face, int>, preserved: seq<Row>, book: Book, own: seq<Row>, n: nat)
    requires n < |preserved| && LeftAfter(available, preserved, book, own, n)
    ensures
      var row := preserved[n];
      var visible := Min(row.qty, Left(available, FaceOfRow(row)));
      && (Counts(row.order.price, row.qty) ==> visible == VisibleQty(preserved, book, own, n))
      && LeftAfter(if Counts(row.order.price, row.qty) && visible > 0 then available[FaceOfRow(row) := Left(available, FaceOfRow(row)) - visible] else available,
                   preserved, book, own, n + 1)
  {
    forall face ensures RowsAt(preserved[..n + 1], face) == RowsAt(preserved[..n], face) + QtyAt(preserved[n], face) {
      RowsAtNext(preserved, n, face);
    }
  }

  method AllotGuards(preserved: seq<Row>, book: Book, own: seq<Row>, others: map<Face, int>) returns (budgeted: seq<Row>)
    requires forall face :: Left(others, face) == OthersAt(book, own, face)
    ensures budgeted == Budgeted(preserved, book, own, |preserved|)
  {
    var available := others;
    budgeted := [];
    assert LeftAfter(available, preserved, book, own, 0);
    for n := 0 to |preserved|
      invariant budgeted == Budgeted(preserved, book, own, n)
      invariant LeftAfter(available, preserved, book, own, n)
    {
      LeftAfterNext(available, preserved, book, own, n);
      var guard := preserved[n];
      if Counts(guard.order.price, guard.qty) {
        var face := FaceOfRow(guard);
        var visibleQty := Min(guard.qty, Left(available, face));
        if visibleQty > 0 {
          budgeted := budgeted + [guard.(qty := visibleQty)];
          available := available[face := Left(available, face) - visibleQty];
        }
      }
    }
  }

  // ---- Keeping the budget within the rows as they fill ----

  /** A budgeted row never counts for more than its preserved row still holds; one that ended is dropped. */
  ghost predicate Clamped(preserved: map<int, Row>, budgeted: map<int, Row>, after: map<int, Row>) {
    forall id :: (id in after <==> id in budgeted && id in preserved && preserved[id].qty > 0) &&
                 (id in after ==> after[id] == preserved[id].(qty := Min(preserved[id].qty, budgeted[id].qty)))
  }

  method ClampBudgetedPreservedGuards(preserved: map<int, Row>, budgeted: map<int, Row>) returns (after: map<int, Row>)
    requires KeyedById(preserved) && KeyedById(budgeted)
    ensures Clamped(preserved, budgeted, after)
  {
    after := budgeted;
    var rest := budgeted.Keys;
    while rest != {}
      invariant rest <= budgeted.Keys
      invariant forall id :: id in after <==> id in budgeted && (id in rest || (id in preserved && preserved[id].qty > 0))
      invariant forall id :: id in after ==>
        after[id] == if id in rest then budgeted[id] else preserved[id].(qty := Min(preserved[id].qty, budgeted[id].qty))
      decreases |rest|
    {
      var id := Pick(rest);
      var quote := budgeted[id];
      if id !in preserved || preserved[id].qty <= 0 {
        after := after - {id};
      } else {
        var raw := preserved[id];
        if quote.qty > raw.qty || FaceOfRow(quote) != FaceOfRow(raw) {
          after := after[id := raw.(qty := Min(raw.qty, quote.qty))];
        }
      }
      rest := rest - {id};
    }
  }

  predicate PartsOf(budgeted: map<int, Row>, preserved: map<int, Row>) {
    forall id :: id in budgeted ==> id in preserved && PartOf(budgeted[id], preserved[id])
  }

  /** However the preserved rows filled or ended since, the clamped budget is again positive parts of what they hold, each no larger than before. */
  lemma ClampRestoresParts(was: map<int, Row>, now: map<int, Row>, snapshot: Snapshot, budgeted: map<int, Row>, after: map<int, Row>)
    requires PartsOf(budgeted, was) && RowsReconciled(was, snapshot, now) && Clamped(now, budgeted, after)
    ensures PartsOf(after, now)
    ensures forall id :: id in after ==> id in budgeted && after[id].qty <= budgeted[id].qty
    ensures forall id :: id in budgeted && id in now && now[id].qty > 0 ==> id in after
  {
    forall id | id in after ensures PartOf(after[id], now[id]) {
      assert PartOf(budgeted[id], was[id]);
      assert now[id] == Seen(was[id], snapshot);
    }
  }
}
