/**
 * What a delivered event achieves: a cancel takes its order off the book and
 * closes it with what it traded, a placement rests or is closed, and an event
 * that was handled before changes nothing.
 */
module EngineEvents {
  import opened Common
  import opened OrderBook
  import opened OrderBookLaws
  import opened Engine
  import opened EngineSafety

  /** Everything but one order stays as it was; that order is gone from the book. */
  ghost predicate TakenOff(before: Book, after: Book, id: OrderId) {
    (forall o :: InBook(after, o) <==> InBook(before, o) && o.orderId != id) && after.lastPrice == before.lastPrice
  }

  /** One more row in the outbox, the close of one order, and nothing traded. */
  ghost predicate ClosedBy(d: Durable, after: Durable, c: Closed) {
    && after.outbox == d.outbox + [OrderClosed(c)] && after.markers == d.markers + {c.orderId}
    && after.trades == d.trades && after.orders == d.orders
  }

  lemma OneCloseCommitted(d: Durable, eid: EventId, c: Closed)
    ensures ClosedBy(d, Commit(d, eid, CancelResult(Some(c))), c)
  {
    assert CloseEvents([c]) == [OrderClosed(c)];
    ClosedIdsSnoc([], c);
  }

  lemma PublishedRows(before: Book, taken: Book, id: OrderId)
    requires TakenOff(before, taken, id)
    ensures TakenOff(before, Published(taken), id)
  {
    assert forall o :: InBook(taken, o) == InBook(Published(taken), o);
  }

  /**
   * A cancel delivered while its order rests takes the order off the book and
   * closes it, as canceled, with exactly what it has traded. A reclaimed
   * message needs the order's row still active.
   */
  lemma CancelTakesOff(s: State, eid: EventId, id: OrderId, recovery: bool)
    requires Inv(s) && s.up && eid in s.issued && s.issued[eid] == CancelEvent(id)
    requires eid !in s.seen && eid !in s.d.claims && id in BookIds(s.book)
    requires recovery ==> id in s.d.orders && Active(s.d.orders[id].status)
    ensures id in s.d.orders
    ensures
      var t := Deliver(s, eid, recovery);
      && TakenOff(s.book, t.book, id) && id !in BookIds(t.book) && t.book.seqNo == s.book.seqNo + 1
      && id in t.d.markers && eid in t.d.claims
      && ClosedBy(s.d, t.d, Closed(id, s.d.orders[id].accountId, s.d.orders[id].side, FilledQty(s.d.trades, id), Canceled))
  {
    PruneIdle(s);
    BookIdsUnmarked(s.book, s.d);
    WithoutEffects(s.book, id);
    var w := Without(s.book, id);
    assert RowOf(w.order.value, s.d);
    OneCloseCommitted(s.d, eid, CancelClose(w.order.value));
    PublishedRows(s.book, w.book, id);
    assert BookIds(Published(w.book)) == BookIds(w.book);
  }

  /**
   * A cancel of an order the book does not hold closes it if and only if its
   * row is active and shows exactly its recorded trades; otherwise it only
   * claims the event.
   */
  lemma MissingCancelClosesIff(s: State, eid: EventId, id: OrderId)
    requires Inv(s) && s.up && eid in s.issued && s.issued[eid] == CancelEvent(id)
    requires eid !in s.seen && eid !in s.d.claims && id !in BookIds(s.book) && id !in s.d.markers
    ensures id in s.d.orders
    ensures
      var t, row := Deliver(s, eid, false), s.d.orders[id];
      && eid in t.d.claims && t.d.trades == s.d.trades && TakenOff(s.book, t.book, id)
      && (id in t.d.markers <==> Active(row.status) && FilledQty(s.d.trades, id) == row.filledQty)
      && (if id in t.d.markers then ClosedBy(s.d, t.d, Closed(id, row.accountId, row.side, row.filledQty, Canceled))
          else t.d.outbox == s.d.outbox && t.d.markers == s.d.markers)
  {
    PruneIdle(s);
    WithoutEffects(s.book, id);
    assert EventOrder(s.issued[eid]) == id;
    RecordedIsFilled(s.d.trades, s.d.orders, id);
    var closed := CloseMissing(s.d, id);
    if closed.Some? {
      OneCloseCommitted(s.d, eid, closed.value);
    } else {
      assert ClosedIds([]) == {};
    }
    assert forall o :: InBook(s.book, o) ==> o.orderId in BookIds(s.book);
    PublishedRows(s.book, Without(s.book, id).book, id);
  }

  /** The order rests with what it has not traded, or it was closed and does not rest. */
  ghost predicate RestsOrCloses(t: State, inc: Incoming) {
    && (inc.orderId in BookIds(t.book) <==> inc.orderId !in t.d.markers)
    && (inc.orderId in BookIds(t.book) ==>
          exists o :: InBook(t.book, o) && o.orderId == inc.orderId && o.side == inc.side && inc.kind == Limit(o.price)
                      && o.qty == inc.qty - FilledQty(t.d.trades, inc.orderId))
  }

  /** Unless it traded whole, nothing it may trade with is left: the other side is empty, out of reach, or headed by its own account. */
  predicate Exhausted(t: State, inc: Incoming) {
    var opp := SideOf(t.book, Opposite(inc.side));
    FilledQty(t.d.trades, inc.orderId) >= inc.qty || opp == [] || OutOfReach(inc, opp[0].price) || opp[0].accountId == inc.accountId
  }

  /**
   * A placement delivered for the first time is claimed and takes effect: it
   * trades as far as it can, and then rests with what is left or is closed.
   */
  lemma PlacementTakesEffect(s: State, eid: EventId, recovery: bool)
    requires Inv(s) && s.up && eid in s.issued && s.issued[eid].PlacedEvent?
    requires eid !in s.seen && eid !in s.d.claims
    requires
      var id := s.issued[eid].inc.orderId;
      && id in s.d.orders && id !in BookIds(s.book) && id !in s.d.markers
      && if recovery then s.d.orders[id].status == OPEN && !Named(s.d.trades, id) else FilledQty(s.d.trades, id) == 0
    ensures
      var t := Deliver(s, eid, recovery);
      eid in t.d.claims && s.d.outbox <= t.d.outbox && RestsOrCloses(t, s.issued[eid].inc) && Exhausted(t, s.issued[eid].inc)
  {
    var inc := s.issued[eid].inc;
    PruneIdle(s);
    if recovery {
      UnnamedUntraded(s.d.trades, inc.orderId);
    }
    assert Deliver(s, eid, recovery) == ApplyPlaced(s, eid, inc);
    AppliedTakesEffect(s, eid, inc);
  }

  lemma AppliedTakesEffect(s: State, eid: EventId, inc: Incoming)
    requires Fresh(s, eid, inc)
    ensures eid in ApplyPlaced(s, eid, inc).d.claims && s.d.outbox <= ApplyPlaced(s, eid, inc).d.outbox
    ensures RestsOrCloses(ApplyPlaced(s, eid, inc), inc) && Exhausted(ApplyPlaced(s, eid, inc), inc)
  {
    LeftoverHasNoCounterparty(s.book, inc);
    PlaceConserves(s.book, inc, inc.orderId);
    FilledQtyAppend(s.d.trades, Place(s.book, inc).result.fills, inc.orderId);
    var t := ApplyPlaced(s, eid, inc);
    PlacedKeepsInv(s, eid, inc);
    PlaceCloses(s.book, inc);
    BookIdsUnmarked(t.book, t.d);
    assert BookIds(t.book) == BookIds(Place(s.book, inc).book);
    if inc.orderId in BookIds(t.book) {
      var o :| InBook(t.book, o) && o.orderId == inc.orderId;
      assert RowOf(o, t.d) && MatchesRow(inc, t.d.orders[inc.orderId]);
    }
  }

  /** An event that was claimed before changes no record and no book, whatever was forgotten since. */
  lemma RedeliveryChangesNothing(s: State, eid: EventId, recovery: bool)
    requires Inv(s) && s.up && eid in s.issued && eid in s.d.claims
    ensures Deliver(s, eid, recovery).d == s.d && Deliver(s, eid, recovery).book == s.book
  {
    PruneIdle(s);
    assert s.d.claims + {eid} == s.d.claims;
  }

  /** The placement of an order that rests already is claimed, and nothing else happens. */
  lemma RestingIsOnlyClaimed(s: State, eid: EventId, recovery: bool)
    requires Inv(s) && s.up && eid in s.issued && s.issued[eid].PlacedEvent?
    requires eid !in s.seen && s.issued[eid].inc.orderId in BookIds(s.book)
    ensures Deliver(s, eid, recovery).d == s.d.(claims := s.d.claims + {eid}) && Deliver(s, eid, recovery).book == s.book
  {
    PruneIdle(s);
  }

  /** What shows that a reclaimed message was handled before: a cancel finds no active row, a placement a row that moved on or a trade. */
  predicate ShowsHandled(d: Durable, ev: OrderEvent) {
    match ev
    case CancelEvent(id) => id !in d.orders || !Active(d.orders[id].status)
    case PlacedEvent(inc) => (inc.orderId in d.orders && d.orders[inc.orderId].status != OPEN) || FilledQty(d.trades, inc.orderId) > 0
  }

  /** Such a message matches nothing and closes nothing; at most it is claimed. */
  lemma ReclaimedChangesNothing(s: State, eid: EventId)
    requires Inv(s) && s.up && eid in s.issued && ShowsHandled(s.d, s.issued[eid])
    ensures Deliver(s, eid, true).book == s.book
    ensures Deliver(s, eid, true).d == s.d || Deliver(s, eid, true).d == s.d.(claims := s.d.claims + {eid})
  {
    PruneIdle(s);
    if s.issued[eid].PlacedEvent? && !Named(s.d.trades, s.issued[eid].inc.orderId) {
      UnnamedUntraded(s.d.trades, s.issued[eid].inc.orderId);
    }
  }

  lemma {:induction false} MarkedIdsAre(list: seq<Resting>, markers: set<OrderId>, id: OrderId)
    ensures id in MarkedIds(list, markers) <==> id in markers && id in Ids(list)
  {
    if list != [] {
      MarkedIdsAre(list[1..], markers, id);
      assert Ids(list) == {list[0].orderId} + Ids(list[1..]) by {
        assert list == [list[0]] + list[1..];
      }
    }
  }

  lemma {:induction false} CancelAllDrops(b: Book, ids: seq<OrderId>)
    requires Sound(b)
    ensures Sound(CancelAll(b, ids)) && CancelAll(b, ids).lastPrice == b.lastPrice
    ensures forall o :: InBook(CancelAll(b, ids), o) <==> InBook(b, o) && o.orderId !in ids
    decreases ids
  {
    if ids != [] {
      WithoutEffects(b, ids[0]);
      CancelAllDrops(Without(b, ids[0]).book, ids[1..]);
      assert forall id :: id in ids <==> id == ids[0] || id in ids[1..];
    }
  }

  /** Before an event is handled, the rows that another engine has closed leave the book, and no others. */
  lemma PruningDropsClosed(s: State)
    requires Sound(s.book)
    ensures Sound(Pruned(s).book) && Pruned(s).book.lastPrice == s.book.lastPrice && Pruned(s).d == s.d
    ensures forall o :: InBook(Pruned(s).book, o) <==> InBook(s.book, o) && o.orderId !in s.d.markers
  {
    var list := s.book.bids + s.book.asks;
    var ids := MarkedIds(list, s.d.markers);
    CancelAllDrops(s.book, ids);
    forall o | InBook(s.book, o)
      ensures o.orderId in ids <==> o.orderId in s.d.markers
    {
      assert o in list;
      MarkedIdsAre(list, s.d.markers, o.orderId);
    }
    var dropped := CancelAll(s.book, ids);
    assert forall o :: InBook(Published(dropped), o) == InBook(dropped, o);
    if ids != [] {
      PublishedSound(dropped);
    }
  }

  /** The memory of handled events forgets nothing but its oldest, and that only when it is full. */
  lemma RemembersLatest(seen: seq<EventId>, eid: EventId)
    requires |seen| <= SEEN_CAP && forall i, j :: 0 <= i < j < |seen| ==> seen[i] != seen[j]
    ensures
      var after := Remember(seen, eid);
      && eid in after && |after| <= SEEN_CAP && (forall i, j :: 0 <= i < j < |after| ==> after[i] != after[j])
      && (forall x :: x in after ==> x == eid || x in seen)
      && (forall x :: x in seen && x !in after ==> |seen| == SEEN_CAP && x == seen[0] && eid !in seen)
  {
    if eid !in seen && |seen| == SEEN_CAP {
      assert seen == [seen[0]] + seen[1..];
    }
  }

  /** Whatever became of it, a delivered event is remembered, and until it is forgotten delivering it again does nothing at all. */
  lemma DeliveredIsRemembered(s: State, eid: EventId, recovery: bool, again: bool)
    requires Inv(s) && s.up && eid in s.issued && !Rematch(s, eid, recovery)
    ensures
      var t := Deliver(s, eid, recovery);
      eid in t.seen && eid in t.issued && Deliver(t, eid, again) == t
  {
    PruneIdle(s);
    HandledIsSeen(s, eid, recovery);
    DeliverKeepsInv(s, eid, recovery);
    SeenIsSkipped(Deliver(s, eid, recovery), eid, again);
  }

  lemma HandledIsSeen(s: State, eid: EventId, recovery: bool)
    requires Pruned(s) == s && s.up && eid in s.issued
    ensures eid in Deliver(s, eid, recovery).seen && Deliver(s, eid, recovery).issued == s.issued && Deliver(s, eid, recovery).up
  {
    assert eid in Remember(s.seen, eid);
  }

  lemma SeenIsSkipped(s: State, eid: EventId, recovery: bool)
    requires Inv(s) && s.up && eid in s.issued && eid in s.seen
    ensures Deliver(s, eid, recovery) == s
  {
    PruneIdle(s);
  }

  /** Nothing is done for an order that was closed before: neither for its placement nor for a cancel. */
  lemma ClosedIsLeftAlone(s: State, eid: EventId, recovery: bool)
    requires Inv(s) && s.up && eid in s.issued && EventOrder(s.issued[eid]) in s.d.markers
    ensures Deliver(s, eid, recovery).d == s.d && Deliver(s, eid, recovery).book == s.book
  {
    PruneIdle(s);
    BookIdsUnmarked(s.book, s.d);
  }
}
