/**
 * The engine object (apps/matching-engine/src/engine.ts): fields changed in
 * place by its handlers. Each handler is proved to take the step that the
 * machine in `Engine` describes; database reads are reads of `db`.
 */
module MatchingEngine {
  import opened Common
  import opened OrderBook
  import opened OrderBookLaws
  import opened Engine

  class MatchingEngine {
    var book: Orderbook
    var seenEventIds: seq<EventId>
    var db: Durable

    constructor (db: Durable)
      ensures fresh(book) && this.db == db
      ensures forall issued :: Abstract(issued) == State(db, issued, true, CreateBook(None), [])
    {
      this.db := db;
      seenEventIds := [];
      book := new Orderbook(None);
    }

    ghost function Abstract(issued: map<EventId, OrderEvent>): State
      reads this, book
    {
      State(db, issued, true, book.Value(), seenEventIds)
    }

    method RememberEvent(eventId: EventId)
      modifies this`seenEventIds
      ensures seenEventIds == Remember(old(seenEventIds), eventId)
    {
      if eventId in seenEventIds { return; }
      seenEventIds := seenEventIds + [eventId];
      if |seenEventIds| > SEEN_CAP {
        seenEventIds := seenEventIds[1..];
      }
    }

    method PruneDurablyClosedOrders() returns (changed: bool)
      modifies book
      ensures
        var b := old(book.Value());
        var ids := MarkedIds(b.bids + b.asks, db.markers);
        changed == (ids != []) && book.Value() == CancelAll(b, ids)
    {
      var rest := MarkedIds(book.bids + book.asks, db.markers);
      changed := |rest| > 0;
      ghost var all := CancelAll(book.Value(), rest);
      while |rest| > 0
        invariant CancelAll(book.Value(), rest) == all
      {
        var _ := book.CancelOrder(rest[0]);
        rest := rest[1..];
      }
    }

    method PublishSnapshot(b: Orderbook)
      modifies b`seqNo
      ensures b.Value() == Published(old(b.Value()))
    {
      b.seqNo := b.seqNo + 1;
    }

    /** Inside a transaction: every event becomes an outbox row, a close also a marker. */
    method PersistSettlementEvents(events: seq<OutEvent>)
      modifies this`db
      ensures db == old(db).(markers := old(db).markers + ClosedIds(Closes(events)), outbox := old(db).outbox + events)
    {
      var i := 0;
      while i < |events|
        invariant 0 <= i <= |events|
        invariant db == old(db).(markers := old(db).markers + ClosedIds(Closes(events[..i])), outbox := old(db).outbox + events[..i])
      {
        assert events[..i + 1] == events[..i] + [events[i]];
        ClosesSnoc(events[..i], events[i]);
        if events[i].OrderClosed? {
          db := db.(markers := db.markers + {events[i].closed.orderId});
        }
        db := db.(outbox := db.outbox + [events[i]]);
        i := i + 1;
      }
      assert events[..i] == events;
    }

    /** The transaction of a placed event; an event id that is already claimed changes nothing. */
    method PersistPlacedEvent(eventId: EventId, result: MatchResult) returns (applied: bool)
      modifies this`db
      ensures applied == (eventId !in old(db).claims)
      ensures db == if applied then Commit(old(db), eventId, result) else old(db)
    {
      if eventId in db.claims { return false; }
      db := db.(claims := db.claims + {eventId});
      var i := 0;
      while i < |result.fills|
        invariant 0 <= i <= |result.fills|
        invariant db == old(db).(claims := old(db).claims + {eventId}, trades := old(db).trades + result.fills[..i])
      {
        db := db.(trades := db.trades + [result.fills[i]]);
        i := i + 1;
      }
      assert result.fills[..i] == result.fills;
      PersistSettlementEvents(SettlementEvents(result));
      SettlementEventsRead(result);
      applied := true;
    }

    method PersistCancelEvent(eventId: EventId, closed: Option<Closed>) returns (applied: bool)
      modifies this`db
      ensures applied == (eventId !in old(db).claims)
      ensures db == if applied then Commit(old(db), eventId, CancelResult(closed)) else old(db)
    {
      if eventId in db.claims { return false; }
      db := db.(claims := db.claims + {eventId});
      SettlementEventsRead(CancelResult(closed));
      assert db.trades + [] == db.trades;
      if closed.Some? {
        assert SettlementEvents(CancelResult(closed)) == [OrderClosed(closed.value)];
        PersistSettlementEvents([OrderClosed(closed.value)]);
      } else {
        assert SettlementEvents(CancelResult(closed)) == [];
        assert ClosedIds([]) == {};
        assert db.outbox + [] == db.outbox;
      }
      applied := true;
    }

    method HandlePlacedEvent(eventId: EventId, inc: Incoming, recovery: bool, ghost issued: map<EventId, OrderEvent>)
      modifies this
      ensures fresh(book) || book == old(book)
      ensures Abstract(issued) == HandlePlaced(old(Abstract(issued)), eventId, inc, recovery)
    {
      if inc.orderId in BookIds(book.Value()) {
        // Listed by a restart before its first delivery: claim it without rematching.
        db := db.(claims := db.claims + {eventId});
        RememberEvent(eventId);
        return;
      }
      if inc.orderId in db.markers
         || (recovery && ((inc.orderId in db.orders && db.orders[inc.orderId].status != OPEN) || Named(db.trades, inc.orderId))) {
        RememberEvent(eventId);
        return;
      }
      var staged := new Orderbook.Clone(book);
      var result := staged.ApplyOrder(inc);
      var applied := PersistPlacedEvent(eventId, result);
      if !applied {
        RememberEvent(eventId);
        return;
      }
      book := staged;
      RememberEvent(eventId);
      PublishSnapshot(staged);
    }

    method HandleCancelEvent(eventId: EventId, id: OrderId, recovery: bool, ghost issued: map<EventId, OrderEvent>)
      modifies this
      ensures fresh(book) || book == old(book)
      ensures Abstract(issued) == HandleCancel(old(Abstract(issued)), eventId, id, recovery)
    {
      if id in db.markers || (recovery && (id !in db.orders || !Active(db.orders[id].status))) {
        RememberEvent(eventId);
        return;
      }
      var staged := new Orderbook.Clone(book);
      var removed := staged.CancelOrder(id);
      var closed := if removed.Some? then Some(CancelClose(removed.value)) else CloseMissing(db, id);
      var applied := PersistCancelEvent(eventId, closed);
      if !applied {
        RememberEvent(eventId);
        return;
      }
      book := staged;
      RememberEvent(eventId);
      PublishSnapshot(staged);
    }

    method HandleEvent(eventId: EventId, ev: OrderEvent, recovery: bool, ghost issued: map<EventId, OrderEvent>)
      requires eventId in issued && issued[eventId] == ev
      modifies this, book
      ensures fresh(book) || book == old(book)
      ensures Abstract(issued) == Deliver(old(Abstract(issued)), eventId, recovery)
    {
      var changed := PruneDurablyClosedOrders();
      if changed { PublishSnapshot(book); }
      assert Abstract(issued) == Pruned(old(Abstract(issued)));
      if eventId in seenEventIds { return; }
      match ev
      case PlacedEvent(inc) => HandlePlacedEvent(eventId, inc, recovery, issued);
      case CancelEvent(id) => HandleCancelEvent(eventId, id, recovery, issued);
    }

    /** Rebuilds the book from the rows the queries return, listed in replay order and then sorted. */
    method BootstrapBook(rows: seq<OrderId>, ghost before: State)
      requires ReplayOrder(db, rows) && before.d == db
      modifies this
      ensures fresh(book)
      ensures Abstract(before.issued) == Bootstrap(before, rows)
    {
      var restored := new Orderbook(LastTradePrice(db));
      var rest := rows;
      ghost var all := RestoreAll(restored.Value(), db, rows);
      while |rest| > 0
        invariant forall i :: 0 <= i < |rest| ==> Replayable(db, rest[i])
        invariant db == old(db) && fresh(restored)
        invariant RestoreAll(restored.Value(), db, rest) == all
        modifies restored
      {
        ghost var at := restored.Value();
        var id := rest[0];
        var row := db.orders[id];
        var remaining := RemainingRestingQty(row.qty, row.filledQty, RecordedQty(db.trades, id, row.side));
        if remaining != 0 && !CrossesRestored(restored.Value(), row.side, row.kind.price) {
          restored.seqNo := restored.seqNo + 1;
          var resting := RestoredRow(db, id, remaining, restored.seqNo);
          if row.side == Buy {
            restored.bids := restored.bids + [resting];
          } else {
            restored.asks := restored.asks + [resting];
          }
        }
        assert restored.Value() == Restore(at, db, id);
        rest := rest[1..];
      }
      restored.bids := SortSide(restored.bids);
      restored.asks := SortSide(restored.asks);
      book := restored;
      seenEventIds := [];
    }
  }

  lemma ClosesSnoc(events: seq<OutEvent>, e: OutEvent)
    ensures ClosedIds(Closes(events + [e])) ==
            ClosedIds(Closes(events)) + if e.OrderClosed? then {e.closed.orderId} else {}
  {
    OutboxAppend(events, [e]);
    if e.OrderClosed? { ClosedIdsSnoc(Closes(events), e.closed); }
  }
}
