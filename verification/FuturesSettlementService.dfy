/**
 * The daily run over all contracts: each open position in its own transaction,
 * a contract marked done only after all its positions, so an interrupted run
 * resumes where it stopped and a finished one does nothing.
 */
module FuturesSettlementService {
  import opened Common
  import opened Futures
  import opened Bank
  import opened Settlement
  import opened SettlementHolds
  import opened DailySettlement

  datatype DoneKey = DoneKey(symbol: Symbol, day: int)
  datatype DoneRow = DoneRow(price: int, positions: int, realizedTotal: int)

  function OpenKeys(positions: Positions, s: Symbol): set<PositionKey> {
    set key | key in positions && key.symbol == s && positions[key].position.qty != 0
  }

  function ClaimOf(key: PositionKey, day: int): ClaimId {
    Daily(key.symbol, day, key.account, key.row)
  }

  /** A contract is settled for the day when every position still open was claimed before the run. */
  ghost predicate Closed(db: Db, s: Symbol, day: int, before: set<ClaimId>) {
    forall key :: key in OpenKeys(db.positions, s) ==> ClaimOf(key, day) in before
  }

  /** What settling positions one after the other comes to: the database, how many were closed, and the profit realized. */
  datatype Ran = Ran(db: Db, positions: int, realizedTotal: int)

  function SettleNext(ran: Ran, key: PositionKey, day: int, price: int): Ran {
    match SettlePosition(ran.db, key.symbol, day, price, key.account, key.row)
    case Err(_) => ran
    case Ok(e) =>
      if e.realized.Some? then Ran(e.db, ran.positions + 1, ran.realizedTotal + e.realized.value) else Ran(e.db, ran.positions, ran.realizedTotal)
  }

  function SettleEach(db: Db, keys: seq<PositionKey>, day: int, price: int): Ran {
    if keys == [] then Ran(db, 0, 0)
    else SettleNext(SettleEach(db, keys[..|keys| - 1], day, price), keys[|keys| - 1], day, price)
  }

  predicate EachOnce(keys: seq<PositionKey>) {
    forall i, j :: 0 <= i < j < |keys| ==> keys[i] != keys[j]
  }

  lemma OneMore(keys: seq<PositionKey>, key: PositionKey)
    requires EachOnce(keys) && key !in keys
    ensures EachOnce(keys + [key]) && forall k :: k in keys + [key] <==> k == key || k in keys
  {
    var more := keys + [key];
    forall i, j | 0 <= i < j < |more|
      ensures more[i] != more[j]
    {
      assert more[i] == keys[i];
      assert keys[i] in keys;
    }
  }

  /** A contract done since was settled at its price; one done before keeps its row. */
  predicate Priced(before: map<DoneKey, DoneRow>, after: map<DoneKey, DoneRow>, prices: map<Symbol, int>) {
    && (forall k :: k in before ==> k in after && after[k] == before[k])
    && (forall k :: k in after && k !in before && k.symbol in prices ==> after[k].price == prices[k.symbol])
  }

  /** Part of the way through a contract: `order` was settled, `open` is still to come. */
  ghost predicate Halfway(before: Db, ran: Ran, s: Symbol, day: int, price: int, open: set<PositionKey>, order: seq<PositionKey>) {
    var all, left := OpenKeys(before.positions, s), OpenKeys(ran.db.positions, s);
    && open <= left <= all && PursesAllowed(ran.db.bank) && ran.db.processed >= before.processed
    && (forall key :: key in left - open ==> ClaimOf(key, day) in before.processed)
    && (forall key :: key in open && ClaimOf(key, day) in ran.db.processed ==> ClaimOf(key, day) in before.processed)
    && (forall key: PositionKey :: key.symbol != s ==> PositionAt(ran.db.positions, key) == PositionAt(before.positions, key))
    && ran.positions == |all| - |left| && EachOnce(order) && (forall key :: key in order <==> key in all - open)
  }

  lemma OneSettled(before: Db, ran: Ran, s: Symbol, day: int, price: int, open: set<PositionKey>, order: seq<PositionKey>, key: PositionKey)
    requires Halfway(before, ran, s, day, price, open, order) && SettleEach(before, order, day, price) == ran
    requires key in open && key.account in ran.db.bank.accounts
    ensures SettleEach(before, order + [key], day, price) == SettleNext(ran, key, day, price)
    ensures Halfway(before, SettleNext(ran, key, day, price), s, day, price, open - {key}, order + [key])
  {
    NextCloses(ran, s, day, price, key);
    OneMore(order, key);
    assert (order + [key])[..|order + [key]| - 1] == order;
    StaysHalfway(before, ran, s, day, price, open, order, key, SettleNext(ran, key, day, price));
  }

  lemma NextCloses(ran: Ran, s: Symbol, day: int, price: int, key: PositionKey)
    requires key.symbol == s && key in OpenKeys(ran.db.positions, s) && key.account in ran.db.bank.accounts && PursesAllowed(ran.db.bank)
    ensures SettlePosition(ran.db, s, day, price, key.account, key.row).Ok?
    ensures ClosesNext(ran, s, day, key, SettleNext(ran, key, day, price))
  {
    SettlePositionEffect(ran.db, s, day, price, key.account, key.row);
    StillOpen(ran.db, SettlePosition(ran.db, s, day, price, key.account, key.row).value, s, day, price, key);
  }

  /** One settlement claims its position and closes it unless that was claimed before; other contracts stay as they are. */
  ghost predicate ClosesNext(ran: Ran, s: Symbol, day: int, key: PositionKey, next: Ran) {
    var closed, left := ClaimOf(key, day) !in ran.db.processed, OpenKeys(ran.db.positions, s);
    && PursesAllowed(next.db.bank) && next.db.processed == ran.db.processed + {ClaimOf(key, day)}
    && OpenKeys(next.db.positions, s) == (if closed then left - {key} else left)
    && next.positions == (if closed then ran.positions + 1 else ran.positions)
    && forall other: PositionKey :: other.symbol != s ==> PositionAt(next.db.positions, other) == PositionAt(ran.db.positions, other)
  }

  lemma StaysHalfway(before: Db, ran: Ran, s: Symbol, day: int, price: int, open: set<PositionKey>, order: seq<PositionKey>, key: PositionKey, next: Ran)
    requires Halfway(before, ran, s, day, price, open, order) && key in open && ClosesNext(ran, s, day, key, next)
    requires EachOnce(order + [key]) && forall k :: k in order + [key] <==> k == key || k in order
    ensures Halfway(before, next, s, day, price, open - {key}, order + [key])
  {
  }

  class Service {
    var db: Db
    var done: map<DoneKey, DoneRow>

    constructor (db: Db)
      ensures this.db == db && done == map[]
    {
      this.db := db;
      done := map[];
    }

    /**
     * Settles the open positions of one contract one by one at the one price,
     * each once, in some order; what is committed before a failure stays.
     */
    method SettleOpen(s: Symbol, day: int, price: int) returns (r: Result<DoneRow>, ghost order: seq<PositionKey>)
      requires PursesAllowed(db.bank)
      modifies this`db
      ensures PursesAllowed(db.bank) && db.processed >= old(db).processed
      ensures forall key: PositionKey :: key.symbol != s ==> PositionAt(db.positions, key) == PositionAt(old(db).positions, key)
      ensures OpenKeys(db.positions, s) <= OpenKeys(old(db).positions, s)
      ensures r.Ok? ==> Closed(db, s, day, old(db).processed)
      ensures r.Ok? ==> r.value.price == price && r.value.positions == |OpenKeys(old(db).positions, s)| - |OpenKeys(db.positions, s)|
      ensures r.Ok? ==> r.value.positions == SettleEach(old(db), order, day, price).positions
      ensures r.Err? ==> r.error == MissingAccount
      ensures EachOnce(order) && db == SettleEach(old(db), order, day, price).db
      ensures forall key :: key in order ==> key in OpenKeys(old(db).positions, s)
      ensures r.Ok? ==> (forall key :: key in OpenKeys(old(db).positions, s) ==> key in order)
      ensures r.Ok? ==> r.value.realizedTotal == SettleEach(old(db), order, day, price).realizedTotal
    {
      var open := OpenKeys(db.positions, s);
      var positions, total := 0, 0;
      order := [];
      while open != {}
        invariant Halfway(old(db), Ran(db, positions, total), s, day, price, open, order)
        invariant SettleEach(old(db), order, day, price) == Ran(db, positions, total)
        decreases |open|
      {
        var key :| key in open;
        if key.account !in db.bank.accounts {
          r := Err(MissingAccount);
          return;
        }
        OneSettled(old(db), Ran(db, positions, total), s, day, price, open, order, key);
        var settled := SettlePosition(db, s, day, price, key.account, key.row).value;
        order := order + [key];
        db := settled.db;
        if settled.realized.Some? {
          positions, total := positions + 1, total + settled.realized.value;
        }
        open := open - {key};
      }
      r := Ok(DoneRow(price, positions, total));
    }

    /** One contract of the day: nothing if it is done, a failure if it has open positions but no price. */
    method SettleContract(s: Symbol, day: int, price: Option<int>) returns (r: Result<bool>, ghost order: seq<PositionKey>)
      requires PursesAllowed(db.bank)
      modifies this
      ensures PursesAllowed(db.bank) && db.processed >= old(db).processed
      ensures DoneKey(s, day) in old(done) ==> r == Ok(false) && db == old(db) && done == old(done)
      ensures r.Ok? ==> DoneKey(s, day) in done && done == old(done)[DoneKey(s, day) := done[DoneKey(s, day)]]
      ensures r.Ok? && DoneKey(s, day) !in old(done) ==> Closed(db, s, day, old(db).processed)
      ensures r.Err? ==> done == old(done)
      ensures price.None? && OpenKeys(old(db).positions, s) != {} && DoneKey(s, day) !in old(done) ==> r == Err(MissingPrice)
      ensures price.None? ==> db == old(db)
      ensures price.Some? && DoneKey(s, day) !in old(done) ==> db == SettleEach(old(db), order, day, price.value).db
      ensures price.Some? && DoneKey(s, day) !in old(done) && r.Ok? ==>
        var ran := SettleEach(old(db), order, day, price.value);
        && EachOnce(order) && (forall key :: key in order <==> key in OpenKeys(old(db).positions, s))
        && done[DoneKey(s, day)] == DoneRow(price.value, ran.positions, ran.realizedTotal)
      ensures forall key: PositionKey :: key.symbol != s ==> PositionAt(db.positions, key) == PositionAt(old(db).positions, key)
    {
      order := [];
      if DoneKey(s, day) in done {
        r := Ok(false);
        return;
      }
      var row: DoneRow;
      if price.None? {
        if OpenKeys(db.positions, s) != {} {
          r := Err(MissingPrice);
          return;
        }
        row := DoneRow(0, 0, 0);
      } else {
        var settled;
        settled, order := SettleOpen(s, day, price.value);
        if settled.Err? {
          r := Err(settled.error);
          return;
        }
        row := settled.value;
      }
      done := done[DoneKey(s, day) := row];
      r := Ok(true);
    }

    /** The whole day. Calling it again once every contract is done changes nothing. */
    method Settle(day: int, contracts: seq<Symbol>, prices: map<Symbol, int>) returns (r: Result<bool>)
      requires PursesAllowed(db.bank)
      modifies this
      ensures PursesAllowed(db.bank) && db.processed >= old(db).processed
      ensures r.Ok? ==> forall i :: 0 <= i < |contracts| ==> DoneKey(contracts[i], day) in done
      ensures (forall i :: 0 <= i < |contracts| ==> DoneKey(contracts[i], day) in old(done)) ==>
        r.Ok? && db == old(db) && done == old(done)
      ensures old(done).Keys <= done.Keys
      ensures Priced(old(done), done, prices)
    {
      for i := 0 to |contracts|
        invariant PursesAllowed(db.bank) && db.processed >= old(db).processed
        invariant forall j :: 0 <= j < i ==> DoneKey(contracts[j], day) in done
        invariant (forall j :: 0 <= j < |contracts| ==> DoneKey(contracts[j], day) in old(done)) ==> db == old(db) && done == old(done)
        invariant old(done).Keys <= done.Keys
        invariant Priced(old(done), done, prices)
      {
        var s := contracts[i];
        var settled, order := SettleContract(s, day, if s in prices then Some(prices[s]) else None);
        if settled.Err? {
          return Err(settled.error);
        }
      }
      r := Ok(true);
    }
  }

  /** One settlement closes its own position, or finds it claimed, and touches no other. */
  lemma StillOpen(before: Db, settled: Expired, s: Symbol, day: int, price: int, key: PositionKey)
    requires key.symbol == s && key in OpenKeys(before.positions, s) && key.account in before.bank.accounts && PursesAllowed(before.bank)
    requires SettlePosition(before, s, day, price, key.account, key.row) == Ok(settled)
    ensures settled.db.processed == before.processed + {ClaimOf(key, day)}
    ensures settled.realized.Some? <==> ClaimOf(key, day) !in before.processed
    ensures OpenKeys(settled.db.positions, s) == if settled.realized.Some? then OpenKeys(before.positions, s) - {key} else OpenKeys(before.positions, s)
    ensures forall other: PositionKey :: other.symbol != s ==> PositionAt(settled.db.positions, other) == PositionAt(before.positions, other)
  {
    SettlePositionEffect(before, s, day, price, key.account, key.row);
    assert key == PositionKey(key.account, s, key.row);
  }
}
