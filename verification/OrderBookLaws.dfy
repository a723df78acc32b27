/**
 * What a sound book is, and what one placement does to it: shares are conserved
 * order by order, closes are exact, and the book stays ordered and uncrossed.
 */
module OrderBookLaws {
  import opened Common
  import opened OrderBook

  // ---------------------------------------------------------------- sound books

  /** Price priority, then arrival. */
  predicate Before(side: Side, a: Resting, b: Resting) {
    Better(side, a.price, b.price) || (a.price == b.price && a.seqNo < b.seqNo)
  }

  predicate Sorted(list: seq<Resting>, side: Side) {
    forall i, j :: 0 <= i < j < |list| ==> Before(side, list[i], list[j])
  }

  predicate Uncrossed(bids: seq<Resting>, asks: seq<Resting>) {
    forall i, j :: 0 <= i < |bids| && 0 <= j < |asks| ==> bids[i].price < asks[j].price
  }

  predicate LiveOn(list: seq<Resting>, side: Side, seqNo: nat) {
    forall i :: 0 <= i < |list| ==>
      list[i].side == side && 0 < list[i].qty <= list[i].totalQty && list[i].seqNo <= seqNo
  }

  predicate Distinct(list: seq<Resting>) {
    forall i, j :: 0 <= i < j < |list| ==> list[i].orderId != list[j].orderId
  }

  function Ids(list: seq<Resting>): set<OrderId> {
    set o | o in list :: o.orderId
  }

  function BookIds(b: Book): set<OrderId> {
    Ids(b.bids) + Ids(b.asks)
  }

  predicate Sound(b: Book) {
    && Sorted(b.bids, Buy) && Sorted(b.asks, Sell)
    && Uncrossed(b.bids, b.asks)
    && LiveOn(b.bids, Buy, b.seqNo) && LiveOn(b.asks, Sell, b.seqNo)
    && Distinct(b.bids) && Distinct(b.asks)
    && Ids(b.bids) !! Ids(b.asks)
  }

  // ---------------------------------------------------------------- sums

  function ShareOf(fill: Fill, id: OrderId): nat {
    (if fill.makerOrderId == id then fill.qty else 0) + (if fill.takerOrderId == id then fill.qty else 0)
  }

  /** Shares of one order in a list of fills, on whichever side of the fill it stands. */
  function FilledQty(fills: seq<Fill>, id: OrderId): nat {
    if fills == [] then 0 else ShareOf(fills[0], id) + FilledQty(fills[1..], id)
  }

  function QtyOf(list: seq<Resting>, id: OrderId): nat {
    if list == [] then 0 else (if list[0].orderId == id then list[0].qty else 0) + QtyOf(list[1..], id)
  }

  function BookQty(b: Book, id: OrderId): nat {
    QtyOf(b.bids, id) + QtyOf(b.asks, id)
  }

  lemma {:induction false} FilledQtyAppend(a: seq<Fill>, b: seq<Fill>, id: OrderId)
    ensures FilledQty(a + b, id) == FilledQty(a, id) + FilledQty(b, id)
  {
    if a == [] {
      assert a + b == b;
    } else {
      assert (a + b)[1..] == a[1..] + b;
      FilledQtyAppend(a[1..], b, id);
    }
  }

  lemma {:induction false} QtyOfAppend(a: seq<Resting>, b: seq<Resting>, id: OrderId)
    ensures QtyOf(a + b, id) == QtyOf(a, id) + QtyOf(b, id)
  {
    if a == [] {
      assert a + b == b;
    } else {
      assert (a + b)[1..] == a[1..] + b;
      QtyOfAppend(a[1..], b, id);
    }
  }

  lemma {:induction false} QtyOfAbsent(list: seq<Resting>, id: OrderId)
    requires id !in Ids(list)
    ensures QtyOf(list, id) == 0
  {
    if list != [] {
      assert list[0] in list;
      QtyOfAbsent(list[1..], id);
    }
  }

  /** In a list without repeated ids, an order's share is the quantity of its one row. */
  lemma {:induction false} QtyOfRow(list: seq<Resting>, i: nat)
    requires i < |list| && Distinct(list)
    ensures QtyOf(list, list[i].orderId) == list[i].qty
  {
    if i == 0 {
      QtyOfAbsent(list[1..], list[0].orderId);
    } else {
      QtyOfRow(list[1..], i - 1);
    }
  }

  // ---------------------------------------------------------------- one matching loop

  /** `rest` is what remains of `opp` once its first makers are gone and the next one perhaps reduced. */
  predicate Trimmed(rest: seq<Resting>, opp: seq<Resting>) {
    |rest| <= |opp| &&
    var d := |opp| - |rest|;
    rest == opp[d..] ||
    (rest != [] && 0 < rest[0].qty <= opp[d].qty && rest[0] == opp[d].(qty := rest[0].qty) && rest[1..] == opp[d + 1..])
  }

  lemma {:induction false} MatchTrims(opp: seq<Resting>, inc: Incoming, remaining: nat, last: Option<int>)
    ensures Trimmed(Match(opp, inc, remaining, last).opposite, opp)
  {
    if remaining == 0 || opp == [] || !Crosses(inc, opp[0]) || opp[0].accountId == inc.accountId {
    } else if remaining >= opp[0].qty {
      MatchTrims(opp[1..], inc, remaining - opp[0].qty, Some(opp[0].price));
    }
  }

  /** Why the loop stopped, and that no fill pairs an account with itself or passes the price bound. */
  lemma {:induction false} MatchStops(opp: seq<Resting>, inc: Incoming, remaining: nat, last: Option<int>)
    ensures
      var m := Match(opp, inc, remaining, last);
      && (m.remaining > 0 && m.opposite != [] ==> m.selfHit == Allowed(inc, m.opposite[0].price))
      && (m.selfHit ==> m.opposite != [] && m.opposite[0].accountId == inc.accountId)
      && (forall f :: f in m.fills ==> ByTaker(f, inc))
      && m.lastPrice == if m.fills == [] then last else Some(m.fills[|m.fills| - 1].price)
  {
    if remaining == 0 || opp == [] || !Crosses(inc, opp[0]) || opp[0].accountId == inc.accountId {
    } else if remaining >= opp[0].qty {
      MatchStops(opp[1..], inc, remaining - opp[0].qty, Some(opp[0].price));
    }
  }

  /** A fill of the incoming order, within its price bound, against somebody else. */
  predicate ByTaker(f: Fill, inc: Incoming) {
    && f.takerOrderId == inc.orderId && f.takerAccountId == inc.accountId && f.takerSide == inc.side
    && f.makerAccountId != inc.accountId
    && Allowed(inc, f.price)
  }

  /** A price the incoming order may trade at. */
  predicate Allowed(inc: Incoming, price: int) {
    match Bound(inc.kind)
    case None => true
    case Some(p) => if inc.side == Buy then price <= p else price >= p
  }

  /** Every share a maker loses is in a fill, and so is every share the incoming order gains. */
  lemma {:induction false} MatchConserves(opp: seq<Resting>, inc: Incoming, remaining: nat, last: Option<int>, id: OrderId)
    requires inc.orderId !in Ids(opp)
    ensures
      var m := Match(opp, inc, remaining, last);
      if id == inc.orderId then FilledQty(m.fills, id) + m.remaining == remaining
      else FilledQty(m.fills, id) + QtyOf(m.opposite, id) == QtyOf(opp, id)
  {
    if remaining == 0 || opp == [] || !Crosses(inc, opp[0]) || opp[0].accountId == inc.accountId {
    } else {
      assert opp[0] in opp;
      if remaining >= opp[0].qty {
        assert forall o :: o in opp[1..] ==> o in opp;
        MatchConserves(opp[1..], inc, remaining - opp[0].qty, Some(opp[0].price), id);
        FillThen(opp[0], inc, opp[0].qty, Match(opp[1..], inc, remaining - opp[0].qty, Some(opp[0].price)).fills, id);
      } else {
        FillThen(opp[0], inc, remaining, [], id);
        assert [FillOf(opp[0], inc, remaining)] + [] == [FillOf(opp[0], inc, remaining)];
        QtyCons(opp[0].(qty := opp[0].qty - remaining), opp[1..], id);
      }
    }
  }

  lemma FillThen(maker: Resting, inc: Incoming, qty: nat, fills: seq<Fill>, id: OrderId)
    requires maker.orderId != inc.orderId
    ensures FilledQty([FillOf(maker, inc, qty)] + fills, id) == FilledQty(fills, id) + if id == maker.orderId || id == inc.orderId then qty else 0
  {
    assert ([FillOf(maker, inc, qty)] + fills)[1..] == fills;
  }

  lemma QtyCons(o: Resting, list: seq<Resting>, id: OrderId)
    ensures QtyOf([o] + list, id) == QtyOf(list, id) + if o.orderId == id then o.qty else 0
  {
    assert ([o] + list)[1..] == list;
  }

  // ---------------------------------------------------------------- placements keep the book sound

  lemma TrimKeeps(rest: seq<Resting>, opp: seq<Resting>, side: Side, seqNo: nat)
    requires Trimmed(rest, opp) && Sorted(opp, side) && LiveOn(opp, side, seqNo) && Distinct(opp)
    ensures Sorted(rest, side) && LiveOn(rest, side, seqNo) && Distinct(rest)
    ensures Ids(rest) <= Ids(opp)
    ensures forall i :: 0 <= i < |rest| ==>
      var o := opp[|opp| - |rest| + i]; rest[i] == o.(qty := rest[i].qty) && rest[i].qty <= o.qty
  {
    var d := |opp| - |rest|;
    forall i | 0 <= i < |rest|
      ensures rest[i] == opp[d + i].(qty := rest[i].qty) && rest[i].qty <= opp[d + i].qty
      ensures rest[i].orderId in Ids(opp) && 0 < rest[i].qty
    {
      if i > 0 && rest != opp[d..] {
        assert rest[i] == rest[1..][i - 1];
      }
      assert opp[d + i] in opp;
    }
  }

  lemma {:induction false} InsertPosIs(list: seq<Resting>, side: Side, price: int)
    ensures
      var p := InsertPos(list, side, price);
      && (forall k :: 0 <= k < p ==> Better(side, list[k].price, price) || list[k].price == price)
      && (p < |list| ==> Better(side, price, list[p].price))
  {
    if list != [] && (Better(side, list[0].price, price) || list[0].price == price) {
      InsertPosIs(list[1..], side, price);
    }
  }

  lemma InsertKeepsOrder(list: seq<Resting>, o: Resting)
    requires Sorted(list, o.side) && forall k :: 0 <= k < |list| ==> list[k].seqNo < o.seqNo
    ensures Sorted(Insert(list, o), o.side)
  {
    InsertPosIs(list, o.side, o.price);
    var p := InsertPos(list, o.side, o.price);
    forall k | 0 <= k < |list|
      ensures if k < p then Before(o.side, list[k], o) else Before(o.side, o, list[k])
    {
      if k > p { assert Before(o.side, list[p], list[k]); }
    }
  }

  lemma InsertKeepsRows(list: seq<Resting>, o: Resting, seqNo: nat)
    requires LiveOn(list, o.side, seqNo) && Distinct(list)
    requires o.orderId !in Ids(list) && o.seqNo == seqNo + 1 && 0 < o.qty <= o.totalQty
    ensures LiveOn(Insert(list, o), o.side, seqNo + 1) && Distinct(Insert(list, o))
  {
    forall k | 0 <= k < |list| ensures list[k].orderId != o.orderId {
      assert list[k] in list;
    }
  }

  lemma InsertElements(list: seq<Resting>, o: Resting)
    ensures forall r :: r in Insert(list, o) <==> r in list || r == o
    ensures Ids(Insert(list, o)) == Ids(list) + {o.orderId}
  {
    var p := InsertPos(list, o.side, o.price);
    var all := Insert(list, o);
    assert list == list[..p] + list[p..];
    assert o == all[p];
    forall r | r in list ensures r in all {
      var k :| 0 <= k < |list| && list[k] == r;
      assert r == if k < p then all[k] else all[k + 1];
    }
  }

  predicate SoundSides(own: seq<Resting>, opp: seq<Resting>, side: Side, seqNo: nat) {
    && Sorted(own, side) && Sorted(opp, Opposite(side))
    && Apart(own, opp, side)
    && LiveOn(own, side, seqNo) && LiveOn(opp, Opposite(side), seqNo)
    && Distinct(own) && Distinct(opp) && Ids(own) !! Ids(opp)
  }

  lemma SoundFrom(b: Book, side: Side)
    ensures Sound(b) <==> SoundSides(SideOf(b, side), SideOf(b, Opposite(side)), side, b.seqNo)
  {
  }

  lemma MatchKeepsSides(own: seq<Resting>, opp: seq<Resting>, inc: Incoming, last: Option<int>, seqNo: nat)
    requires SoundSides(own, opp, inc.side, seqNo)
    ensures
      var m := Match(opp, inc, inc.qty, last);
      SoundSides(own, m.opposite, inc.side, seqNo) && Ids(m.opposite) <= Ids(opp)
  {
    var m := Match(opp, inc, inc.qty, last);
    MatchTrims(opp, inc, inc.qty, last);
    TrimKeeps(m.opposite, opp, Opposite(inc.side), seqNo);
  }

  /** The ending that rests the remainder, and the endings that do not. */
  predicate Rests(inc: Incoming, m: Outcome) {
    !m.selfHit && m.remaining > 0 && inc.kind.Limit?
  }

  lemma FinishSides(b: Book, inc: Incoming, m: Outcome)
    requires m.remaining <= inc.qty && (m.selfHit ==> m.remaining > 0)
    ensures
      var after := Finish(b, inc, m).book;
      && SideOf(after, Opposite(inc.side)) == m.opposite
      && (if Rests(inc, m) then
            SideOf(after, inc.side) == Insert(SideOf(b, inc.side), RestingOf(inc, m.remaining, b.seqNo + 1)) && after.seqNo == b.seqNo + 1
          else
            SideOf(after, inc.side) == SideOf(b, inc.side) && after.seqNo == b.seqNo)
    ensures
      Finish(b, inc, m).result ==
      if Rests(inc, m) then MatchResult(m.fills, m.remaining, 0, m.closed)
      else
        var status := if m.remaining == 0 then Filled else Canceled;
        MatchResult(m.fills, 0, m.remaining, m.closed + [TakerClose(inc, inc.qty - m.remaining, status)])
  {
  }

  /** The price lies beyond the limit, or beyond the bound of a market order that has one. */
  predicate OutOfReach(inc: Incoming, price: int) {
    match inc.kind
    case Market(None) => false
    case Market(Some(bound)) => if inc.side == Buy then price > bound else price < bound
    case Limit(limit) => if inc.side == Buy then price > limit else price < limit
  }

  /**
   * An order is left unfilled only when nothing it may trade with remains: the
   * other side is empty, or its best price is out of reach, or that best order
   * is the account's own. In that last case, and for every market order, the
   * rest is canceled; otherwise it rests.
   */
  lemma LeftoverHasNoCounterparty(b: Book, inc: Incoming)
    ensures
      var p := Place(b, inc);
      var opp := SideOf(p.book, Opposite(inc.side));
      && (p.result.restingQty + p.result.canceledQty > 0 ==>
            opp == [] || OutOfReach(inc, opp[0].price) || opp[0].accountId == inc.accountId)
      && (p.result.restingQty > 0 ==> inc.kind.Limit? && (opp == [] || OutOfReach(inc, opp[0].price)))
      && (p.result.canceledQty > 0 ==>
            inc.kind.Market? || (opp != [] && opp[0].accountId == inc.accountId && !OutOfReach(inc, opp[0].price)))
  {
    var opp := SideOf(b, Opposite(inc.side));
    var m := Match(opp, inc, inc.qty, b.lastPrice);
    MatchStops(opp, inc, inc.qty, b.lastPrice);
    FinishSides(b, inc, m);
  }

  lemma PlaceSound(b: Book, inc: Incoming)
    requires Sound(b) && inc.qty > 0 && inc.orderId !in BookIds(b)
    ensures Sound(Place(b, inc).book)
  {
    var m := Match(SideOf(b, Opposite(inc.side)), inc, inc.qty, b.lastPrice);
    FinishSides(b, inc, m);
    MatchedSound(b, inc);
    SoundFrom(Place(b, inc).book, inc.side);
  }

  lemma MatchedSound(b: Book, inc: Incoming)
    requires Sound(b) && inc.qty > 0 && inc.orderId !in BookIds(b)
    ensures
      var own, opp := SideOf(b, inc.side), SideOf(b, Opposite(inc.side));
      var m := Match(opp, inc, inc.qty, b.lastPrice);
      && (!Rests(inc, m) ==> SoundSides(own, m.opposite, inc.side, b.seqNo))
      && (Rests(inc, m) ==> SoundSides(Insert(own, RestingOf(inc, m.remaining, b.seqNo + 1)), m.opposite, inc.side, b.seqNo + 1))
  {
    var own, opp := SideOf(b, inc.side), SideOf(b, Opposite(inc.side));
    var m := Match(opp, inc, inc.qty, b.lastPrice);
    SoundFrom(b, inc.side);
    MatchKeepsSides(own, opp, inc, b.lastPrice, b.seqNo);
    if Rests(inc, m) {
      MatchStops(opp, inc, inc.qty, b.lastPrice);
      RestSound(own, m.opposite, RestingOf(inc, m.remaining, b.seqNo + 1), b.seqNo);
    }
  }

  lemma RestSound(own: seq<Resting>, opp: seq<Resting>, o: Resting, seqNo: nat)
    requires SoundSides(own, opp, o.side, seqNo)
    requires o.orderId !in Ids(own) + Ids(opp) && o.seqNo == seqNo + 1 && 0 < o.qty <= o.totalQty
    requires opp != [] ==> Better(o.side, opp[0].price, o.price)
    ensures SoundSides(Insert(own, o), opp, o.side, seqNo + 1)
  {
    InsertKeepsOrder(own, o);
    InsertKeepsRows(own, o, seqNo);
    InsertElements(own, o);
    LiveLater(opp, Opposite(o.side), seqNo);
    RestsUncrossed(own, opp, o);
  }

  lemma LiveLater(list: seq<Resting>, side: Side, seqNo: nat)
    requires LiveOn(list, side, seqNo)
    ensures LiveOn(list, side, seqNo + 1)
  {
  }

  predicate Apart(own: seq<Resting>, opp: seq<Resting>, side: Side) {
    if side == Buy then Uncrossed(own, opp) else Uncrossed(opp, own)
  }

  /** An order that no longer crosses the best opposite price crosses none of them. */
  lemma RestsUncrossed(own: seq<Resting>, opp: seq<Resting>, o: Resting)
    requires Sorted(opp, Opposite(o.side)) && Apart(own, opp, o.side)
    requires opp != [] ==> Better(o.side, opp[0].price, o.price)
    ensures Apart(Insert(own, o), opp, o.side)
  {
  }

  // ---------------------------------------------------------------- what one placement does, order by order

  predicate InBook(b: Book, o: Resting) {
    o in b.bids || o in b.asks
  }

  lemma QtyOfInsert(list: seq<Resting>, o: Resting, id: OrderId)
    ensures QtyOf(Insert(list, o), id) == QtyOf(list, id) + if o.orderId == id then o.qty else 0
  {
    var p := InsertPos(list, o.side, o.price);
    QtyOfAppend(list[..p], list[p..], id);
    QtyOfAppend(list[..p] + [o], list[p..], id);
    QtyOfAppend(list[..p], [o], id);
    assert list == list[..p] + list[p..];
  }

  lemma BookQtySides(b: Book, side: Side, id: OrderId)
    ensures BookQty(b, id) == QtyOf(SideOf(b, side), id) + QtyOf(SideOf(b, Opposite(side)), id)
  {
  }

  lemma PlaceConserves(b: Book, inc: Incoming, id: OrderId)
    requires inc.orderId !in BookIds(b)
    ensures
      var p := Place(b, inc);
      if id == inc.orderId then
        && FilledQty(p.result.fills, id) + p.result.restingQty + p.result.canceledQty == inc.qty
        && BookQty(p.book, id) == p.result.restingQty
      else FilledQty(p.result.fills, id) + BookQty(p.book, id) == BookQty(b, id)
  {
    var own, opp := SideOf(b, inc.side), SideOf(b, Opposite(inc.side));
    var m := Match(opp, inc, inc.qty, b.lastPrice);
    FinishSides(b, inc, m);
    BookQtySides(b, inc.side, id);
    BookQtySides(Place(b, inc).book, inc.side, id);
    MatchConserves(opp, inc, inc.qty, b.lastPrice, id);
    if Rests(inc, m) {
      QtyOfInsert(own, RestingOf(inc, m.remaining, b.seqNo + 1), id);
    }
    if id == inc.orderId {
      NewOrderAbsent(own, opp, inc, b.lastPrice);
    }
  }

  lemma NewOrderAbsent(own: seq<Resting>, opp: seq<Resting>, inc: Incoming, last: Option<int>)
    requires inc.orderId !in Ids(own) + Ids(opp)
    ensures QtyOf(own, inc.orderId) == QtyOf(Match(opp, inc, inc.qty, last).opposite, inc.orderId) == 0
  {
    var m := Match(opp, inc, inc.qty, last);
    MatchTrims(opp, inc, inc.qty, last);
    TrimIds(m.opposite, opp);
    QtyOfAbsent(own, inc.orderId);
    QtyOfAbsent(m.opposite, inc.orderId);
  }

  lemma TrimIds(rest: seq<Resting>, opp: seq<Resting>)
    requires Trimmed(rest, opp)
    ensures Ids(rest) <= Ids(opp)
    ensures forall o :: o in rest ==> exists p :: p in opp && o == p.(qty := o.qty)
  {
    var d := |opp| - |rest|;
    forall i | 0 <= i < |rest| ensures opp[d + i] in opp && rest[i] == opp[d + i].(qty := rest[i].qty) {
      if i > 0 && rest != opp[d..] {
        assert rest[i] == rest[1..][i - 1];
      }
    }
    forall o | o in rest ensures exists p :: p in opp && o == p.(qty := o.qty) {
      var i :| 0 <= i < |rest| && rest[i] == o;
      assert opp[d + i] in opp;
    }
  }

  /** Rows keep their identity and terms: only quantities shrink, and only the new order is added. */
  lemma PlaceRows(b: Book, inc: Incoming, o: Resting)
    requires InBook(Place(b, inc).book, o)
    ensures
      || (o.orderId == inc.orderId && o.accountId == inc.accountId && o.side == inc.side && o.totalQty == inc.qty
          && inc.kind == Limit(o.price))
      || exists p :: InBook(b, p) && o == p.(qty := o.qty)
  {
    var own, opp := SideOf(b, inc.side), SideOf(b, Opposite(inc.side));
    var m := Match(opp, inc, inc.qty, b.lastPrice);
    FinishSides(b, inc, m);
    MatchTrims(opp, inc, inc.qty, b.lastPrice);
    TrimIds(m.opposite, opp);
    if o in m.opposite {
      var p :| p in opp && o == p.(qty := o.qty);
      assert InBook(b, p);
    } else if Rests(inc, m) {
      InsertElements(own, RestingOf(inc, m.remaining, b.seqNo + 1));
      if o in own { assert InBook(b, o) && o == o.(qty := o.qty); }
    } else {
      assert InBook(b, o) && o == o.(qty := o.qty);
    }
  }

  predicate DistinctCloses(closes: seq<Closed>) {
    forall i, j :: 0 <= i < j < |closes| ==> closes[i].orderId != closes[j].orderId
  }

  function ClosedIds(closes: seq<Closed>): set<OrderId> {
    set c | c in closes :: c.orderId
  }

  /** A close is the taker's, with exactly what this placement filled, or that of a maker taken whole. */
  ghost predicate ExactClose(c: Closed, b: Book, inc: Incoming, fills: seq<Fill>) {
    if c.orderId == inc.orderId then
      && c.accountId == inc.accountId && c.side == inc.side
      && c.filledQty == FilledQty(fills, inc.orderId) <= inc.qty
      && (c.status == Filled <==> c.filledQty == inc.qty)
    else exists p :: InBook(b, p) && c == MakerClose(p)
  }

  lemma IdsCons(list: seq<Resting>)
    requires list != []
    ensures Ids(list) == {list[0].orderId} + Ids(list[1..])
  {
    assert forall o :: o in list <==> o == list[0] || o in list[1..];
  }

  lemma ClosedIdsCons(c: Closed, closes: seq<Closed>)
    ensures ClosedIds([c] + closes) == {c.orderId} + ClosedIds(closes)
  {
    assert forall d :: d in [c] + closes <==> d == c || d in closes;
  }

  lemma {:induction false} MatchIds(opp: seq<Resting>, inc: Incoming, remaining: nat, last: Option<int>)
    requires Distinct(opp)
    ensures
      var m := Match(opp, inc, remaining, last);
      && ClosedIds(m.closed) == Ids(opp) - Ids(m.opposite)
      && Ids(m.opposite) <= Ids(opp)
      && DistinctCloses(m.closed)
      && forall c :: c in m.closed ==> exists p :: p in opp && c == MakerClose(p)
  {
    if remaining == 0 || opp == [] || !Crosses(inc, opp[0]) || opp[0].accountId == inc.accountId {
    } else {
      var m := Match(opp, inc, remaining, last);
      if remaining < opp[0].qty {
        IdsCons(opp);
        IdsCons(m.opposite);
      } else {
        var n := Match(opp[1..], inc, remaining - opp[0].qty, Some(opp[0].price));
        MatchIds(opp[1..], inc, remaining - opp[0].qty, Some(opp[0].price));
        HeadCloses(opp, n.closed, n.opposite);
      }
    }
  }

  /** The front maker closes before those behind it. */
  lemma HeadCloses(opp: seq<Resting>, closed: seq<Closed>, left: seq<Resting>)
    requires opp != [] && Distinct(opp) && ClosedIds(closed) == Ids(opp[1..]) - Ids(left) && Ids(left) <= Ids(opp[1..]) && DistinctCloses(closed)
    requires forall c :: c in closed ==> exists p :: p in opp[1..] && c == MakerClose(p)
    ensures
      var all := [MakerClose(opp[0])] + closed;
      && ClosedIds(all) == Ids(opp) - Ids(left) && Ids(left) <= Ids(opp) && DistinctCloses(all)
      && forall c :: c in all ==> exists p :: p in opp && c == MakerClose(p)
  {
    IdsCons(opp);
    HeadIsNew(opp);
    ClosedIdsCons(MakerClose(opp[0]), closed);
    assert forall i :: 0 <= i < |closed| ==> closed[i] in closed && closed[i].orderId in ClosedIds(closed);
    assert opp[0] in opp && forall p :: p in opp[1..] ==> p in opp;
  }

  lemma HeadIsNew(list: seq<Resting>)
    requires list != [] && Distinct(list)
    ensures list[0].orderId !in Ids(list[1..])
  {
    forall o | o in list[1..] ensures o.orderId != list[0].orderId {
      var k :| 0 <= k < |list[1..]| && list[1..][k] == o;
      assert o == list[k + 1];
    }
  }

  lemma BookIdsSides(b: Book, side: Side)
    ensures BookIds(b) == Ids(SideOf(b, side)) + Ids(SideOf(b, Opposite(side)))
    ensures forall o :: InBook(b, o) <==> o in SideOf(b, side) || o in SideOf(b, Opposite(side))
  {
  }

  lemma ClosedIdsSnoc(closes: seq<Closed>, c: Closed)
    ensures ClosedIds(closes + [c]) == ClosedIds(closes) + {c.orderId}
    ensures DistinctCloses(closes) && c.orderId !in ClosedIds(closes) ==> DistinctCloses(closes + [c])
  {
    assert forall d :: d in closes + [c] <==> d == c || d in closes;
    forall k | 0 <= k < |closes| ensures closes[k].orderId in ClosedIds(closes) {
      assert closes[k] in closes;
    }
  }

  /** An order is closed by the placement that takes it off the book, or that never rests it; each once. */
  lemma PlaceCloses(b: Book, inc: Incoming)
    requires Sound(b) && inc.orderId !in BookIds(b)
    ensures
      var p := Place(b, inc);
      && DistinctCloses(p.result.closedOrders)
      && ClosedIds(p.result.closedOrders) == BookIds(b) + {inc.orderId} - BookIds(p.book)
      && forall c :: c in p.result.closedOrders ==> ExactClose(c, b, inc, p.result.fills)
  {
    var own, opp := SideOf(b, inc.side), SideOf(b, Opposite(inc.side));
    var m := Match(opp, inc, inc.qty, b.lastPrice);
    var p := Place(b, inc);
    FinishSides(b, inc, m);
    SoundFrom(b, inc.side);
    MatchIds(opp, inc, inc.qty, b.lastPrice);
    MatchConserves(opp, inc, inc.qty, b.lastPrice, inc.orderId);
    BookIdsSides(b, inc.side);
    BookIdsSides(p.book, inc.side);
    if Rests(inc, m) {
      InsertElements(own, RestingOf(inc, m.remaining, b.seqNo + 1));
    } else {
      var status := if m.remaining == 0 then Filled else Canceled;
      ClosedIdsSnoc(m.closed, TakerClose(inc, inc.qty - m.remaining, status));
    }
    forall c | c in p.result.closedOrders ensures ExactClose(c, b, inc, p.result.fills) {
      if c in m.closed {
        var maker :| maker in opp && c == MakerClose(maker);
        assert InBook(b, maker) && maker.orderId in Ids(opp);
      }
    }
  }

  // ---------------------------------------------------------------- the history behind a book

  /** What a row has lost since it was placed is what the history of fills says. */
  ghost predicate Ledgered(b: Book, fills: seq<Fill>) {
    forall o :: InBook(b, o) ==> o.qty + FilledQty(fills, o.orderId) == o.totalQty
  }

  /** A close that reports exactly the shares its order ever traded. */
  predicate Truthful(c: Closed, fills: seq<Fill>, qty: nat) {
    && c.filledQty == FilledQty(fills, c.orderId) <= qty
    && (c.status == Filled <==> c.filledQty == qty)
  }

  lemma RowQty(b: Book, o: Resting)
    requires Sound(b) && InBook(b, o)
    ensures BookQty(b, o.orderId) == o.qty && o.orderId in BookIds(b)
  {
    var side := if o in b.bids then Buy else Sell;
    var list := SideOf(b, side);
    var i :| 0 <= i < |list| && list[i] == o;
    QtyOfRow(list, i);
    BookQtySides(b, side, o.orderId);
    assert o.orderId in Ids(list);
    QtyOfAbsent(SideOf(b, Opposite(side)), o.orderId);
  }

  lemma AbsentQty(b: Book, id: OrderId)
    requires id !in BookIds(b)
    ensures BookQty(b, id) == 0
  {
    QtyOfAbsent(b.bids, id);
    QtyOfAbsent(b.asks, id);
  }

  /**
   * Placing an order that has not traded yet extends the history of a sound
   * book: rows stay ledgered, its closes are truthful about the whole history,
   * and an order neither on the book nor incoming does not trade.
   */
  lemma PlaceExtends(b: Book, inc: Incoming, fills: seq<Fill>)
    requires Sound(b) && inc.qty > 0 && inc.orderId !in BookIds(b)
    requires Ledgered(b, fills) && FilledQty(fills, inc.orderId) == 0
    ensures
      var p := Place(b, inc);
      var all := fills + p.result.fills;
      && Ledgered(p.book, all)
      && (forall c :: c in p.result.closedOrders && c.orderId == inc.orderId ==> Truthful(c, all, inc.qty))
      && (forall c, o :: c in p.result.closedOrders && InBook(b, o) && o.orderId == c.orderId ==> Truthful(c, all, o.totalQty))
      && (forall id :: id != inc.orderId && id !in BookIds(b) ==> FilledQty(all, id) == FilledQty(fills, id))
  {
    var p := Place(b, inc);
    var all := fills + p.result.fills;
    PlaceSound(b, inc);
    PlaceCloses(b, inc);
    forall id ensures FilledQty(all, id) == FilledQty(fills, id) + FilledQty(p.result.fills, id) {
      FilledQtyAppend(fills, p.result.fills, id);
    }
    forall o | InBook(p.book, o) ensures o.qty + FilledQty(all, o.orderId) == o.totalQty {
      PlaceLedgersRow(b, inc, fills, o);
    }
    forall c, o | c in p.result.closedOrders && InBook(b, o) && o.orderId == c.orderId
      ensures Truthful(c, all, o.totalQty)
    {
      MakerCloseTruthful(b, inc, fills, c, o);
    }
    forall id | id != inc.orderId && id !in BookIds(b) ensures FilledQty(p.result.fills, id) == 0 {
      PlaceConserves(b, inc, id);
      AbsentQty(b, id);
    }
  }

  lemma PlaceLedgersRow(b: Book, inc: Incoming, fills: seq<Fill>, o: Resting)
    requires Sound(b) && inc.qty > 0 && inc.orderId !in BookIds(b)
    requires Ledgered(b, fills) && FilledQty(fills, inc.orderId) == 0
    requires InBook(Place(b, inc).book, o)
    ensures o.qty + FilledQty(fills, o.orderId) + FilledQty(Place(b, inc).result.fills, o.orderId) == o.totalQty
  {
    PlaceSound(b, inc);
    RowQty(Place(b, inc).book, o);
    PlaceConserves(b, inc, o.orderId);
    PlaceRows(b, inc, o);
    if o.orderId == inc.orderId {
      RestingNotCanceled(b, inc);
      forall p | InBook(b, p) ensures p.orderId != inc.orderId {
        RowQty(b, p);
      }
    } else {
      var p :| InBook(b, p) && o == p.(qty := o.qty);
      RowQty(b, p);
    }
  }

  lemma RestingNotCanceled(b: Book, inc: Incoming)
    ensures Place(b, inc).result.restingQty == 0 || Place(b, inc).result.canceledQty == 0
  {
  }

  lemma MakerCloseTruthful(b: Book, inc: Incoming, fills: seq<Fill>, c: Closed, o: Resting)
    requires Sound(b) && inc.qty > 0 && inc.orderId !in BookIds(b)
    requires Ledgered(b, fills) && InBook(b, o) && o.orderId == c.orderId && c in Place(b, inc).result.closedOrders
    ensures Truthful(c, fills + Place(b, inc).result.fills, o.totalQty)
  {
    var p := Place(b, inc);
    PlaceCloses(b, inc);
    RowQty(b, o);
    PlaceConserves(b, inc, o.orderId);
    FilledQtyAppend(fills, p.result.fills, o.orderId);
    assert c.orderId in ClosedIds(p.result.closedOrders);
    AbsentQty(p.book, c.orderId);
    var q :| InBook(b, q) && c == MakerClose(q);
    RowQty(b, q);
    SameRow(b, o, q);
  }

  lemma SameRow(b: Book, o: Resting, q: Resting)
    requires Sound(b) && InBook(b, o) && InBook(b, q) && o.orderId == q.orderId
    ensures o == q
  {
    var side := if o in b.bids then Buy else Sell;
    var list := SideOf(b, side);
    assert o.orderId in Ids(list);
    assert q !in SideOf(b, Opposite(side)) || q.orderId in Ids(SideOf(b, Opposite(side)));
    var i, j :| 0 <= i < |list| && 0 <= j < |list| && list[i] == o && list[j] == q;
  }

  // ---------------------------------------------------------------- cancels

  lemma RemoveAt(list: seq<Resting>, i: nat)
    requires i < |list| && Distinct(list)
    ensures
      var rest := list[..i] + list[i + 1..];
      && Distinct(rest) && Ids(rest) == Ids(list) - {list[i].orderId}
      && (forall o :: o in rest <==> o in list && o != list[i])
  {
    var rest := list[..i] + list[i + 1..];
    forall o | o in list && o != list[i] ensures o in rest && o.orderId != list[i].orderId {
      var k :| 0 <= k < |list| && list[k] == o;
      assert rest[if k < i then k else k - 1] == o;
    }
  }

  lemma RemoveSide(b: Book, side: Side, i: nat)
    requires Sound(b) && i < |SideOf(b, side)|
    ensures
      var list := SideOf(b, side);
      Sound(WithSide(b, side, list[..i] + list[i + 1..]))
  {
    var list, other := SideOf(b, side), SideOf(b, Opposite(side));
    var rest := list[..i] + list[i + 1..];
    SoundFrom(b, side);
    RemovedSides(list, other, side, b.seqNo, i);
    SoundFrom(WithSide(b, side, rest), side);
  }

  lemma RemovedSides(list: seq<Resting>, other: seq<Resting>, side: Side, seqNo: nat, i: nat)
    requires SoundSides(list, other, side, seqNo) && i < |list|
    ensures SoundSides(list[..i] + list[i + 1..], other, side, seqNo)
  {
    var rest := list[..i] + list[i + 1..];
    RemoveAt(list, i);
    forall k | 0 <= k < |rest| ensures rest[k] == list[if k < i then k else k + 1] {}
  }

  lemma RemoveRows(b: Book, side: Side, i: nat)
    requires Sound(b) && i < |SideOf(b, side)|
    ensures
      var list := SideOf(b, side);
      var id := list[i].orderId;
      var after := WithSide(b, side, list[..i] + list[i + 1..]);
      && id in BookIds(b) && BookIds(after) == BookIds(b) - {id}
      && (forall o :: InBook(after, o) <==> InBook(b, o) && o.orderId != id)
  {
    var list := SideOf(b, side);
    var after := WithSide(b, side, list[..i] + list[i + 1..]);
    RemoveAt(list, i);
    BookIdsSides(b, side);
    BookIdsSides(after, side);
    assert list[i] in list;
    forall o | InBook(b, o) && o.orderId == list[i].orderId ensures o == list[i] {
      SameRow(b, o, list[i]);
    }
    forall o | o in SideOf(b, Opposite(side)) ensures o.orderId != list[i].orderId {
      assert o.orderId in Ids(SideOf(b, Opposite(side)));
    }
    SoundFrom(b, side);
  }

  /** Canceling takes out exactly the named order, if it rests. */
  lemma WithoutEffects(b: Book, id: OrderId)
    requires Sound(b)
    ensures
      var w := Without(b, id);
      && Sound(w.book)
      && BookIds(w.book) == BookIds(b) - {id}
      && (w.order.Some? <==> id in BookIds(b))
      && (w.order.Some? ==> InBook(b, w.order.value) && w.order.value.orderId == id)
      && (forall o :: InBook(w.book, o) <==> InBook(b, o) && o.orderId != id)
      && w.book.lastPrice == b.lastPrice && w.book.seqNo == b.seqNo
  {
    var i, j := IndexOf(b.bids, id), IndexOf(b.asks, id);
    if i >= 0 {
      RemoveSide(b, Buy, i);
      RemoveRows(b, Buy, i);
    } else if j >= 0 {
      RemoveSide(b, Sell, j);
      RemoveRows(b, Sell, j);
    } else {
      AbsentRows(b, id);
    }
  }

  lemma AbsentRows(b: Book, id: OrderId)
    requires IndexOf(b.bids, id) < 0 && IndexOf(b.asks, id) < 0
    ensures id !in BookIds(b) && forall o :: InBook(b, o) ==> o.orderId != id
  {
  }

  // ---------------------------------------------------------------- who trades

  /** A fill of `inc` names a maker that was resting on the other side, at that maker's price. */
  ghost predicate FromBook(f: Fill, rows: seq<Resting>) {
    exists p :: p in rows && p.orderId == f.makerOrderId && p.accountId == f.makerAccountId && p.price == f.price
  }

  lemma {:induction false} MatchMakers(opp: seq<Resting>, inc: Incoming, remaining: nat, last: Option<int>)
    ensures forall f :: f in Match(opp, inc, remaining, last).fills ==> FromBook(f, opp)
  {
    if remaining == 0 || opp == [] || !Crosses(inc, opp[0]) || opp[0].accountId == inc.accountId {
    } else {
      assert opp[0] in opp;
      if remaining >= opp[0].qty {
        var n := Match(opp[1..], inc, remaining - opp[0].qty, Some(opp[0].price));
        MatchMakers(opp[1..], inc, remaining - opp[0].qty, Some(opp[0].price));
        forall f | f in n.fills ensures FromBook(f, opp) {
          var p :| p in opp[1..] && p.orderId == f.makerOrderId && p.accountId == f.makerAccountId && p.price == f.price;
          assert p in opp;
        }
      }
    }
  }

  /** Who the fills of one placement are between, and the price they leave as the last one. */
  lemma PlaceFills(b: Book, inc: Incoming)
    ensures
      var p := Place(b, inc);
      && (forall f :: f in p.result.fills ==> ByTaker(f, inc) && FromBook(f, SideOf(b, Opposite(inc.side))))
      && p.book.lastPrice == (if p.result.fills == [] then b.lastPrice else Some(p.result.fills[|p.result.fills| - 1].price))
  {
    var opp := SideOf(b, Opposite(inc.side));
    MatchStops(opp, inc, inc.qty, b.lastPrice);
    MatchMakers(opp, inc, inc.qty, b.lastPrice);
    FinishSides(b, inc, Match(opp, inc, inc.qty, b.lastPrice));
  }

  lemma PlaceIdsGrow(b: Book, inc: Incoming)
    ensures BookIds(Place(b, inc).book) <= BookIds(b) + {inc.orderId}
  {
    var p := Place(b, inc);
    forall o | InBook(p.book, o) ensures o.orderId in BookIds(b) + {inc.orderId} {
      PlaceRows(b, inc, o);
      if o.orderId != inc.orderId {
        var q :| InBook(b, q) && o == q.(qty := o.qty);
      }
    }
  }

  lemma ClosesAppend(a: seq<Closed>, b: seq<Closed>)
    requires DistinctCloses(a) && DistinctCloses(b) && ClosedIds(a) !! ClosedIds(b)
    ensures DistinctCloses(a + b) && ClosedIds(a + b) == ClosedIds(a) + ClosedIds(b)
  {
    forall i | 0 <= i < |a| ensures a[i].orderId in ClosedIds(a) { assert a[i] in a; }
    forall i | 0 <= i < |b| ensures b[i].orderId in ClosedIds(b) { assert b[i] in b; }
    assert forall c :: c in a + b <==> c in a || c in b;
  }

  lemma RowBelowTotal(b: Book, o: Resting)
    requires Sound(b) && InBook(b, o)
    ensures 0 < o.qty <= o.totalQty
  {
  }
}
