/**
 * The reference the matching loop is held to: price-time matching one share at
 * a time, where every share goes to the resting order that has priority among
 * all those resting, however they are stored.
 */
module OrderBookShares {
  import opened Common
  import opened OrderBook
  import opened OrderBookLaws
  import opened Iteration

  /** One share traded: which maker gave it, and at what price. */
  datatype Lot = Lot(price: int, makerOrderId: OrderId, makerAccountId: AccountId)

  /** The order that has priority on its side, found by looking at all of them. */
  function Best(opp: seq<Resting>, side: Side): (i: nat)
    requires opp != []
    ensures i < |opp|
  {
    if |opp| == 1 then 0
    else
      var i := 1 + Best(opp[1..], side);
      if Before(side, opp[i], opp[0]) then i else 0
  }

  function TakeOne(opp: seq<Resting>, i: nat): seq<Resting>
    requires i < |opp|
  {
    if opp[i].qty <= 1 then opp[..i] + opp[i + 1..]
    else opp[i := opp[i].(qty := opp[i].qty - 1)]
  }

  /** One share of the incoming order; nothing when the best quote is out of reach or its own. */
  function Step(opp: seq<Resting>, inc: Incoming): Option<(seq<Resting>, Lot)> {
    if opp == [] then None
    else
      var i := Best(opp, Opposite(inc.side));
      if OutOfReach(inc, opp[i].price) || opp[i].accountId == inc.accountId then None
      else Some((TakeOne(opp, i), LotOf(opp[i])))
  }

  function Stepper(inc: Incoming): seq<Resting> -> Option<(seq<Resting>, Lot)> {
    opp => Step(opp, inc)
  }

  /** `n` shares one after the other, until the order can take no more. */
  function ByShares(opp: seq<Resting>, inc: Incoming, n: nat): Trace<seq<Resting>, Lot> {
    Iterate(Stepper(inc), opp, n)
  }

  function LotOf(maker: Resting): Lot {
    Lot(maker.price, maker.orderId, maker.accountId)
  }

  function Lots(fills: seq<Fill>): seq<Lot> {
    if fills == [] then []
    else Copies(Lot(fills[0].price, fills[0].makerOrderId, fills[0].makerAccountId), fills[0].qty) + Lots(fills[1..])
  }

  // ---------------------------------------------------------------- refinement

  predicate Live(opp: seq<Resting>) {
    forall i :: 0 <= i < |opp| ==> opp[i].qty > 0
  }

  lemma {:induction false} BestIsHead(opp: seq<Resting>, side: Side)
    requires opp != [] && Sorted(opp, side)
    ensures Best(opp, side) == 0
  {
    if |opp| > 1 {
      BestIsHead(opp[1..], side);
      assert Before(side, opp[0], opp[1]);
    }
  }

  function Reduce(opp: seq<Resting>, q: nat): seq<Resting>
    requires opp != [] && q <= opp[0].qty
  {
    if q == opp[0].qty then opp[1..] else [opp[0].(qty := opp[0].qty - q)] + opp[1..]
  }

  lemma ReduceKeeps(opp: seq<Resting>, q: nat, side: Side)
    requires opp != [] && q < opp[0].qty && Live(opp) && Sorted(opp, side)
    ensures Live(Reduce(opp, q)) && Sorted(Reduce(opp, q), side)
  {
    forall i | 1 <= i < |opp| ensures Before(side, opp[0], opp[i]) {}
  }

  /** The next share comes from the head of a sorted list as long as the head has one. */
  lemma StepsHead(opp: seq<Resting>, inc: Incoming, q: nat)
    requires opp != [] && Live(opp) && Sorted(opp, Opposite(inc.side))
    requires q < opp[0].qty && Crosses(inc, opp[0]) && opp[0].accountId != inc.accountId
    ensures Step(Reduce(opp, q), inc) == Some((Reduce(opp, q + 1), LotOf(opp[0])))
  {
    var now := Reduce(opp, q);
    ReduceKeeps(opp, q, Opposite(inc.side));
    BestIsHead(now, Opposite(inc.side));
    assert TakeOne(now, 0) == Reduce(opp, q + 1);
  }

  function Reducer(opp: seq<Resting>): nat -> seq<Resting>
    requires opp != []
  {
    (j: nat) => if j <= opp[0].qty then Reduce(opp, j) else []
  }

  lemma HeadSteps(opp: seq<Resting>, inc: Incoming, q: nat)
    requires opp != [] && Live(opp) && Sorted(opp, Opposite(inc.side))
    requires q <= opp[0].qty && Crosses(inc, opp[0]) && opp[0].accountId != inc.accountId
    ensures Chain(Stepper(inc), Reducer(opp), LotOf(opp[0]), 0, q)
  {
    forall j: nat | 0 <= j < q
      ensures Stepper(inc)(Reducer(opp)(j)) == Some((Reducer(opp)(j + 1), LotOf(opp[0])))
    {
      StepsHead(opp, inc, j);
    }
  }

  /** Taking `q` shares of the best maker one by one is taking them at once. */
  lemma HeadInOneGo(opp: seq<Resting>, inc: Incoming, n: nat, q: nat)
    requires opp != [] && Live(opp) && Sorted(opp, Opposite(inc.side))
    requires q <= n && q <= opp[0].qty && Crosses(inc, opp[0]) && opp[0].accountId != inc.accountId
    ensures
      var rest := ByShares(Reduce(opp, q), inc, n - q);
      ByShares(opp, inc, n) == Trace(rest.state, Copies(LotOf(opp[0]), q) + rest.yielded, rest.left)
  {
    HeadSteps(opp, inc, q);
    ReducerAt(opp, 0);
    ReducerAt(opp, q);
    ChainFrom(opp, inc, Reducer(opp), LotOf(opp[0]), q, n, Reduce(opp, q));
  }

  lemma ChainFrom(opp: seq<Resting>, inc: Incoming, f: nat -> seq<Resting>, lot: Lot, q: nat, n: nat, reduced: seq<Resting>)
    requires q <= n && Chain(Stepper(inc), f, lot, 0, q) && f(0) == opp && f(q) == reduced
    ensures
      var rest := ByShares(reduced, inc, n - q);
      ByShares(opp, inc, n) == Trace(rest.state, Copies(lot, q) + rest.yielded, rest.left)
  {
    IterateChain(Stepper(inc), f, lot, 0, q, n);
  }

  lemma ReducerAt(opp: seq<Resting>, q: nat)
    requires opp != [] && q <= opp[0].qty && opp[0].qty > 0
    ensures Reducer(opp)(q) == Reduce(opp, q)
    ensures q == 0 ==> Reduce(opp, q) == opp
  {
  }

  /** The batched loop does exactly what share-by-share price-time matching does. */
  lemma {:induction false} MatchRefinesShares(opp: seq<Resting>, inc: Incoming, remaining: nat, last: Option<int>)
    requires Live(opp) && Sorted(opp, Opposite(inc.side))
    ensures
      var m := Match(opp, inc, remaining, last);
      ByShares(opp, inc, remaining) == Trace(m.opposite, Lots(m.fills), m.remaining)
  {
    if remaining > 0 && opp != [] {
      BestIsHead(opp, Opposite(inc.side));
      if Crosses(inc, opp[0]) && opp[0].accountId != inc.accountId {
        var q := Min(remaining, opp[0].qty);
        HeadInOneGo(opp, inc, remaining, q);
        if remaining < opp[0].qty {
          LotsOne(FillOf(opp[0], inc, remaining));
        } else {
          MatchRefinesShares(opp[1..], inc, remaining - q, Some(opp[0].price));
        }
      }
    }
  }

  lemma LotsOne(f: Fill)
    ensures Lots([f]) == Copies(Lot(f.price, f.makerOrderId, f.makerAccountId), f.qty)
  {
  }

  // ---------------------------------------------------------------- splitting an order

  predicate SameTerms(x: Incoming, y: Incoming) {
    x.accountId == y.accountId && x.side == y.side && x.kind == y.kind
  }

  lemma {:induction false} TermsOnly(opp: seq<Resting>, x: Incoming, y: Incoming, n: nat)
    requires SameTerms(x, y)
    ensures ByShares(opp, x, n) == ByShares(opp, y, n)
    decreases n
  {
    assert Stepper(x)(opp) == Step(opp, x) == Step(opp, y) == Stepper(y)(opp);
    if n > 0 && Step(opp, x).Some? {
      TermsOnly(Step(opp, x).value.0, x, y, n - 1);
    }
  }

  function LastLot(lots: seq<Lot>, last: Option<int>): Option<int> {
    if lots == [] then last else Some(lots[|lots| - 1].price)
  }

  lemma {:induction false} LotsLast(fills: seq<Fill>)
    requires forall i :: 0 <= i < |fills| ==> fills[i].qty > 0
    ensures |Lots(fills)| > 0 <==> fills != []
    ensures fills != [] ==> Lots(fills)[|Lots(fills)| - 1].price == fills[|fills| - 1].price
  {
    if fills != [] {
      CopiesAre(Lot(fills[0].price, fills[0].makerOrderId, fills[0].makerAccountId), fills[0].qty);
      LotsLast(fills[1..]);
    }
  }

  lemma {:induction false} CopiesAre(lot: Lot, n: nat)
    ensures |Copies(lot, n)| == n && forall i :: 0 <= i < n ==> Copies(lot, n)[i] == lot
  {
    if n > 0 { CopiesAre(lot, n - 1); }
  }

  lemma {:induction false} MatchFillsPositive(opp: seq<Resting>, inc: Incoming, remaining: nat, last: Option<int>)
    requires Live(opp)
    ensures forall i :: 0 <= i < |Match(opp, inc, remaining, last).fills| ==> Match(opp, inc, remaining, last).fills[i].qty > 0
  {
    if remaining == 0 || opp == [] || !Crosses(inc, opp[0]) || opp[0].accountId == inc.accountId {
    } else if remaining >= opp[0].qty {
      MatchFillsPositive(opp[1..], inc, remaining - opp[0].qty, Some(opp[0].price));
    }
  }

  /** What an immediate-or-cancel order leaves, read off the share-by-share reference. */
  lemma IocByShares(b: Book, inc: Incoming)
    requires Sound(b) && inc.kind.Market?
    ensures
      var other := Opposite(inc.side);
      var s := ByShares(SideOf(b, other), inc, inc.qty);
      var p := Place(b, inc);
      && p.book == WithSide(b, other, s.state).(lastPrice := LastLot(s.yielded, b.lastPrice))
      && Lots(p.result.fills) == s.yielded
      && p.result.canceledQty == s.left
  {
    var opp := SideOf(b, Opposite(inc.side));
    SoundFrom(b, inc.side);
    MatchRefinesShares(opp, inc, inc.qty, b.lastPrice);
    MatchStops(opp, inc, inc.qty, b.lastPrice);
    MatchFillsPositive(opp, inc, inc.qty, b.lastPrice);
    LotsLast(Match(opp, inc, inc.qty, b.lastPrice).fills);
  }

  lemma IocSound(b: Book, inc: Incoming)
    requires Sound(b) && inc.kind.Market?
    ensures Sound(Place(b, inc).book)
  {
    var own, opp := SideOf(b, inc.side), SideOf(b, Opposite(inc.side));
    SoundFrom(b, inc.side);
    MatchKeepsSides(own, opp, inc, b.lastPrice, b.seqNo);
    FinishSides(b, inc, Match(opp, inc, inc.qty, b.lastPrice));
    SoundFrom(Place(b, inc).book, inc.side);
  }

  lemma SharesSplit(opp: seq<Resting>, whole: Incoming, first: Incoming, second: Incoming)
    requires SameTerms(whole, first) && SameTerms(whole, second) && whole.qty == first.qty + second.qty
    ensures
      var u := ByShares(opp, first, first.qty);
      var v := ByShares(u.state, second, second.qty);
      ByShares(opp, whole, whole.qty) == Trace(v.state, u.yielded + v.yielded, u.left + v.left)
  {
    TermsOnly(opp, first, whole, first.qty);
    TermsOnly(ByShares(opp, first, first.qty).state, second, whole, second.qty);
    IterateSplit(Stepper(whole), opp, first.qty, second.qty);
  }

  /**
   * An immediate-or-cancel order of a + b shares is one of a followed by one
   * of b on the same terms: same book, same shares from the same makers at the
   * same prices, same total canceled.
   */
  lemma IocSplits(b: Book, whole: Incoming, first: Incoming, second: Incoming)
    requires Sound(b) && whole.kind.Market?
    requires SameTerms(whole, first) && SameTerms(whole, second) && whole.qty == first.qty + second.qty
    ensures
      var p := Place(b, first);
      var q := Place(p.book, second);
      && Place(b, whole).book == q.book
      && Lots(Place(b, whole).result.fills) == Lots(p.result.fills) + Lots(q.result.fills)
      && Place(b, whole).result.canceledQty == p.result.canceledQty + q.result.canceledQty
  {
    var other := Opposite(whole.side);
    IocByShares(b, whole);
    IocByShares(b, first);
    IocSound(b, first);
    var p := Place(b, first).book;
    IocByShares(p, second);
    SharesSplit(SideOf(b, other), whole, first, second);
    assert SideOf(p, other) == ByShares(SideOf(b, other), first, first.qty).state;
  }
}
