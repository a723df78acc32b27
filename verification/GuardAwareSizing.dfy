/**
 * Sizing one side of the ladder by a money budget, when preserved rows already
 * show part of the wanted depth. A floor comes first, then shares by weight,
 * then whole shares for what is left of the budget.
 */
module GuardAwareSizing {
  import opened Common
  import opened Arithmetic
  import opened LadderSizing

  /** What the first `|prices|` levels cost. */
  function Spent(prices: seq<int>, q: seq<int>): int
    requires |q| >= |prices|
  {
    if prices == [] then 0
    else Spent(prices[..|prices| - 1], q) + prices[|prices| - 1] * q[|prices| - 1]
  }

  lemma {:induction false} SpentSame(prices: seq<int>, q: seq<int>, r: seq<int>)
    requires |q| >= |prices| && |r| >= |prices|
    requires forall i :: 0 <= i < |prices| ==> q[i] == r[i]
    ensures Spent(prices, q) == Spent(prices, r)
  {
    if prices != [] {
      SpentSame(prices[..|prices| - 1], q, r);
    }
  }

  lemma {:induction false} SpentOneMore(prices: seq<int>, q: seq<int>, i: nat, n: int)
    requires |q| >= |prices| && i < |prices|
    ensures Spent(prices, q[i := q[i] + n]) == Spent(prices, q) + prices[i] * n
  {
    var last := |prices| - 1;
    if i == last {
      SpentSame(prices[..last], q, q[i := q[i] + n]);
      assert prices[i] * (q[i] + n) == prices[i] * q[i] + prices[i] * n;
    } else {
      SpentOneMore(prices[..last], q, i, n);
      assert prices[..last][i] == prices[i];
    }
  }

  lemma {:induction false} SpentPlus(prices: seq<int>, q: seq<int>, r: seq<int>, sum: seq<int>)
    requires |q| >= |prices| && |r| >= |prices| && |sum| >= |prices|
    requires forall i :: 0 <= i < |prices| ==> sum[i] == q[i] + r[i]
    ensures Spent(prices, sum) == Spent(prices, q) + Spent(prices, r)
  {
    if prices != [] {
      var last := |prices| - 1;
      SpentPlus(prices[..last], q, r, sum);
      assert prices[last] * sum[last] == prices[last] * q[last] + prices[last] * r[last];
    }
  }

  predicate AllPositive(prices: seq<int>) {
    forall i :: 0 <= i < |prices| ==> prices[i] > 0
  }

  function Extra(level: nat, money: nat, weighted: int): nat
    requires level < LEVELS && weighted > 0
  {
    WEIGHTS[level] * money / weighted
  }

  function Extras(n: nat, money: nat, weighted: int): seq<int>
    requires n <= LEVELS && weighted > 0
  {
    seq(n, i requires 0 <= i < n => Extra(i, money, weighted))
  }

  /** Shares handed out by weight, rounded down, cost no more than the money. */
  lemma {:induction false} ExtrasBound(prices: seq<int>, money: nat, weighted: int)
    requires |prices| <= LEVELS && weighted > 0 && AllPositive(prices)
    ensures 0 <= weighted * Spent(prices, Extras(LEVELS, money, weighted)) <= Spent(prices, WEIGHTS) * money
  {
    if prices != [] {
      var last := |prices| - 1;
      ExtrasBound(prices[..last], money, weighted);
      ExtraStep(prices[last], WEIGHTS[last], money, weighted,
                Spent(prices[..last], Extras(LEVELS, money, weighted)), Spent(prices[..last], WEIGHTS));
    }
  }

  lemma ExtraStep(price: int, weight: nat, money: nat, weighted: int, spent: int, weights: int)
    requires price > 0 && weighted > 0 && 0 <= weighted * spent <= weights * money
    ensures 0 <= weighted * (spent + price * (weight * money / weighted)) <= (weights + price * weight) * money
  {
    var x := weight * money / weighted;
    DivBetween(weight * money, weighted);
    MulMono(x * weighted, weight * money, price);
    assert weighted * (spent + price * x) == weighted * spent + x * weighted * price;
    assert (weights + price * weight) * money == weights * money + weight * money * price;
    MulMono(0, x * weighted, price);
  }

  function MinPrice(prices: seq<int>): int
    requires prices != []
  {
    if |prices| == 1 then prices[0] else Min(prices[0], MinPrice(prices[1..]))
  }

  lemma {:induction false} MinPriceIs(prices: seq<int>)
    requires prices != []
    ensures MinPrice(prices) in prices && forall i :: 0 <= i < |prices| ==> MinPrice(prices) <= prices[i]
  {
    if |prices| > 1 {
      MinPriceIs(prices[1..]);
      assert prices == [prices[0]] + prices[1..];
    }
  }

  // ---- Handing out the rest of the budget ----

  /** The position of the first ranked level that the money still buys a share of. */
  function Candidate(order: seq<nat>, prices: seq<int>, money: int): (k: int)
    requires InRange(order, |prices|)
    ensures -1 <= k < |order|
    ensures k >= 0 ==> prices[order[k]] <= money && forall j :: 0 <= j < k ==> prices[order[j]] > money
    ensures k < 0 ==> forall j :: 0 <= j < |order| ==> prices[order[j]] > money
  {
    if order == [] then -1
    else if prices[order[0]] <= money then 0
    else
      var k := Candidate(order[1..], prices, money);
      if k < 0 then -1 else k + 1
  }

  /** As many shares of the first ranked level as the money buys, then of the next with the change, and so on. */
  function Bought(order: seq<nat>, prices: seq<int>, money: nat, level: nat): nat
    requires InRange(order, |prices|) && AllPositive(prices)
  {
    if order == [] then 0
    else if order[0] == level then money / prices[order[0]]
    else Bought(order[1..], prices, money % prices[order[0]], level)
  }

  lemma {:induction false} BuyOne(order: seq<nat>, prices: seq<int>, money: nat, k: nat, level: nat)
    requires InRange(order, |prices|) && AllPositive(prices) && k < |order| && prices[order[k]] <= money
    requires forall j :: 0 <= j < k ==> prices[order[j]] > money && order[j] != order[k]
    ensures Bought(order, prices, money, level) == Bought(order, prices, money - prices[order[k]], level) + if level == order[k] then 1 else 0
  {
    var p := prices[order[0]];
    if k == 0 {
      OneFewer(money, p);
    } else {
      Small(money, p);
      Small(money - prices[order[k]], p);
      if order[0] != level {
        BuyOne(order[1..], prices, money, k - 1, level);
      }
    }
  }

  lemma OneFewer(money: nat, price: int)
    requires 0 < price <= money
    ensures money / price == (money - price) / price + 1 && money % price == (money - price) % price
  {
    DivBetween(money, price);
    DivIs(money - price, price, money / price - 1);
  }

  lemma Small(money: nat, price: int)
    requires money < price
    ensures money / price == 0 && money % price == money
  {
  }

  lemma {:induction false} NothingBought(order: seq<nat>, prices: seq<int>, money: nat, level: nat)
    requires InRange(order, |prices|) && AllPositive(prices)
    requires forall i :: 0 <= i < |prices| ==> prices[i] > money
    ensures Bought(order, prices, money, level) == 0
  {
    if order != [] {
      Small(money, prices[order[0]]);
      NothingBought(order[1..], prices, money, level);
    }
  }

  /** The floor: the best level's minimum, and one share everywhere else. */
  function Floor(minimumBestQty: nat): seq<int> {
    seq(LEVELS, i requires 0 <= i < LEVELS => if i == 0 then minimumBestQty else 1)
  }

  /** The money the weighted shares may use. */
  function Spare(prices: seq<int>, minimumBestQty: nat, budget: nat): nat
    requires |prices| == VISIBLE_LEVELS
  {
    Max(0, budget - Spent(prices, Floor(minimumBestQty)))
  }

  function Weighted(prices: seq<int>): int
    requires |prices| == VISIBLE_LEVELS
  {
    Spent(prices, WEIGHTS)
  }

  lemma {:induction false} SpentPositive(prices: seq<int>, q: seq<int>)
    requires prices != [] && |q| >= |prices| && AllPositive(prices)
    requires forall i :: 0 <= i < |prices| ==> q[i] > 0
    ensures Spent(prices, q) > 0
  {
    var last := |prices| - 1;
    MulMono(1, prices[last], q[last]);
    if last > 0 {
      SpentPositive(prices[..last], q);
    } else {
      assert Spent(prices[..0], q) == 0;
    }
  }

  function ExtraFractions(money: nat, weighted: int): seq<int>
    requires weighted > 0
  {
    seq(VISIBLE_LEVELS, i requires 0 <= i < VISIBLE_LEVELS => WEIGHTS[i] * money % weighted)
  }

  /** The floor and the weighted shares on top of it. */
  function Started(prices: seq<int>, budget: nat, minimumBestQty: nat): seq<int>
    requires |prices| == VISIBLE_LEVELS && Weighted(prices) > 0
  {
    var spare := Spare(prices, minimumBestQty, budget);
    seq(LEVELS, i requires 0 <= i < LEVELS =>
      Floor(minimumBestQty)[i] + if i < VISIBLE_LEVELS then Extra(i, spare, Weighted(prices)) else 0)
  }

  function Unspent(prices: seq<int>, budget: nat, minimumBestQty: nat): nat
    requires |prices| == VISIBLE_LEVELS && Weighted(prices) > 0
  {
    Max(0, budget - Spent(prices, Started(prices, budget, minimumBestQty)))
  }

  function RankOrder(prices: seq<int>, budget: nat, minimumBestQty: nat): seq<nat>
    requires |prices| == VISIBLE_LEVELS && Weighted(prices) > 0
  {
    FractionalOrder(ExtraFractions(Spare(prices, minimumBestQty, budget), Weighted(prices)))
  }

  lemma StartedWithinBudget(prices: seq<int>, budget: nat, minimumBestQty: nat)
    requires |prices| == VISIBLE_LEVELS && AllPositive(prices) && Weighted(prices) > 0
    ensures Spent(prices, Started(prices, budget, minimumBestQty)) <= Max(budget, Spent(prices, Floor(minimumBestQty)))
    ensures budget < Spent(prices, Floor(minimumBestQty)) ==> Started(prices, budget, minimumBestQty) == Floor(minimumBestQty)
  {
    var spare := Spare(prices, minimumBestQty, budget);
    var extras := Extras(LEVELS, spare, Weighted(prices));
    SpentPlus(prices, Floor(minimumBestQty), extras, Started(prices, budget, minimumBestQty));
    ExtrasBound(prices, spare, Weighted(prices));
    if Spent(prices, extras) > spare {
      MulMono(spare + 1, Spent(prices, extras), Weighted(prices));
    }
    if spare == 0 {
      forall i | 0 <= i < VISIBLE_LEVELS
        ensures Extra(i, 0, Weighted(prices)) == 0
      {
        assert WEIGHTS[i] * 0 == 0;
      }
    }
  }

  /** Spends what is left, one share at a time, always on the best-ranked level still affordable. */
  method SpendTheRest(prices: seq<int>, order: seq<nat>, money: nat, quantities: array<int>, ghost fractions: seq<int>)
    returns (unallocated: nat)
    requires prices != [] && AllPositive(prices) && |fractions| == |prices| <= quantities.Length
    requires Covers(order, |prices|) && Ranks(order, fractions)
    modifies quantities
    ensures unallocated < MinPrice(prices)
    ensures Spent(prices, quantities[..]) == Spent(prices, old(quantities[..])) + money - unallocated
    ensures forall i :: 0 <= i < |prices| ==> quantities[i] == old(quantities[i]) + Bought(order, prices, money, i)
    ensures forall i :: |prices| <= i < quantities.Length ==> quantities[i] == old(quantities[i])
  {
    ghost var start := quantities[..];
    unallocated := money;
    while unallocated >= MinPrice(prices)
      invariant Spent(prices, quantities[..]) == Spent(prices, start) + money - unallocated
      invariant forall i :: 0 <= i < |prices| ==> quantities[i] + Bought(order, prices, unallocated, i) == start[i] + Bought(order, prices, money, i)
      invariant forall i :: |prices| <= i < quantities.Length ==> quantities[i] == start[i]
      decreases unallocated
    {
      var k := Candidate(order, prices, unallocated);
      CheapestIsRanked(order, prices);
      var level := order[k];
      ghost var before := quantities[..];
      BuyOneEach(order, prices, unallocated, k, fractions);
      SpentOneMore(prices, before, level, 1);
      quantities[level] := quantities[level] + 1;
      unallocated := unallocated - prices[level];
      assert quantities[..] == before[level := before[level] + 1];
    }
    MinPriceIs(prices);
    forall i | 0 <= i < |prices|
      ensures Bought(order, prices, unallocated, i) == 0
    {
      NothingBought(order, prices, unallocated, i);
    }
  }

  /** The floor first, then the shares by weight level by level. */
  method StartQuantities(prices: seq<int>, budget: nat, minimumBestQty: nat) returns (quantities: array<int>)
    requires |prices| == VISIBLE_LEVELS && Weighted(prices) > 0
    ensures fresh(quantities) && quantities[..] == Started(prices, budget, minimumBestQty)
  {
    var weighted, remaining := Weighted(prices), Spare(prices, minimumBestQty, budget);
    quantities := new int[LEVELS](i requires 0 <= i < LEVELS => if i == 0 then minimumBestQty else 1);
    for level := 0 to VISIBLE_LEVELS
      invariant forall i :: 0 <= i < LEVELS ==> quantities[i] == Floor(minimumBestQty)[i] + if i < level then Extra(i, remaining, weighted) else 0
    {
      quantities[level] := quantities[level] + Extra(level, remaining, weighted);
    }
  }

  /**
   * With every visible price positive: the floor and the weighted shares, plus
   * what the unspent budget buys in rank order. The side never costs more than
   * the budget unless the floor alone does, and then it is just the floor;
   * otherwise less than one cheapest visible share is left unspent.
   */
  method GuardAwareSideQuantities(prices: seq<int>, budget: nat, minimumBestQty: nat) returns (q: seq<int>)
    requires |prices| == VISIBLE_LEVELS && AllPositive(prices)
    ensures |q| == LEVELS && forall i :: VISIBLE_LEVELS <= i < LEVELS ==> q[i] == 1
    ensures budget < Spent(prices, Floor(minimumBestQty)) ==> q == Floor(minimumBestQty)
    ensures budget >= Spent(prices, Floor(minimumBestQty)) ==> 0 <= budget - Spent(prices, q) < MinPrice(prices)
    ensures Weighted(prices) > 0
    ensures budget >= Spent(prices, Floor(minimumBestQty)) ==> forall i :: 0 <= i < VISIBLE_LEVELS ==>
      WEIGHTS[i] * (budget - Spent(prices, Floor(minimumBestQty))) < Weighted(prices) * (q[i] - (if i == 0 then minimumBestQty else 1) + 1)
    ensures forall i :: 0 <= i < VISIBLE_LEVELS ==>
      q[i] == Started(prices, budget, minimumBestQty)[i] +
        Bought(RankOrder(prices, budget, minimumBestQty), prices, Unspent(prices, budget, minimumBestQty), i)
  {
    SpentPositive(prices, WEIGHTS);
    var weighted := Weighted(prices);
    var remaining := Spare(prices, minimumBestQty, budget);
    var quantities := StartQuantities(prices, budget, minimumBestQty);
    ghost var start := Started(prices, budget, minimumBestQty);
    StartedWithinBudget(prices, budget, minimumBestQty);
    var unallocated := Unspent(prices, budget, minimumBestQty);
    var order := RankOrder(prices, budget, minimumBestQty);
    unallocated := SpendTheRest(prices, order, unallocated, quantities, ExtraFractions(remaining, weighted));
    q := quantities[..];
    if budget < Spent(prices, Floor(minimumBestQty)) {
      NothingForNothing(order, prices);
      assert q == start;
    } else {
      AllByWeight(prices, budget, minimumBestQty, q);
    }
  }

  lemma NothingForNothing(order: seq<nat>, prices: seq<int>)
    requires InRange(order, |prices|) && AllPositive(prices)
    ensures forall i: nat :: Bought(order, prices, 0, i) == 0
  {
    forall i: nat
      ensures Bought(order, prices, 0, i) == 0
    {
      NothingBought(order, prices, 0, i);
    }
  }

  lemma CheapestIsRanked(order: seq<nat>, prices: seq<int>)
    requires prices != [] && Covers(order, |prices|)
    ensures exists k :: 0 <= k < |order| && prices[order[k]] == MinPrice(prices)
  {
    MinPriceIs(prices);
    var i :| 0 <= i < |prices| && prices[i] == MinPrice(prices);
    assert i in order;
  }

  lemma BuyOneEach(order: seq<nat>, prices: seq<int>, money: nat, k: nat, fractions: seq<int>)
    requires |fractions| == |prices| && InRange(order, |prices|) && Ranks(order, fractions) && AllPositive(prices)
    requires k < |order| && prices[order[k]] <= money && forall j :: 0 <= j < k ==> prices[order[j]] > money
    ensures forall i :: 0 <= i < |prices| ==>
              Bought(order, prices, money, i) == Bought(order, prices, money - prices[order[k]], i) + if i == order[k] then 1 else 0
  {
    forall i | 0 <= i < |prices|
      ensures Bought(order, prices, money, i) == Bought(order, prices, money - prices[order[k]], i) + if i == order[k] then 1 else 0
    {
      forall j | 0 <= j < k
        ensures order[j] != order[k]
      {
        assert Before(fractions, order[j], order[k]);
      }
      BuyOne(order, prices, money, k, i);
    }
  }

  /**
   * By weight: once the floor is paid for, no visible level is a share or more
   * short of its weight's part of the money that is left.
   */
  lemma SharedByWeight(prices: seq<int>, budget: nat, minimumBestQty: nat, i: nat)
    requires |prices| == VISIBLE_LEVELS && AllPositive(prices) && Weighted(prices) > 0 && i < VISIBLE_LEVELS
    requires budget >= Spent(prices, Floor(minimumBestQty))
    ensures
      var floor, money := if i == 0 then minimumBestQty else 1, budget - Spent(prices, Floor(minimumBestQty));
      WEIGHTS[i] * money < Weighted(prices) * (Started(prices, budget, minimumBestQty)[i] - floor + 1)
  {
    var money := budget - Spent(prices, Floor(minimumBestQty));
    DivBetween(WEIGHTS[i] * money, Weighted(prices));
    var extra := WEIGHTS[i] * money / Weighted(prices);
    assert Weighted(prices) * (extra + 1) == extra * Weighted(prices) + Weighted(prices);
  }

  lemma AllByWeight(prices: seq<int>, budget: nat, minimumBestQty: nat, q: seq<int>)
    requires |prices| == VISIBLE_LEVELS && AllPositive(prices) && Weighted(prices) > 0 && |q| == LEVELS
    requires budget >= Spent(prices, Floor(minimumBestQty))
    requires forall i :: 0 <= i < VISIBLE_LEVELS ==> q[i] >= Started(prices, budget, minimumBestQty)[i]
    ensures forall i :: 0 <= i < VISIBLE_LEVELS ==>
      WEIGHTS[i] * (budget - Spent(prices, Floor(minimumBestQty))) < Weighted(prices) * (q[i] - (if i == 0 then minimumBestQty else 1) + 1)
  {
    forall i | 0 <= i < VISIBLE_LEVELS
      ensures WEIGHTS[i] * (budget - Spent(prices, Floor(minimumBestQty))) < Weighted(prices) * (q[i] - (if i == 0 then minimumBestQty else 1) + 1)
    {
      var start, floor := Started(prices, budget, minimumBestQty)[i], if i == 0 then minimumBestQty else 1;
      SharedByWeight(prices, budget, minimumBestQty, i);
      MulMono(start - floor + 1, q[i] - floor + 1, Weighted(prices));
    }
  }

  /** No other visible level lost more to rounding down, and none nearer lost as much. */
  predicate LostMost(money: nat, weighted: int, i: nat)
    requires weighted > 0 && i < VISIBLE_LEVELS
  {
    forall j :: 0 <= j < VISIBLE_LEVELS && j != i ==>
      WEIGHTS[j] * money % weighted < WEIGHTS[i] * money % weighted || (WEIGHTS[j] * money % weighted == WEIGHTS[i] * money % weighted && i < j)
  }

  /** What rounding left unspent goes first to the level that lost the most by it: as many shares as the money buys. */
  lemma RestGoesToLostMost(prices: seq<int>, budget: nat, minimumBestQty: nat, i: nat)
    requires |prices| == VISIBLE_LEVELS && AllPositive(prices) && Weighted(prices) > 0 && i < VISIBLE_LEVELS
    requires LostMost(Spare(prices, minimumBestQty, budget), Weighted(prices), i)
    ensures
      var money := Unspent(prices, budget, minimumBestQty);
      Bought(RankOrder(prices, budget, minimumBestQty), prices, money, i) == money / prices[i]
  {
    var fractions := ExtraFractions(Spare(prices, minimumBestQty, budget), Weighted(prices));
    var order := FractionalOrder(fractions);
    assert i in order;
    var k :| 0 <= k < |order| && order[k] == i;
    assert forall j :: 0 < j < |order| ==> Before(fractions, order[0], order[j]);
    assert order[0] == i;
  }

  // ---- When a visible price is not positive ----

  /** The money left after n rounds of the loop, for as long as it goes on. */
  function MoneyAfter(order: seq<nat>, prices: seq<int>, money: int, n: nat): Option<int>
    requires prices != [] && InRange(order, |prices|)
    decreases n
  {
    if n == 0 then Some(money)
    else if money < MinPrice(prices) || Candidate(order, prices, money) < 0 then None
    else MoneyAfter(order, prices, money - prices[order[Candidate(order, prices, money)]], n - 1)
  }

  /**
   * The loop stops exactly when every visible price is positive. A BUY side
   * whose tenth level is at or below zero - a center within ten ticks of zero -
   * would be handed shares forever, since its guard never fails again.
   */
  lemma StopsIffAllPositive(order: seq<nat>, prices: seq<int>, money: nat)
    requires prices != [] && Covers(order, |prices|)
    ensures AllPositive(prices) <==> exists n: nat :: MoneyAfter(order, prices, money, n).None?
  {
    MinPriceIs(prices);
    if AllPositive(prices) {
      Stops(order, prices, money);
      assert MoneyAfter(order, prices, money, money + 1).None?;
    } else {
      forall n: nat
        ensures MoneyAfter(order, prices, money, n).Some?
      {
        GoesOn(order, prices, money, n);
      }
    }
  }

  lemma {:induction false} Stops(order: seq<nat>, prices: seq<int>, money: nat)
    requires prices != [] && InRange(order, |prices|) && AllPositive(prices)
    ensures MoneyAfter(order, prices, money, money + 1).None?
    decreases money
  {
    MinPriceIs(prices);
    var k := Candidate(order, prices, money);
    if money >= MinPrice(prices) && k >= 0 {
      var rest := money - prices[order[k]];
      Stops(order, prices, rest);
      StaysStopped(order, prices, rest, rest + 1, money);
    }
  }

  lemma {:induction false} StaysStopped(order: seq<nat>, prices: seq<int>, money: int, n: nat, m: nat)
    requires prices != [] && InRange(order, |prices|) && n <= m && MoneyAfter(order, prices, money, n).None?
    ensures MoneyAfter(order, prices, money, m).None?
    decreases n
  {
    var k := Candidate(order, prices, money);
    if money >= MinPrice(prices) && k >= 0 {
      StaysStopped(order, prices, money - prices[order[k]], n - 1, m - 1);
    }
  }

  lemma {:induction false} GoesOn(order: seq<nat>, prices: seq<int>, money: nat, n: nat)
    requires prices != [] && Covers(order, |prices|) && MinPrice(prices) <= 0
    ensures MoneyAfter(order, prices, money, n).Some?
    decreases n
  {
    if n > 0 {
      CheapestIsRanked(order, prices);
      var k := Candidate(order, prices, money);
      GoesOn(order, prices, money - prices[order[k]], n - 1);
    }
  }
}
