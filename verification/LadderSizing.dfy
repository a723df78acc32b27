/**
 * How many shares go on each level of the maker's ladder. Quantities are
 * apportioned by weight without losing a share to rounding, the best level is
 * topped up to its floor from the others, and next to preserved rows one side
 * is sized by a money budget instead. Weights are compared as integer products
 * and remainders, not as floating-point fractions.
 */
module LadderSizing {
  import opened Common
  import opened Arithmetic

  const LEVELS := 12
  const VISIBLE_LEVELS := 10
  const WEIGHTS := [100, 120, 140, 155, 150, 135, 115, 95, 80, 65, 55, 45]
  const WEIGHT_TOTAL := 1255
  const MIN_TOTAL_QTY := 120
  const MAX_TOTAL_QTY := 2_000_000
  const TARGET_NOTIONAL_PER_SIDE := 120_000_000
  const LIQUIDITY_MIN_BEST_QTY := 80
  const HIGH_PRICE_MIN_BEST_QTY := 20

  function Total(q: seq<int>): int {
    if q == [] then 0 else Total(q[..|q| - 1]) + q[|q| - 1]
  }

  lemma {:induction false} TotalUpdate(q: seq<int>, i: nat, v: int)
    requires i < |q|
    ensures Total(q[i := v]) == Total(q) - q[i] + v
  {
    var last := |q| - 1;
    if i == last {
      assert q[i := v][..last] == q[..last];
    } else {
      assert q[i := v][..last] == q[..last][i := v];
      TotalUpdate(q[..last], i, v);
    }
  }

  /** Shares worth the target money at this price, within the ladder's limits; halves round up. */
  function TotalQtyForPrice(price: int): (total: nat)
    ensures MIN_TOTAL_QTY <= total <= MAX_TOTAL_QTY
  {
    var p := if price > 0 then price else 1;
    Min(MAX_TOTAL_QTY, Max(MIN_TOTAL_QTY, (2 * TARGET_NOTIONAL_PER_SIDE + p) / (2 * p)))
  }

  // ---- Ranking levels by the fraction that rounding down cut off ----

  predicate Before(fractions: seq<int>, a: nat, b: nat)
    requires a < |fractions| && b < |fractions|
  {
    fractions[a] > fractions[b] || (fractions[a] == fractions[b] && a < b)
  }

  predicate InRange(order: seq<nat>, n: nat) {
    forall k :: 0 <= k < |order| ==> order[k] < n
  }

  /** Largest fraction first, and of equal ones the nearer level. */
  predicate Ranks(order: seq<nat>, fractions: seq<int>)
    requires InRange(order, |fractions|)
  {
    forall j, k :: 0 <= j < k < |order| ==> Before(fractions, order[j], order[k])
  }

  predicate Covers(order: seq<nat>, n: nat) {
    InRange(order, n) && |order| == n && forall i :: 0 <= i < n ==> i in order
  }

  function Insert(order: seq<nat>, fractions: seq<int>, i: nat): seq<nat>
    requires InRange(order, |fractions|) && i < |fractions|
  {
    if order == [] then [i]
    else if fractions[order[0]] < fractions[i] then [i] + order
    else [order[0]] + Insert(order[1..], fractions, i)
  }

  lemma {:induction false} InsertRanks(order: seq<nat>, fractions: seq<int>, i: nat)
    requires i < |fractions| && InRange(order, i) && Ranks(order, fractions)
    ensures var out := Insert(order, fractions, i);
            |out| == |order| + 1 && InRange(out, i + 1) && Ranks(out, fractions) &&
            forall l :: l in out <==> l == i || l in order
  {
    if order != [] && fractions[order[0]] >= fractions[i] {
      var rest := order[1..];
      assert Ranks(rest, fractions);
      InsertRanks(rest, fractions, i);
      var out := Insert(order, fractions, i);
      var tail := Insert(rest, fractions, i);
      assert out == [order[0]] + tail;
      forall k | 0 <= k < |tail|
        ensures Before(fractions, order[0], tail[k])
      {
        assert tail[k] in tail;
        assert tail[k] == i || tail[k] in rest;
      }
      assert order == [order[0]] + rest;
    }
  }

  function RankFirst(fractions: seq<int>, n: nat): seq<nat>
    requires n <= |fractions|
    ensures InRange(RankFirst(fractions, n), n)
  {
    if n == 0 then [] else
      var order := RankFirst(fractions, n - 1);
      InsertInRange(order, fractions, n - 1);
      Insert(order, fractions, n - 1)
  }

  lemma {:induction false} InsertInRange(order: seq<nat>, fractions: seq<int>, i: nat)
    requires i < |fractions| && InRange(order, i)
    ensures InRange(Insert(order, fractions, i), i + 1)
  {
    if order != [] {
      InsertInRange(order[1..], fractions, i);
    }
  }

  lemma {:induction false} RankFirstRanks(fractions: seq<int>, n: nat)
    requires n <= |fractions|
    ensures Covers(RankFirst(fractions, n), n) && Ranks(RankFirst(fractions, n), fractions)
  {
    if n > 0 {
      RankFirstRanks(fractions, n - 1);
      InsertRanks(RankFirst(fractions, n - 1), fractions, n - 1);
    }
  }

  /** The levels, ranked. */
  function FractionalOrder(fractions: seq<int>): (order: seq<nat>)
    ensures Covers(order, |fractions|) && Ranks(order, fractions)
  {
    RankFirstRanks(fractions, |fractions|);
    RankFirst(fractions, |fractions|)
  }

  lemma RanksDistinct(order: seq<nat>, fractions: seq<int>, j: nat, k: nat)
    requires InRange(order, |fractions|) && Ranks(order, fractions)
    requires j < |order| && k < |order| && order[j] == order[k]
    ensures j == k
  {
  }

  // ---- Apportioning a total by weight ----

  function Whole(total: nat, i: nat): nat
    requires i < LEVELS
  {
    WEIGHTS[i] * total / WEIGHT_TOTAL
  }

  function Fractions(total: nat): seq<int> {
    seq(LEVELS, i requires 0 <= i < LEVELS => WEIGHTS[i] * total % WEIGHT_TOTAL)
  }

  /** Rounding down took a larger fraction of a share from level j than from level i, or as large a one and j is nearer. */
  predicate LosesMore(total: nat, j: nat, i: nat)
    requires i < LEVELS && j < LEVELS
  {
    var x, y := WEIGHTS[j] * total % WEIGHT_TOTAL, WEIGHTS[i] * total % WEIGHT_TOTAL;
    x > y || (x == y && j < i)
  }

  /** The total is split by weight: rounded down, and the shares left over go one each to the largest fractions. */
  ghost predicate Apportioned(total: nat, q: seq<int>) {
    && |q| == LEVELS && Total(q) == total
    && (forall i :: 0 <= i < LEVELS ==> Whole(total, i) <= q[i] <= Whole(total, i) + 1)
    && (forall i, j :: 0 <= i < LEVELS && 0 <= j < LEVELS && q[i] > Whole(total, i) && LosesMore(total, j, i) ==> q[j] > Whole(total, j))
  }

  function Wholes(total: nat, n: nat): seq<int>
    requires n <= LEVELS
  {
    seq(n, i requires 0 <= i < n => Whole(total, i))
  }

  function WeightOf(n: nat): nat
    requires n <= LEVELS
  {
    if n == 0 then 0 else WeightOf(n - 1) + WEIGHTS[n - 1]
  }

  lemma WeightsAddUp()
    ensures WeightOf(LEVELS) == WEIGHT_TOTAL
  {
    assert WeightOf(3) == 360;
    assert WeightOf(6) == 800;
    assert WeightOf(9) == 1090;
  }

  lemma {:induction false} WholesBound(total: nat, n: nat)
    requires n <= LEVELS
    ensures WEIGHT_TOTAL * Total(Wholes(total, n)) <= WeightOf(n) * total
    ensures WeightOf(n) * total <= WEIGHT_TOTAL * Total(Wholes(total, n)) + n * (WEIGHT_TOTAL - 1)
  {
    if n == 0 {
      assert Total(Wholes(total, 0)) == 0;
    } else {
      WholesBound(total, n - 1);
      var ws := Wholes(total, n);
      assert ws[..n - 1] == Wholes(total, n - 1);
      assert Total(ws) == Total(Wholes(total, n - 1)) + Whole(total, n - 1);
      RoundedStep(WEIGHTS[n - 1], WeightOf(n - 1), total, Total(Wholes(total, n - 1)), n - 1);
    }
  }

  lemma RoundedStep(weight: nat, weights: nat, total: nat, wholes: int, n: nat)
    requires WEIGHT_TOTAL * wholes <= weights * total <= WEIGHT_TOTAL * wholes + n * (WEIGHT_TOTAL - 1)
    ensures var more := wholes + weight * total / WEIGHT_TOTAL;
            WEIGHT_TOTAL * more <= (weights + weight) * total <= WEIGHT_TOTAL * more + (n + 1) * (WEIGHT_TOTAL - 1)
  {
    assert (weights + weight) * total == weights * total + weight * total;
  }

  /** Rounding down loses less than one share a level. */
  lemma FewLeftOver(total: nat)
    ensures 0 <= total - Total(Wholes(total, LEVELS)) < LEVELS
  {
    WholesBound(total, LEVELS);
    WeightsAddUp();
  }

  predicate RankedFirst(order: seq<nat>, k: nat, i: nat) {
    exists j :: 0 <= j < k && j < |order| && order[j] == i
  }

  method Apportion(total: nat) returns (q: seq<int>)
    ensures Apportioned(total, q)
  {
    var quantities := new int[LEVELS](i requires 0 <= i < LEVELS => Whole(total, i));
    assert quantities[..] == Wholes(total, LEVELS);
    FewLeftOver(total);
    ghost var left := total - Total(quantities[..]);
    var sum := SumOf(quantities[..]);
    var remainder := total - sum;
    var fractions := Fractions(total);
    var order := FractionalOrder(fractions);
    var k := 0;
    while k < |order| && remainder > 0
      invariant 0 <= k <= |order| && remainder == left - k >= 0
      invariant Total(quantities[..]) + remainder == total
      invariant forall i :: 0 <= i < LEVELS ==> quantities[i] == Whole(total, i) + if RankedFirst(order, k, i) then 1 else 0
    {
      ghost var before := quantities[..];
      var index := order[k];
      assert !RankedFirst(order, k, index) by {
        if RankedFirst(order, k, index) {
          var j :| 0 <= j < k && j < |order| && order[j] == index;
          RanksDistinct(order, fractions, j, k);
        }
      }
      quantities[index] := quantities[index] + 1;
      remainder := remainder - 1;
      TotalUpdate(before, index, before[index] + 1);
      assert quantities[..] == before[index := before[index] + 1];
      forall i | 0 <= i < LEVELS
        ensures RankedFirst(order, k + 1, i) <==> i == index || RankedFirst(order, k, i)
      {
        assert i == index ==> order[k] == i;
      }
      k := k + 1;
    }
    q := quantities[..];
    assert k == left;
    forall i, j | 0 <= i < LEVELS && 0 <= j < LEVELS && q[i] > Whole(total, i) && LosesMore(total, j, i)
      ensures q[j] > Whole(total, j)
    {
      assert Before(fractions, j, i);
      assert RankedFirst(order, k, i);
      var a :| 0 <= a < k && a < |order| && order[a] == i;
      assert j in order;
      var b :| 0 <= b < |order| && order[b] == j;
      if a <= b {
        assert false;
      }
      assert RankedFirst(order, k, j);
    }
  }

  method SumOf(q: seq<int>) returns (sum: int)
    ensures sum == Total(q)
  {
    sum := 0;
    for i := 0 to |q|
      invariant sum == Total(q[..i])
    {
      assert q[..i + 1][..i] == q[..i];
      sum := sum + q[i];
    }
    assert q[..|q|] == q;
  }

  // ---- Topping the best level up ----

  /**
   * What the levels gave up. Far-first: a level gives only once everything
   * beyond it is down to one share. Otherwise the thickest level gives, the
   * nearer of two equals first, so the levels that gave end up level.
   */
  predicate DonorRule(preserveNearDepth: bool, base: seq<int>, q: seq<int>)
    requires |base| == |q|
  {
    forall i :: 1 <= i < |q| && q[i] < base[i] ==>
      if preserveNearDepth then forall j :: i < j < |q| ==> q[j] <= 1
      else (forall j :: 1 <= j < |q| ==> q[j] <= q[i] + 1) && (forall j :: 1 <= j < i ==> q[j] <= q[i])
  }

  predicate OnlyGave(base: seq<int>, q: seq<int>)
    requires |base| == |q|
  {
    forall i :: 1 <= i < |q| ==> Min(base[i], 1) <= q[i] <= base[i]
  }

  predicate AtMostOneEach(q: seq<int>) {
    forall i :: 1 <= i < |q| ==> q[i] <= 1
  }

  lemma {:induction false} OneEach(q: seq<int>)
    requires |q| > 0 && AtMostOneEach(q)
    ensures Total(q) <= q[0] + |q| - 1
  {
    var last := |q| - 1;
    if last > 0 {
      OneEach(q[..last]);
    } else {
      assert Total(q[..0]) == 0;
    }
  }

  /** The donor the loop picks; -1 when no level has more than one share to give far-first. */
  method PickDonor(quantities: array<int>, preserveNearDepth: bool) returns (donor: int)
    requires quantities.Length >= 2
    ensures -1 <= donor < quantities.Length && donor != 0
    ensures preserveNearDepth ==> forall j :: 1 <= j < quantities.Length && j > donor ==> quantities[j] <= 1
    ensures preserveNearDepth && donor >= 0 ==> quantities[donor] > 1
    ensures !preserveNearDepth ==> donor >= 1 && forall j :: 1 <= j < quantities.Length ==> quantities[j] <= quantities[donor] && (j < donor ==> quantities[j] < quantities[donor])
  {
    donor := -1;
    if preserveNearDepth {
      var index := quantities.Length - 1;
      while index >= 1
        invariant 0 <= index < quantities.Length
        invariant forall j :: index < j < quantities.Length ==> quantities[j] <= 1
      {
        if quantities[index] > 1 {
          return index;
        }
        index := index - 1;
      }
    } else {
      donor := 1;
      for index := 2 to quantities.Length
        invariant 1 <= donor < index
        invariant forall j :: 1 <= j < index ==> quantities[j] <= quantities[donor] && (j < donor ==> quantities[j] < quantities[donor])
      {
        if quantities[index] > quantities[donor] {
          donor := index;
        }
      }
    }
  }

  method FillBest(quantities: array<int>, total: int, minimumBestQty: int, preserveNearDepth: bool)
    requires quantities.Length >= 2 && Total(quantities[..]) == total
    modifies quantities
    ensures Total(quantities[..]) == total
    ensures quantities[0] == Max(old(quantities[0]), Min(minimumBestQty, total - (quantities.Length - 1)))
    ensures OnlyGave(old(quantities[..]), quantities[..]) && DonorRule(preserveNearDepth, old(quantities[..]), quantities[..])
  {
    ghost var base := quantities[..];
    var bestFloor := Min(minimumBestQty, total - (quantities.Length - 1));
    var shortfall := Max(0, bestFloor - quantities[0]);
    while shortfall > 0
      invariant shortfall >= 0 && quantities[0] + shortfall == Max(base[0], bestFloor)
      invariant Total(quantities[..]) == total
      invariant OnlyGave(base, quantities[..]) && DonorRule(preserveNearDepth, base, quantities[..])
      decreases shortfall
    {
      ghost var before := quantities[..];
      var donor := PickDonor(quantities, preserveNearDepth);
      assert donor >= 1 && quantities[donor] > 1 by {
        if donor < 1 || quantities[donor] <= 1 {
          assert AtMostOneEach(before);
          OneEach(before);
        }
      }
      quantities[donor] := quantities[donor] - 1;
      quantities[0] := quantities[0] + 1;
      shortfall := shortfall - 1;
      Moved(before, quantities[..], donor);
      DonorStep(preserveNearDepth, base, before, quantities[..], donor);
    }
  }

  lemma Moved(before: seq<int>, after: seq<int>, donor: nat)
    requires 1 <= donor < |before| && after == before[donor := before[donor] - 1][0 := before[0] + 1]
    ensures Total(after) == Total(before)
  {
    TotalUpdate(before, donor, before[donor] - 1);
    TotalUpdate(before[donor := before[donor] - 1], 0, before[0] + 1);
  }

  lemma DonorStep(preserveNearDepth: bool, base: seq<int>, before: seq<int>, after: seq<int>, donor: nat)
    requires |base| == |before| && 1 <= donor < |before|
    requires after == before[donor := before[donor] - 1][0 := before[0] + 1]
    requires DonorRule(preserveNearDepth, base, before)
    requires preserveNearDepth ==> forall j :: donor < j < |before| ==> before[j] <= 1
    requires !preserveNearDepth ==> forall j :: 1 <= j < |before| ==> before[j] <= before[donor] && (j < donor ==> before[j] < before[donor])
    ensures DonorRule(preserveNearDepth, base, after)
  {
  }

  /**
   * The ladder's quantities: they add up to the total, the best level reaches
   * its floor - or as much of it as leaves a share for every other level - and
   * with a total of 28 or more no level is empty. The loop's early exit for an
   * exhausted donor is never taken.
   */
  method LiquidityQtyByLevelForProfile(total: nat, minimumBestQty: int, preserveNearDepth: bool)
    returns (q: seq<int>, ghost base: seq<int>)
    ensures Apportioned(total, base)
    ensures |q| == LEVELS && Total(q) == total
    ensures q[0] == Max(base[0], Min(minimumBestQty, total - (LEVELS - 1)))
    ensures OnlyGave(base, q) && DonorRule(preserveNearDepth, base, q)
    ensures total >= 28 ==> forall i :: 0 <= i < LEVELS ==> q[i] >= 1
  {
    var shares := Apportion(total);
    base := shares;
    var quantities := new int[LEVELS](i requires 0 <= i < LEVELS => shares[i]);
    assert quantities[..] == shares;
    FillBest(quantities, total, minimumBestQty, preserveNearDepth);
    q := quantities[..];
    if total >= 28 {
      forall i | 0 <= i < LEVELS
        ensures Whole(total, i) >= 1
      {
        WholeAtLeastOne(total, i);
      }
    }
  }

  function MinimumBestQty(highPrice: bool): nat {
    if highPrice then HIGH_PRICE_MIN_BEST_QTY else LIQUIDITY_MIN_BEST_QTY
  }

  /** Within the limits the ladder's shares are worth the target money, to the nearest share. */
  predicate WorthTarget(total: int, price: int) {
    var worth := total * price;
    && (MIN_TOTAL_QTY < total ==> 2 * (worth - TARGET_NOTIONAL_PER_SIDE) <= price)
    && (total < MAX_TOTAL_QTY ==> 2 * (worth - TARGET_NOTIONAL_PER_SIDE) >= -price)
  }

  lemma TotalIsWorthTarget(price: int)
    requires price > 0
    ensures WorthTarget(TotalQtyForPrice(price), price)
  {
    var a := 2 * TARGET_NOTIONAL_PER_SIDE + price;
    var raw := a / (2 * price);
    DivBetween(a, 2 * price);
    assert raw * (2 * price) == 2 * (raw * price);
    if raw < MIN_TOTAL_QTY {
      MulMono(raw + 1, MIN_TOTAL_QTY, price);
    }
    if raw > MAX_TOTAL_QTY {
      MulMono(MAX_TOTAL_QTY, raw, price);
    }
  }

  /**
   * At every price the ladder holds its total, its best level the whole floor,
   * and every level a share. A high-priced listing has the smaller floor, and
   * takes what it needs for it from the far levels first.
   */
  method LiquidityQtyByLevelForSymbol(highPrice: bool, centerPrice: int) returns (q: seq<int>, ghost base: seq<int>)
    ensures |q| == LEVELS && Total(q) == TotalQtyForPrice(centerPrice)
    ensures centerPrice > 0 ==> WorthTarget(Total(q), centerPrice)
    ensures q[0] >= (if highPrice then HIGH_PRICE_MIN_BEST_QTY else LIQUIDITY_MIN_BEST_QTY) && forall i :: 0 <= i < LEVELS ==> q[i] >= 1
    ensures Apportioned(Total(q), base) && OnlyGave(base, q) && DonorRule(highPrice, base, q)
    ensures q[0] == Max(base[0], if highPrice then HIGH_PRICE_MIN_BEST_QTY else LIQUIDITY_MIN_BEST_QTY)
  {
    if centerPrice > 0 {
      TotalIsWorthTarget(centerPrice);
    }
    q, base := LiquidityQtyByLevelForProfile(TotalQtyForPrice(centerPrice), MinimumBestQty(highPrice), highPrice);
  }

  lemma WholeAtLeastOne(total: nat, i: nat)
    requires total >= 28 && i < LEVELS
    ensures Whole(total, i) >= 1
  {
    assert WEIGHTS[i] >= 45;
    MulMono(45, WEIGHTS[i], total);
    DivMono(WEIGHT_TOTAL, WEIGHTS[i] * total, WEIGHT_TOTAL);
  }
}
