/**
 * The cost basis of shares: bought at cost, sold off in proportion and rounded
 * down. A holding behaves as a long row with unit value one, so what is proved
 * of entry values holds of cost bases.
 */
module HoldingCost {
  import opened Arithmetic
  import opened Common
  import opened Futures
  import opened FuturesLaws
  import opened Settlement

  datatype Dealt = Dealt(holding: Holding, realized: int)

  predicate Backed(h: Holding) {
    h.qty >= 0 && h.costBasis >= 0 && (h.qty == 0 ==> h.costBasis == 0)
  }

  function AsPosition(h: Holding): Position {
    Position(h.qty, h.costBasis)
  }

  /** One fill of a holding: a purchase adds its cost, a sale takes the basis out and realizes the difference. */
  function TradeShares(h: Holding, f: Fill): Dealt {
    if f.side == Buy then Dealt(h.(qty := h.qty + f.qty, costBasis := h.costBasis + f.price * f.qty), 0)
    else Dealt(Sold(h, f.qty), f.price * f.qty - BasisReduction(h, f.qty))
  }

  /** A fill of shares is a fill of a long row, as long as no more is sold than held. */
  lemma SharesAreALongRow(h: Holding, f: Fill)
    requires Backed(h) && f.price >= 0 && f.qty > 0 && (f.side == Sell ==> f.qty <= h.qty)
    ensures
      var t := TradeShares(h, f);
      var r := ApplyFill(1, AsPosition(h), Long, f.side, f.price, f.qty);
      Backed(t.holding) && AsPosition(t.holding) == r.position && t.realized == r.realized && r.overflow == 0
  {
    if f.side == Buy {
      assert f.price * f.qty >= 0;
    } else {
      BasisBounds(h.costBasis, f.qty, h.qty);
    }
  }

  function PlayShares(fills: seq<Fill>): Dealt {
    if fills == [] then Dealt(Holding(0, 0, 0), 0)
    else
      var before := PlayShares(fills[..|fills| - 1]);
      var t := TradeShares(before.holding, fills[|fills| - 1]);
      Dealt(t.holding, before.realized + t.realized)
  }

  /** No sale exceeds what is held when it settles. */
  predicate NeverOversold(fills: seq<Fill>) {
    fills == [] ||
    (NeverOversold(fills[..|fills| - 1]) &&
     (fills[|fills| - 1].side == Sell ==> fills[|fills| - 1].qty <= PlayShares(fills[..|fills| - 1]).holding.qty))
  }

  /** Purchases minus proceeds. */
  function NetPaid(fills: seq<Fill>): int {
    if fills == [] then 0
    else NetPaid(fills[..|fills| - 1]) + Paid(fills[|fills| - 1])
  }

  predicate SameAs(shares: Dealt, row: Played, paid: int) {
    Backed(shares.holding) && AsPosition(shares.holding) == row.position && shares.realized == row.realized && row.bought == paid
  }

  function Paid(f: Fill): int {
    if f.side == Buy then f.price * f.qty else -(f.price * f.qty)
  }

  lemma PaidIs(f: Fill)
    ensures Delta(f.side, f.qty) * f.price == Paid(f)
  {
    Negate(f.qty, f.price);
  }

  lemma Negate(qty: int, price: int)
    ensures -qty * price == -(price * qty)
  {
  }

  lemma SameAfter(shares: Dealt, row: Played, paid: int, t: Dealt, r: FillResult, f: Fill)
    requires SameAs(shares, row, paid) && r.overflow == 0
    requires Backed(t.holding) && AsPosition(t.holding) == r.position && t.realized == r.realized
    ensures SameAs(Dealt(t.holding, shares.realized + t.realized),
                   Played(r.position, row.realized + r.realized, row.bought + Delta(f.side, Moved(r, f.qty)) * f.price), paid + Paid(f))
  {
    PaidIs(f);
  }

  lemma {:induction false} PlayedAsLongRow(fills: seq<Fill>)
    requires Fills(fills) && NeverOversold(fills)
    ensures SameAs(PlayShares(fills), Play(1, Long, fills), NetPaid(fills))
  {
    if fills != [] {
      var f := fills[|fills| - 1];
      assert f in fills;
      var earlier := fills[..|fills| - 1];
      PlayedAsLongRow(earlier);
      var shares := PlayShares(earlier);
      SharesAreALongRow(shares.holding, f);
      SameAfter(shares, Play(1, Long, earlier), NetPaid(earlier), TradeShares(shares.holding, f),
                ApplyFill(1, AsPosition(shares.holding), Long, f.side, f.price, f.qty), f);
    }
  }

  /**
   * Over any run of purchases and covered sales, realized profit is proceeds
   * minus purchases plus the remaining cost basis, to the won, and the cost per
   * share stays between the lowest and highest purchase price since the holding
   * was last empty.
   */
  lemma HoldingCostExact(fills: seq<Fill>, lo: int, hi: int)
    requires Fills(fills) && NeverOversold(fills) && AllWithin(OpeningPrices(1, Long, fills), lo, hi)
    ensures
      var end := PlayShares(fills);
      && end.realized == end.holding.costBasis - NetPaid(fills)
      && lo * end.holding.qty <= end.holding.costBasis <= hi * end.holding.qty
  {
    PlayedAsLongRow(fills);
    RealizedExact(1, Long, fills);
    AverageBounded(1, Long, fills, lo, hi);
  }
}
