/** The aggregated price levels shown for a book. */
module OrderBookLevels {
  import opened Common
  import opened OrderBook
  import opened OrderBookLaws

  lemma {:induction false} TotalAtSnoc(list: seq<Resting>, o: Resting, price: int)
    ensures TotalAt(list + [o], price) == TotalAt(list, price) + if o.price == price then o.qty else 0
  {
    if list == [] {
    } else {
      assert (list + [o])[1..] == list[1..] + [o];
      TotalAtSnoc(list[1..], o, price);
    }
  }

  lemma {:induction false} TotalAtPrefix(list: seq<Resting>, k: nat, price: int)
    requires k <= |list| && forall i :: k <= i < |list| ==> list[i].price != price
    ensures TotalAt(list, price) == TotalAt(list[..k], price)
    decreases |list| - k
  {
    if k < |list| {
      TotalAtPrefix(list, k + 1, price);
      assert list[..k + 1] == list[..k] + [list[k]];
      TotalAtSnoc(list[..k], list[k], price);
    } else {
      assert list[..k] == list;
    }
  }

  predicate Shown(out: seq<Level>, price: int) {
    exists i :: 0 <= i < |out| && out[i].price == price
  }

  predicate Occurs(list: seq<Resting>, price: int) {
    exists k :: 0 <= k < |list| && list[k].price == price
  }

  predicate Worsening(out: seq<Level>, side: Side) {
    forall i, j :: 0 <= i < j < |out| ==> Better(side, out[i].price, out[j].price)
  }

  /** Every price of `list` shown once, best first, with the total resting at it. */
  predicate Complete(list: seq<Resting>, side: Side, out: seq<Level>) {
    && Worsening(out, side)
    && (forall i :: 0 <= i < |out| ==> out[i].qty == TotalAt(list, out[i].price) && Occurs(list, out[i].price))
    && (forall k :: 0 <= k < |list| ==> Shown(out, list[k].price))
    && (list == [] <==> out == [])
    && (list != [] ==> out[|out| - 1].price == list[|list| - 1].price)
  }

  lemma SamePrice(list: seq<Resting>, side: Side, out: seq<Level>, o: Resting)
    requires Complete(list, side, out) && out != [] && out[|out| - 1].price == o.price
    ensures
      var last := out[|out| - 1];
      Complete(list + [o], side, out[|out| - 1 := last.(qty := last.qty + o.qty)])
  {
    var n := |out| - 1;
    var out' := out[n := out[n].(qty := out[n].qty + o.qty)];
    assert (list + [o])[|list|] == o;
    forall i | 0 <= i <= n
      ensures out'[i].price == out[i].price
      ensures out'[i].qty == TotalAt(list + [o], out[i].price) && Occurs(list + [o], out[i].price)
    {
      TotalAtSnoc(list, o, out[i].price);
      OccursLater(list, o, out[i].price);
    }
    forall k | 0 <= k < |list| + 1 ensures Shown(out', (list + [o])[k].price) {
      var i :| 0 <= i < |out| && out[i].price == (list + [o])[k].price;
      assert out'[i].price == out[i].price;
    }
  }

  lemma OccursLater(list: seq<Resting>, o: Resting, price: int)
    requires Occurs(list, price)
    ensures Occurs(list + [o], price)
  {
    var k :| 0 <= k < |list| && list[k].price == price;
    assert (list + [o])[k] == list[k];
  }

  lemma NewPrice(list: seq<Resting>, side: Side, out: seq<Level>, o: Resting)
    requires Complete(list, side, out)
    requires forall i :: 0 <= i < |out| ==> Better(side, out[i].price, o.price)
    ensures Complete(list + [o], side, out + [Level(o.price, o.qty)])
  {
    var out' := out + [Level(o.price, o.qty)];
    assert (list + [o])[|list|] == o;
    forall k | 0 <= k < |list| ensures list[k].price != o.price {
      assert Shown(out, list[k].price);
    }
    forall i | 0 <= i < |out'|
      ensures out'[i].qty == TotalAt(list + [o], out'[i].price) && Occurs(list + [o], out'[i].price)
    {
      TotalAtSnoc(list, o, out'[i].price);
      if i < |out| {
        OccursLater(list, o, out[i].price);
      } else {
        TotalAtPrefix(list, 0, o.price);
      }
    }
    forall k | 0 <= k < |list| + 1 ensures Shown(out', (list + [o])[k].price) {
      if k < |list| {
        var i :| 0 <= i < |out| && out[i].price == list[k].price;
        assert out'[i].price == list[k].price;
      } else {
        assert out'[|out|].price == o.price;
      }
    }
  }

  lemma LaterIsWorse(list: seq<Resting>, side: Side, k: nat, out: seq<Level>)
    requires Sorted(list, side) && k < |list| && Complete(list[..k], side, out)
    requires k > 0 ==> list[k].price != list[k - 1].price
    ensures forall i, m :: 0 <= i < |out| && k <= m < |list| ==> Better(side, out[i].price, list[m].price)
  {
    if k > 0 {
      assert Before(side, list[k - 1], list[k]);
      assert out[|out| - 1].price == list[k - 1].price;
      forall m | k <= m < |list| ensures Better(side, list[k - 1].price, list[m].price) {
        if m > k { assert Before(side, list[k], list[m]); }
      }
    }
  }

  /** One side's levels: the best `depth` prices with everything resting at each. */
  method Aggregate(list: seq<Resting>, side: Side, depth: nat) returns (out: seq<Level>)
    requires Sorted(list, side)
    ensures |out| <= depth && Worsening(out, side)
    ensures forall i :: 0 <= i < |out| ==> out[i].qty == TotalAt(list, out[i].price) && Occurs(list, out[i].price)
    ensures forall k :: 0 <= k < |list| ==> Shown(out, list[k].price) || (|out| == depth && Worse(out, side, list[k].price))
  {
    out := [];
    var k := 0;
    while k < |list|
      invariant 0 <= k <= |list| && |out| <= depth
      invariant Complete(list[..k], side, out)
    {
      var o := list[k];
      assert list[..k + 1] == list[..k] + [o];
      if out != [] && out[|out| - 1].price == o.price {
        var last := out[|out| - 1];
        SamePrice(list[..k], side, out, o);
        out := out[|out| - 1 := last.(qty := last.qty + o.qty)];
      } else {
        LaterIsWorse(list, side, k, out);
        if |out| == depth { break; }
        NewPrice(list[..k], side, out, o);
        out := out + [Level(o.price, o.qty)];
      }
      k := k + 1;
    }
    Aggregated(list, side, k, out);
  }

  predicate Worse(out: seq<Level>, side: Side, price: int) {
    forall i :: 0 <= i < |out| ==> Better(side, out[i].price, price)
  }

  /** The levels of a prefix are those of the whole list when everything behind is worse. */
  lemma Aggregated(list: seq<Resting>, side: Side, k: nat, out: seq<Level>)
    requires k <= |list| && Complete(list[..k], side, out)
    requires forall m :: k <= m < |list| ==> Worse(out, side, list[m].price)
    ensures forall i :: 0 <= i < |out| ==> out[i].qty == TotalAt(list, out[i].price) && Occurs(list, out[i].price)
    ensures forall m :: 0 <= m < k ==> Shown(out, list[m].price)
  {
    forall i | 0 <= i < |out| ensures out[i].qty == TotalAt(list, out[i].price) && Occurs(list, out[i].price) {
      TotalAtPrefix(list, k, out[i].price);
      var m :| 0 <= m < k && list[..k][m].price == out[i].price;
      assert list[m].price == out[i].price;
    }
    forall m | 0 <= m < k ensures Shown(out, list[m].price) {
      assert list[..k][m] == list[m];
    }
  }
}
