/**
 * The market maker: it posts a replacement before it cancels, keeps every row
 * tracked until the exchange reports it closed, and moves far one side at a
 * time. Each method keeps the maker safe, whatever the exchange answers.
 */
module MarketMaker {
  import opened Common
  import opened Liquidity
  import opened LadderSizing
  import opened MakerQuotes
  import opened MakerRuns
  import opened MakerRefresh
  import opened MakerRelocation
  import opened QuoteRemapping

  // ---- Picking quotes of a level ----

  function AtLevel(plan: seq<Quote>, level: nat, side: Side): seq<Quote> {
    Select(plan, (q: Quote) => q.level == level && q.side == side)
  }

  /** Moving up, asks go first at each level; moving down, or staying, bids do. */
  function FirstSide(centerDirection: int): Side {
    if centerDirection > 0 then Sell else Buy
  }

  function LadderOrder(plan: seq<Quote>, levels: nat, centerDirection: int): seq<Quote> {
    if levels == 0 then []
    else
      var first := FirstSide(centerDirection);
      LadderOrder(plan, levels - 1, centerDirection) + AtLevel(plan, levels - 1, first) + AtLevel(plan, levels - 1, Opposite(first))
  }

  /** Refreshing by level visits every quote of the plan once. */
  lemma {:induction false} LadderOrderCovers(plan: seq<Quote>, levels: nat, centerDirection: int)
    requires DistinctSlots(plan)
    ensures forall q :: q in LadderOrder(plan, levels, centerDirection) <==> q in plan && q.level < levels
    ensures DistinctSlots(LadderOrder(plan, levels, centerDirection))
  {
    if levels > 0 {
      var first := FirstSide(centerDirection);
      LadderOrderCovers(plan, levels - 1, centerDirection);
      var before := LadderOrder(plan, levels - 1, centerDirection);
      var a := AtLevel(plan, levels - 1, first);
      var b := AtLevel(plan, levels - 1, Opposite(first));
      Selected(plan, (q: Quote) => q.level == levels - 1 && q.side == first);
      Selected(plan, (q: Quote) => q.level == levels - 1 && q.side == Opposite(first));
      assert forall q :: q in a ==> q.level == levels - 1 && q.side == first;
      assert forall q :: q in b ==> q.level == levels - 1 && q.side == Opposite(first);
      DistinctTogether(a, b);
      DistinctTogether(before, a + b);
      assert before + a + b == before + (a + b);
    }
  }

  /** An earlier quote is on a nearer level, or on the same one and not behind the leading side: asks when moving up, bids otherwise. */
  predicate Leads(p: Quote, q: Quote, centerDirection: int) {
    p.level < q.level || (p.level == q.level && (p.side == q.side || p.side == if centerDirection > 0 then Sell else Buy))
  }

  predicate InLeadingOrder(quotes: seq<Quote>, centerDirection: int) {
    forall i, j :: 0 <= i < j < |quotes| ==> Leads(quotes[i], quotes[j], centerDirection)
  }

  predicate AllAt(quotes: seq<Quote>, level: nat, side: Side) {
    forall q :: q in quotes ==> q.level == level && q.side == side
  }

  lemma AtLevelIs(plan: seq<Quote>, level: nat, side: Side)
    requires DistinctSlots(plan)
    ensures AllAt(AtLevel(plan, level, side), level, side)
  {
    Selected(plan, (q: Quote) => q.level == level && q.side == side);
  }

  lemma OrderIs(plan: seq<Quote>, levels: nat, centerDirection: int)
    requires levels > 0
    ensures
      var first := FirstSide(centerDirection);
      LadderOrder(plan, levels, centerDirection) ==
      LadderOrder(plan, levels - 1, centerDirection) + AtLevel(plan, levels - 1, first) + AtLevel(plan, levels - 1, Opposite(first))
  {
  }

  predicate Below(quotes: seq<Quote>, level: nat) {
    forall q :: q in quotes ==> q.level < level
  }

  lemma OrderBelow(plan: seq<Quote>, levels: nat, centerDirection: int)
    requires DistinctSlots(plan)
    ensures Below(LadderOrder(plan, levels, centerDirection), levels)
  {
    LadderOrderCovers(plan, levels, centerDirection);
  }

  /** The refresh visits levels nearest first, the leading side first at each. */
  lemma {:induction false} LadderOrderLeads(plan: seq<Quote>, levels: nat, centerDirection: int)
    requires DistinctSlots(plan)
    ensures InLeadingOrder(LadderOrder(plan, levels, centerDirection), centerDirection)
  {
    if levels > 0 {
      var first := FirstSide(centerDirection);
      var before, a, b := LadderOrder(plan, levels - 1, centerDirection), AtLevel(plan, levels - 1, first), AtLevel(plan, levels - 1, Opposite(first));
      LadderOrderLeads(plan, levels - 1, centerDirection);
      OrderBelow(plan, levels - 1, centerDirection);
      AtLevelIs(plan, levels - 1, first);
      AtLevelIs(plan, levels - 1, Opposite(first));
      OrderIs(plan, levels, centerDirection);
      LeadsTogether(before, a, b, levels - 1, centerDirection);
    }
  }

  lemma LeadsTogether(before: seq<Quote>, a: seq<Quote>, b: seq<Quote>, level: nat, centerDirection: int)
    requires InLeadingOrder(before, centerDirection) && Below(before, level)
    requires AllAt(a, level, FirstSide(centerDirection)) && AllAt(b, level, Opposite(FirstSide(centerDirection)))
    ensures InLeadingOrder(before + a + b, centerDirection)
  {
    var order := before + a + b;
    assert forall i :: 0 <= i < |before| ==> order[i] == before[i] && before[i] in before;
    forall i, j | 0 <= i < j < |order|
      ensures Leads(order[i], order[j], centerDirection)
    {
      assert j >= |before| ==> order[j] in a || order[j] in b;
      assert i >= |before| + |a| ==> order[i] in b;
      assert j >= |before| + |a| ==> order[j] in b;
      assert |before| <= i < |before| + |a| ==> order[i] in a;
    }
  }

  lemma DistinctTogether(x: seq<Quote>, y: seq<Quote>)
    requires DistinctSlots(x) && DistinctSlots(y)
    requires forall p, q :: p in x && q in y ==> SlotOf(p) != SlotOf(q)
    ensures DistinctSlots(x + y)
  {
    forall i, j | 0 <= i < j < |x + y|
      ensures SlotOf((x + y)[i]) != SlotOf((x + y)[j])
    {
      if i < |x| <= j {
        assert x[i] in x && y[j - |x|] in y;
      }
    }
  }

  lemma SomeAnswered(replies: Replies, plan: seq<Quote>, quotes: seq<Quote>)
    requires Answered(replies, plan) && forall q :: q in quotes ==> q in plan
    ensures Answered(replies, quotes)
  {
    forall i | 0 <= i < |quotes|
      ensures SlotOf(quotes[i]) in replies
    {
      assert quotes[i] in quotes;
    }
  }

  method ReconcileRows(rows: map<int, Row>, snapshot: Snapshot) returns (after: map<int, Row>)
    requires KeyedById(rows)
    ensures RowsReconciled(rows, snapshot, after)
  {
    after := rows;
    var rest := rows.Keys;
    while rest != {}
      invariant rest <= rows.Keys
      invariant forall id :: id in after <==> id in rows && (id in rest || Kept(id, snapshot))
      invariant forall id :: id in after ==> after[id] == if id in rest then rows[id] else Seen(rows[id], snapshot)
      decreases |rest|
    {
      var id := Pick(rest);
      if !Kept(id, snapshot) {
        after := after - {id};
      } else {
        after := after[id := Seen(rows[id], snapshot)];
      }
      rest := rest - {id};
    }
  }

  method ReconcileActive(active: map<Slot, Managed>, snapshot: Snapshot) returns (after: map<Slot, Managed>)
    ensures ActiveReconciled(active, snapshot, after)
  {
    after := active;
    var rest := active.Keys;
    while rest != {}
      invariant rest <= active.Keys
      invariant forall s :: s in after <==> s in active && (s in rest || Kept(active[s].row.order.id, snapshot))
      invariant forall s :: s in after ==> after[s] == if s in rest then active[s] else active[s].(row := Seen(active[s].row, snapshot))
      decreases |rest|
    {
      var s := Pick(rest);
      var quote := active[s];
      if !Kept(quote.row.order.id, snapshot) {
        after := after - {s};
      } else {
        after := after[s := quote.(row := Seen(quote.row, snapshot))];
      }
      rest := rest - {s};
    }
  }

  class MarketMaker {
    var active: map<Slot, Managed>
    var retiring: map<int, Row>
    var preserved: map<int, Row>
    var retirable: map<int, Row>
    ghost var inFlight: set<Order>
    ghost var live: set<Order>
    ghost var issued: set<int>

    function Tracking(): Maker
      reads this
    {
      Maker(active, retiring, preserved, retirable)
    }

    ghost function Now(): State
      reads this
    {
      State(Tracking(), inFlight, live, issued)
    }

    /** Nothing is in flight between calls, and the own orders are tracked and cannot cross. */
    ghost predicate Valid()
      reads this
    {
      Idle(Now())
    }

    /** Starts from inherited rows that do not cross. */
    constructor (adopted: map<Slot, Managed>, guards: map<int, Row>, duplicates: map<int, Row>, ghost resting: set<Order>, ghost used: set<int>)
      requires Idle(State(Maker(adopted, map[], guards, duplicates), {}, resting, used))
      ensures Valid() && Now() == State(Maker(adopted, map[], guards, duplicates), {}, resting, used)
    {
      active, retiring, preserved, retirable := adopted, map[], guards, duplicates;
      inFlight, live, issued := {}, resting, used;
    }

    /** Orders may close at any time; what is left still cannot cross. */
    ghost method ExchangeCloses(closed: set<Order>)
      requires Valid()
      modifies `live
      ensures Valid() && live == old(live) - closed
    {
      StepKeepsSafe(Now(), Exchange(live - closed));
      live := live - closed;
    }

    /** Post before cancel; `replies` is what the exchange answers if it is asked. */
    method ReplaceQuote(desired: Quote, reply: Reply)
      requires Valid() && (reply.Placed? ==> reply.id !in issued)
      modifies this
      ensures Valid() && Now() == Replaced(old(Now()), desired, reply)
    {
      ReplacedIdle(Now(), desired, reply);
      if IsQuoteSufficient(active, desired) || !CanAdd(desired, Tracking()) {
        return;
      }
      if reply.Placed? {
        Place(desired, reply.id);
      }
    }

    method Place(desired: Quote, id: int)
      requires Valid() && Enabled(Now(), Ask(desired, id))
      modifies this
      ensures Now() == PlacedNow(old(Now()), desired, id)
    {
      PlacedNowIs(Now(), desired, id);
      inFlight := {OrderFor(desired, id)};
      live := live + {OrderFor(desired, id)};
      issued := issued + {id};
      Confirm(desired, id);
    }

    method RefreshInOrder(quotes: seq<Quote>, replies: Replies)
      requires Valid() && DistinctSlots(quotes) && Answered(replies, quotes) && FreshReplies(replies, issued)
      modifies this
      ensures Valid() && Now() == RefreshAll(old(Now()), quotes, replies)
    {
      ghost var left := replies;
      ghost var st := Now();
      var i := 0;
      assert quotes[0..] == quotes;
      while i < |quotes|
        invariant 0 <= i <= |quotes| && Valid()
        invariant DistinctSlots(quotes[i..]) && Answered(left, quotes[i..]) && FreshReplies(left, issued)
        invariant forall s :: s in left ==> s in replies && left[s] == replies[s]
        invariant RefreshAll(st, quotes, replies) == RefreshAll(Now(), quotes[i..], left)
      {
        var desired := quotes[i];
        assert quotes[i..][0] == desired && quotes[i..][1..] == quotes[i + 1..];
        NextReplies(Now(), quotes[i..], left);
        ReplaceQuote(desired, replies[SlotOf(desired)]);
        left := left - {SlotOf(desired)};
        i := i + 1;
      }
      assert quotes[i..] == [];
    }

    /** Every level, nearest first, the leading side first at each. */
    method RefreshWholeLadder(plan: seq<Quote>, centerDirection: int, replies: Replies)
      requires Valid() && DistinctSlots(plan) && Answered(replies, plan) && FreshReplies(replies, issued)
      modifies this
      ensures Valid()
      ensures
        var order := LadderOrder(plan, LEVELS, centerDirection);
        DistinctSlots(order) && Answered(replies, order) && Now() == RefreshAll(old(Now()), order, replies)
    {
      LadderOrderCovers(plan, LEVELS, centerDirection);
      var order := LadderOrder(plan, LEVELS, centerDirection);
      SomeAnswered(replies, plan, order);
      RefreshInOrder(order, replies);
    }

    /** Asks for every wanted quote first; the answers then come in any order. */
    method RefreshPlanSide(plan: seq<Quote>, side: Side, replies: Replies)
      returns (ghost done: set<nat>)
      requires Valid() && DistinctSlots(plan) && Answered(replies, plan) && FreshReplies(replies, issued)
      modifies this
      ensures Valid()
      ensures
        var quotes := OnSide(plan, side);
        && DistinctSlots(quotes) && Answered(replies, quotes)
        && SideRefreshed(old(Tracking()), quotes, replies, done, Tracking())
        && forall i :: 0 <= i < |quotes| ==> (i in done <==> Won(old(Tracking()), quotes[i], replies))
    {
      var quotes := OnSide(plan, side);
      Selected(plan, (q: Quote) => q.side == side);
      SomeAnswered(replies, plan, quotes);
      assert forall i :: 0 <= i < |quotes| ==> quotes[i] in quotes;
      ghost var before := issued;
      var pending := AskSide(quotes, side, replies);
      AwaitSide(quotes, replies, pending, before);
      done := pending;
    }

    method AskSide(quotes: seq<Quote>, side: Side, replies: Replies) returns (pending: set<nat>)
      requires Valid() && DistinctSlots(quotes) && Answered(replies, quotes) && FreshReplies(replies, issued)
      requires forall i :: 0 <= i < |quotes| ==> quotes[i].side == side
      modifies `inFlight, `live, `issued
      ensures PartlyAnswered(Now(), Tracking(), quotes, replies, pending, pending)
    {
      pending := {};
      ghost var before := issued;
      ghost var m := Tracking();
      for k := 0 to |quotes|
        invariant Asked(Now(), m, before, quotes, side, replies, k, pending)
      {
        var asked := AskOne(m, before, quotes, side, replies, k, pending);
        pending := if asked then pending + {k} else pending;
      }
      StepKeepsSafe(Now(), Exchange(live + inFlight));
      live := live + inFlight;
    }

    method AskOne(ghost m: Maker, ghost before: set<int>, quotes: seq<Quote>, side: Side, replies: Replies, k: nat, ghost pending: set<nat>)
      returns (asked: bool)
      requires DistinctSlots(quotes) && Answered(replies, quotes) && FreshReplies(replies, before) && k < |quotes|
      requires Asked(Now(), m, before, quotes, side, replies, k, pending) && quotes[k].side == side
      modifies `inFlight, `issued
      ensures Asked(Now(), m, before, quotes, side, replies, k + 1, if asked then pending + {k} else pending)
    {
      var desired := quotes[k];
      var reply := replies[SlotOf(desired)];
      asked := !IsQuoteSufficient(active, desired) && CanAdd(desired, Tracking()) && reply.Placed?;
      if asked {
        AskedMore(Now(), m, before, quotes, side, replies, k, pending);
        inFlight := inFlight + {OrderFor(desired, reply.id)};
        issued := issued + {reply.id};
      } else {
        AskedSame(Now(), m, before, quotes, side, replies, k, pending);
      }
    }

    method AwaitSide(quotes: seq<Quote>, replies: Replies, asked: set<nat>, ghost before: set<int>)
      requires DistinctSlots(quotes) && Answered(replies, quotes) && FreshReplies(replies, before)
      requires PartlyAnswered(Now(), Tracking(), quotes, replies, asked, asked)
      modifies `active, `retiring, `inFlight
      ensures Valid() && SideRefreshed(old(Tracking()), quotes, replies, asked, Tracking())
    {
      ghost var m := Tracking();
      var pending := asked;
      while pending != {}
        invariant PartlyAnswered(Now(), m, quotes, replies, asked, pending)
        decreases |pending|
      {
        var k := Pick(pending);
        AwaitOne(m, quotes, replies, before, asked, pending, k);
        pending := pending - {k};
      }
      AllAnswered(Now(), m, quotes, replies, asked);
    }

    method AwaitOne(ghost m: Maker, quotes: seq<Quote>, replies: Replies, ghost before: set<int>, ghost asked: set<nat>, ghost pending: set<nat>, k: nat)
      requires DistinctSlots(quotes) && Answered(replies, quotes) && FreshReplies(replies, before)
      requires PartlyAnswered(Now(), m, quotes, replies, asked, pending) && k in pending
      modifies `active, `retiring, `inFlight
      ensures PartlyAnswered(Now(), m, quotes, replies, asked, pending - {k})
    {
      AnswerNext(Now(), m, quotes, replies, before, asked, pending, k);
      Confirm(quotes[k], replies[SlotOf(quotes[k])].id);
    }

    /** The answer to one request: the new order takes the slot, the old one is now being retired. */
    method Confirm(desired: Quote, id: int)
      requires Enabled(Now(), Confirmed(desired, id))
      modifies `active, `retiring, `inFlight
      ensures Now() == Next(old(Now()), Confirmed(desired, id))
    {
      var slot := SlotOf(desired);
      if slot in active {
        var current := active[slot];
        retiring := retiring[current.row.order.id := current.row];
      }
      active := active[slot := Managed(Row(Order(id, desired.side, desired.price), desired.qty), desired.level, false)];
      inFlight := inFlight - {OrderFor(desired, id)};
    }

    /** Fits the maps to the account's live orders; only what a complete list no longer shows is dropped. */
    method ReconcileQuotes(snapshot: Snapshot)
      requires Valid() && forall o :: o in live ==> Kept(o.id, snapshot)
      modifies this
      ensures Valid() && Reconciled(old(Tracking()), snapshot, Tracking())
      ensures inFlight == old(inFlight) && live == old(live) && issued == old(issued)
    {
      ghost var st := Now();
      var activeLeft := ReconcileActive(active, snapshot);
      var retiringLeft := ReconcileRows(retiring, snapshot);
      var preservedLeft := ReconcileRows(preserved, snapshot);
      var retirableLeft := ReconcileRows(retirable, snapshot);
      StepKeepsSafe(st, Reconcile(snapshot, Maker(activeLeft, retiringLeft, preservedLeft, retirableLeft)));
      active, retiring, preserved, retirable := activeLeft, retiringLeft, preservedLeft, retirableLeft;
    }

    /** Re-keys the ladder for a plan; what it no longer uses waits to be retired. */
    method RemapForPlan(plan: seq<Quote>, strictSides: set<Side>) returns (superseded: seq<Row>)
      requires Valid() && DistinctSlots(plan)
      modifies this
      ensures Valid() && Remapped(old(active), plan, strictSides, active, superseded)
      ensures Now() == old(Now()).(maker := Superseding(old(Tracking()), active, superseded))
      ensures forall o :: Tracks(Tracking(), o) <==> Tracks(old(Tracking()), o)
    {
      ghost var st := Now();
      var remapped;
      remapped, superseded := RemapActiveQuotesForPlan(active, plan, strictSides);
      StepKeepsSafe(st, Remap(plan, strictSides, remapped, superseded));
      forall o ensures Tracks(Superseding(st.maker, remapped, superseded), o) <==> Tracks(st.maker, o) {
        RemappingTracks(st.maker, remapped, superseded, o);
      }
      active := remapped;
      var start := retirable;
      for k := 0 to |superseded|
        invariant retirable == PutAll(start, superseded[..k])
        invariant Tracking() == Maker(remapped, st.maker.retiring, st.maker.preserved, retirable)
        invariant inFlight == st.inFlight && live == st.live && issued == st.issued
      {
        assert superseded[..k + 1][..k] == superseded[..k];
        retirable := retirable[superseded[k].order.id := superseded[k]];
      }
      assert superseded[..|superseded|] == superseded;
    }

    method RetireOne(id: int)
      requires Valid() && id in retirable
      modifies `retiring, `retirable
      ensures Valid() && Tracking() == Retired(old(Tracking()), id)
      ensures forall o :: Tracks(Tracking(), o) <==> Tracks(old(Tracking()), o)
    {
      ghost var st := Now();
      StepKeepsSafe(st, Retire(id));
      forall o ensures Tracks(Retired(st.maker, id), o) <==> Tracks(st.maker, o) {
        RetiredTracks(st.maker, id, o);
      }
      retiring := retiring[id := retirable[id]];
      retirable := retirable - {id};
    }

    /** Rows move over one by one; a cancellation that does not get through ends the pass, the row already moved. */
    method RetireRetirableQuotes(failing: set<int>) returns (threw: bool)
      requires Valid()
      modifies this
      ensures Valid() && active == old(active) && preserved == old(preserved)
      ensures forall o :: Tracks(Tracking(), o) <==> Tracks(old(Tracking()), o)
      ensures forall id :: id in retirable ==> id in old(retirable) && retirable[id] == old(retirable)[id]
      ensures forall id :: id in old(retirable) && id !in retirable ==> id in retiring && retiring[id] == old(retirable)[id]
      ensures if threw then exists id :: id in failing && id in old(retirable) && id !in retirable else retirable == map[]
    {
      ghost var m := Tracking();
      var start := retirable;
      var rest := retirable.Keys;
      while rest != {}
        invariant Valid() && rest == retirable.Keys && active == m.active && preserved == m.preserved
        invariant forall o :: Tracks(Tracking(), o) <==> Tracks(m, o)
        invariant forall id :: id in retirable ==> id in start && retirable[id] == start[id]
        invariant forall id :: id in start && id !in retirable ==> id in retiring && retiring[id] == start[id]
        decreases |rest|
      {
        var id := Pick(rest);
        RetireOne(id);
        rest := rest - {id};
        if id in failing {
          return true;
        }
      }
      threw := false;
    }

    method RetireRetirableQuotesWhenPlanIsSufficient(plan: seq<Quote>, failing: set<int>) returns (ready: bool, threw: bool)
      requires Valid()
      modifies this
      ensures Valid() && active == old(active) && preserved == old(preserved)
      ensures ready == MatchesPlan(old(active), plan)
      ensures !ready ==> !threw && Now() == old(Now())
      ensures ready && !threw ==> retirable == map[]
      ensures forall o :: Tracks(Tracking(), o) <==> Tracks(old(Tracking()), o)
    {
      if !MatchesPlan(active, plan) {
        return false, false;
      }
      ready := true;
      threw := RetireRetirableQuotes(failing);
    }

    /**
     * One step of a far relocation. The second side is only asked for when the
     * first stands as planned and none of its old rows still waits for its end.
     */
    method AdvanceStagedQuoteMigration(plan: seq<Quote>, firstSide: Side, replies: Replies)
      returns (progress: Progress, ghost done: set<nat>)
      requires Valid() && DistinctSlots(plan) && Answered(replies, plan) && FreshReplies(replies, issued)
      modifies this
      ensures Valid()
      ensures Advances(old(Tracking()), plan, firstSide, replies, progress, done, Tracking())
      ensures progress.WaitingForFirstSideRetirement? || progress.Complete? ==> Now() == old(Now())
    {
      var secondSide := Opposite(firstSide);
      done := {};
      if !SideMatchesPlan(active, plan, firstSide) {
        done := RefreshPlanSide(plan, firstSide, replies);
        return StagingFirstSide, done;
      }
      if HasLiveSide(retiring, firstSide) {
        return WaitingForFirstSideRetirement, done;
      }
      if !SideMatchesPlan(active, plan, secondSide) {
        done := RefreshPlanSide(plan, secondSide, replies);
        return StagingSecondSide, done;
      }
      return Complete, done;
    }
  }
}
