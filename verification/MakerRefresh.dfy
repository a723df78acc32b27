/**
 * What a refresh of the ladder comes to: quote by quote in sequence, or one
 * side at once with the answers coming in any order.
 */
module MakerRefresh {
  import opened Common
  import opened Liquidity
  import opened MakerQuotes
  import opened MakerRuns
  import opened QuoteRemapping

  // ---- Picking quotes of a plan ----

  function Select(plan: seq<Quote>, wanted: Quote -> bool): seq<Quote> {
    if plan == [] then []
    else Select(plan[..|plan| - 1], wanted) + if wanted(plan[|plan| - 1]) then [plan[|plan| - 1]] else []
  }

  lemma {:induction false} Selected(plan: seq<Quote>, wanted: Quote -> bool)
    requires DistinctSlots(plan)
    ensures forall q :: q in Select(plan, wanted) <==> q in plan && wanted(q)
    ensures DistinctSlots(Select(plan, wanted))
  {
    if plan != [] {
      var last := |plan| - 1;
      Selected(plan[..last], wanted);
      assert plan == plan[..last] + [plan[last]];
      forall i | 0 <= i < |Select(plan[..last], wanted)|
        ensures SlotOf(Select(plan[..last], wanted)[i]) != SlotOf(plan[last])
      {
        assert Select(plan[..last], wanted)[i] in plan[..last];
      }
    }
  }

  function OnSide(plan: seq<Quote>, side: Side): seq<Quote> {
    Select(plan, (q: Quote) => q.side == side)
  }

  // ---- One quote ----

  /** The answer to a placement. `Failed` is a request that did not reach the exchange. */
  datatype Reply = Placed(id: int) | Rejected | Failed

  type Replies = map<Slot, Reply>

  predicate Wanted(m: Maker, desired: Quote) {
    !IsQuoteSufficient(m.active, desired) && CanAdd(desired, m)
  }

  predicate FreshReplies(replies: Replies, issued: set<int>) {
    && (forall s :: s in replies && replies[s].Placed? ==> replies[s].id !in issued)
    && (forall s, t :: s in replies && t in replies && replies[s].Placed? && replies[t].Placed? && replies[s].id == replies[t].id ==> s == t)
  }

  predicate Answered(replies: Replies, quotes: seq<Quote>) {
    forall i :: 0 <= i < |quotes| ==> SlotOf(quotes[i]) in replies
  }

  /** Asked, accepted by the exchange, confirmed. */
  ghost function PlacedNow(st: State, desired: Quote, id: int): State
    requires Enabled(st, Ask(desired, id))
  {
    var asked := Next(st, Ask(desired, id));
    var accepted := Next(asked, Exchange(asked.live + {OrderFor(desired, id)}));
    Next(accepted, Confirmed(desired, id))
  }

  lemma PlacedNowIs(st: State, desired: Quote, id: int)
    requires Enabled(st, Ask(desired, id)) && st.inFlight == {}
    ensures PlacedNow(st, desired, id) == State(Posted(st.maker, desired, id), {}, st.live + {OrderFor(desired, id)}, st.issued + {id})
    ensures Safe(st) ==> Safe(PlacedNow(st, desired, id))
  {
    var asked := Next(st, Ask(desired, id));
    var step := Exchange(asked.live + {OrderFor(desired, id)});
    var accepted := Next(asked, step);
    if Safe(st) {
      StepKeepsSafe(st, Ask(desired, id));
      StepKeepsSafe(asked, step);
      StepKeepsSafe(accepted, Confirmed(desired, id));
    }
  }

  ghost predicate Idle(st: State) {
    Safe(st) && st.inFlight == {}
  }

  ghost function Replaced(st: State, desired: Quote, reply: Reply): State
    requires st.inFlight == {} && (reply.Placed? ==> reply.id !in st.issued)
  {
    if Wanted(st.maker, desired) && reply.Placed? then PlacedNow(st, desired, reply.id) else st
  }

  lemma ReplacedIdle(st: State, desired: Quote, reply: Reply)
    requires Idle(st) && (reply.Placed? ==> reply.id !in st.issued)
    ensures Idle(Replaced(st, desired, reply))
    ensures Replaced(st, desired, reply).issued <= st.issued + (if reply.Placed? then {reply.id} else {})
  {
    if Wanted(st.maker, desired) && reply.Placed? {
      PlacedNowIs(st, desired, reply.id);
    }
  }

  // ---- Quote after quote ----

  lemma StillFresh(replies: Replies, issued: set<int>, desired: Quote)
    requires FreshReplies(replies, issued) && SlotOf(desired) in replies
    ensures var reply := replies[SlotOf(desired)];
            FreshReplies(replies - {SlotOf(desired)}, issued + if reply.Placed? then {reply.id} else {})
  {
  }

  lemma FewerIssued(replies: Replies, more: set<int>, fewer: set<int>)
    requires FreshReplies(replies, more) && fewer <= more
    ensures FreshReplies(replies, fewer)
  {
  }

  lemma NextReplies(st: State, quotes: seq<Quote>, replies: Replies)
    requires quotes != [] && Idle(st) && DistinctSlots(quotes) && Answered(replies, quotes) && FreshReplies(replies, st.issued)
    ensures
      var slot := SlotOf(quotes[0]);
      var next := Replaced(st, quotes[0], replies[slot]);
      Idle(next) && DistinctSlots(quotes[1..]) && Answered(replies - {slot}, quotes[1..]) && FreshReplies(replies - {slot}, next.issued)
  {
    var slot := SlotOf(quotes[0]);
    ReplacedIdle(st, quotes[0], replies[slot]);
    StillFresh(replies, st.issued, quotes[0]);
    var next := Replaced(st, quotes[0], replies[slot]);
    var reply := replies[slot];
    FewerIssued(replies - {slot}, st.issued + (if reply.Placed? then {reply.id} else {}), next.issued);
  }

  ghost function RefreshAll(st: State, quotes: seq<Quote>, replies: Replies): (after: State)
    requires Idle(st) && DistinctSlots(quotes) && Answered(replies, quotes) && FreshReplies(replies, st.issued)
    ensures Idle(after)
    decreases quotes
  {
    if quotes == [] then st else
      NextReplies(st, quotes, replies);
      RefreshAll(Replaced(st, quotes[0], replies[SlotOf(quotes[0])]), quotes[1..], replies - {SlotOf(quotes[0])})
  }

  /** The plan can stand beside everything tracked, and beside itself. */
  predicate PlanFits(m: Maker, quotes: seq<Quote>) {
    && (forall i :: 0 <= i < |quotes| ==> CanAdd(quotes[i], m) && quotes[i].qty >= 1)
    && (forall i, j :: 0 <= i < |quotes| && 0 <= j < |quotes| ==> CanPair(quotes[i].side, quotes[i].price, quotes[j].side, quotes[j].price))
  }

  lemma PostedFits(m: Maker, quotes: seq<Quote>, id: int)
    requires quotes != [] && PlanFits(m, quotes)
    ensures PlanFits(Posted(m, quotes[0], id), quotes[1..])
  {
    var after := Posted(m, quotes[0], id);
    forall i | 0 <= i < |quotes[1..]|
      ensures CanAdd(quotes[1..][i], after)
    {
      var q := quotes[1..][i];
      assert q == quotes[i + 1];
      assert CanPair(q.side, q.price, quotes[0].side, quotes[0].price);
      assert CanAdd(q, m);
    }
  }

  lemma PostedSuffices(m: Maker, desired: Quote, id: int)
    requires desired.qty >= 1
    ensures IsQuoteSufficient(Posted(m, desired, id).active, desired)
  {
  }

  predicate AllSufficient(active: map<Slot, Managed>, quotes: seq<Quote>) {
    forall i :: 0 <= i < |quotes| ==> IsQuoteSufficient(active, quotes[i])
  }

  predicate KeptElsewhere(before: map<Slot, Managed>, after: map<Slot, Managed>, quotes: seq<Quote>) {
    forall s :: s in before && !PlanHasSlot(quotes, s) ==> s in after && after[s] == before[s]
  }

  lemma FirstFilled(st: State, quotes: seq<Quote>, reply: Reply)
    requires Idle(st) && quotes != [] && PlanFits(st.maker, quotes) && reply.Placed? && reply.id !in st.issued
    ensures
      var next := Replaced(st, quotes[0], reply).maker;
      && IsQuoteSufficient(next.active, quotes[0]) && PlanFits(next, quotes[1..])
      && KeptElsewhere(st.maker.active, next.active, quotes[..1])
  {
    assert SlotOf(quotes[..1][0]) == SlotOf(quotes[0]);
    if Wanted(st.maker, quotes[0]) {
      PlacedNowIs(st, quotes[0], reply.id);
      PostedFits(st.maker, quotes, reply.id);
      PostedSuffices(st.maker, quotes[0], reply.id);
    }
  }

  lemma FilledTogether(before: map<Slot, Managed>, mid: map<Slot, Managed>, after: map<Slot, Managed>, quotes: seq<Quote>)
    requires quotes != [] && DistinctSlots(quotes)
    requires IsQuoteSufficient(mid, quotes[0]) && KeptElsewhere(before, mid, quotes[..1])
    requires AllSufficient(after, quotes[1..]) && KeptElsewhere(mid, after, quotes[1..])
    ensures AllSufficient(after, quotes) && KeptElsewhere(before, after, quotes)
  {
    var rest := quotes[1..];
    assert forall i :: 0 <= i < |rest| ==> rest[i] == quotes[i + 1];
    assert !PlanHasSlot(rest, SlotOf(quotes[0]));
    forall i | 0 <= i < |quotes|
      ensures IsQuoteSufficient(after, quotes[i])
    {
      if i > 0 {
        assert quotes[i] == rest[i - 1];
      }
    }
    forall s | s in before && !PlanHasSlot(quotes, s)
      ensures s in after && after[s] == before[s]
    {
      assert !PlanHasSlot(rest, s) && !PlanHasSlot(quotes[..1], s);
    }
  }

  /**
   * If the plan fits beside what is tracked and the exchange accepts every
   * placement, one pass leaves every level of it sufficient, and the slots the
   * plan does not name alone.
   */
  lemma {:induction false} RefreshFillsPlan(st: State, quotes: seq<Quote>, replies: Replies)
    requires Idle(st) && DistinctSlots(quotes) && Answered(replies, quotes) && FreshReplies(replies, st.issued)
    requires PlanFits(st.maker, quotes)
    requires forall i :: 0 <= i < |quotes| ==> replies[SlotOf(quotes[i])].Placed?
    ensures AllSufficient(RefreshAll(st, quotes, replies).maker.active, quotes)
    ensures KeptElsewhere(st.maker.active, RefreshAll(st, quotes, replies).maker.active, quotes)
    decreases quotes
  {
    if quotes != [] {
      var slot := SlotOf(quotes[0]);
      NextReplies(st, quotes, replies);
      FirstFilled(st, quotes, replies[slot]);
      var next := Replaced(st, quotes[0], replies[slot]);
      forall i | 0 <= i < |quotes[1..]|
        ensures (replies - {slot})[SlotOf(quotes[1..][i])].Placed?
      {
        assert quotes[1..][i] == quotes[i + 1];
      }
      RefreshFillsPlan(next, quotes[1..], replies - {slot});
      FilledTogether(st.maker.active, next.maker.active, RefreshAll(st, quotes, replies).maker.active, quotes);
    }
  }

  /** The level stands at its planned price with at least nine tenths of its plan if it is the best, 45 in a hundred otherwise. */
  predicate StandsDeep(active: map<Slot, Managed>, quote: Quote) {
    && SlotOf(quote) in active && active[SlotOf(quote)].row.order.price == quote.price
    && active[SlotOf(quote)].row.qty >= 1
    && if quote.level == 0 then 10 * active[SlotOf(quote)].row.qty >= 9 * quote.qty else 100 * active[SlotOf(quote)].row.qty >= 45 * quote.qty
  }

  /** A level is left alone exactly when it stands that deep and is not marked for replacement. */
  lemma SufficientIff(active: map<Slot, Managed>, quote: Quote)
    ensures IsQuoteSufficient(active, quote) <==> StandsDeep(active, quote) && !active[SlotOf(quote)].needsNormalization
  {
  }

  /** After such a pass no level of the plan is missing or thin. */
  lemma RefreshFillsLevels(st: State, quotes: seq<Quote>, replies: Replies, i: nat)
    requires Idle(st) && DistinctSlots(quotes) && Answered(replies, quotes) && FreshReplies(replies, st.issued)
    requires PlanFits(st.maker, quotes) && i < |quotes|
    requires forall k :: 0 <= k < |quotes| ==> replies[SlotOf(quotes[k])].Placed?
    ensures StandsDeep(RefreshAll(st, quotes, replies).maker.active, quotes[i])
  {
    RefreshFillsPlan(st, quotes, replies);
    SufficientIff(RefreshAll(st, quotes, replies).maker.active, quotes[i]);
  }

  // ---- One side at once ----

  predicate Won(m: Maker, desired: Quote, replies: Replies)
    requires SlotOf(desired) in replies
  {
    Wanted(m, desired) && replies[SlotOf(desired)].Placed?
  }

  function Entry(desired: Quote, id: int): Managed {
    Managed(Row(OrderFor(desired, id), desired.qty), desired.level, false)
  }

  predicate Served(quotes: seq<Quote>, done: set<nat>, s: Slot) {
    exists i :: i in done && i < |quotes| && SlotOf(quotes[i]) == s
  }

  predicate Displaced(m: Maker, quotes: seq<Quote>, done: set<nat>, id: int) {
    exists i :: i in done && i < |quotes| && SlotOf(quotes[i]) in m.active && m.active[SlotOf(quotes[i])].row.order.id == id
  }

  ghost predicate AllWon(m: Maker, quotes: seq<Quote>, replies: Replies, done: set<nat>) {
    forall i :: i in done ==> i < |quotes| && SlotOf(quotes[i]) in replies && Won(m, quotes[i], replies)
  }

  ghost predicate SlotsRefreshed(m: Maker, quotes: seq<Quote>, replies: Replies, done: set<nat>, active: map<Slot, Managed>)
    requires AllWon(m, quotes, replies, done)
  {
    && (forall i :: i in done ==> SlotOf(quotes[i]) in active && active[SlotOf(quotes[i])] == Entry(quotes[i], replies[SlotOf(quotes[i])].id))
    && (forall s :: !Served(quotes, done, s) ==> (s in active <==> s in m.active) && (s in m.active ==> active[s] == m.active[s]))
  }

  ghost predicate RowsDisplaced(m: Maker, quotes: seq<Quote>, done: set<nat>, retiring: map<int, Row>) {
    && (forall id :: id in retiring <==> id in m.retiring || Displaced(m, quotes, done, id))
    && (forall id :: id in m.retiring ==> retiring[id] == m.retiring[id])
    && (forall i :: i in done && i < |quotes| && SlotOf(quotes[i]) in m.active ==> IsRetiring(m, SlotOf(quotes[i]), retiring))
  }

  predicate IsRetiring(m: Maker, s: Slot, retiring: map<int, Row>)
    requires s in m.active
  {
    var row := m.active[s].row;
    row.order.id in retiring && retiring[row.order.id] == row
  }

  /** The maker once the quotes in `done` were confirmed, whatever the order of the answers. */
  ghost predicate SideRefreshed(m: Maker, quotes: seq<Quote>, replies: Replies, done: set<nat>, after: Maker) {
    && after.preserved == m.preserved && after.retirable == m.retirable
    && AllWon(m, quotes, replies, done) && SlotsRefreshed(m, quotes, replies, done, after.active)
    && RowsDisplaced(m, quotes, done, after.retiring)
  }

  lemma ServedOneMore(quotes: seq<Quote>, done: set<nat>, k: nat, s: Slot)
    requires k < |quotes|
    ensures Served(quotes, done + {k}, s) <==> Served(quotes, done, s) || s == SlotOf(quotes[k])
  {
    assert k in done + {k};
    if Served(quotes, done, s) {
      var i :| i in done && i < |quotes| && SlotOf(quotes[i]) == s;
      assert i in done + {k};
    }
  }

  lemma DisplacedOneMore(m: Maker, quotes: seq<Quote>, done: set<nat>, k: nat, id: int)
    requires k < |quotes|
    ensures Displaced(m, quotes, done + {k}, id) <==>
            Displaced(m, quotes, done, id) || (SlotOf(quotes[k]) in m.active && m.active[SlotOf(quotes[k])].row.order.id == id)
  {
    assert k in done + {k};
    if Displaced(m, quotes, done, id) {
      var i :| i in done && i < |quotes| && SlotOf(quotes[i]) in m.active && m.active[SlotOf(quotes[i])].row.order.id == id;
      assert i in done + {k};
    }
  }

  lemma SlotsOneMore(m: Maker, quotes: seq<Quote>, replies: Replies, done: set<nat>, active: map<Slot, Managed>, k: nat)
    requires DistinctSlots(quotes) && AllWon(m, quotes, replies, done + {k}) && k in done + {k}
    requires AllWon(m, quotes, replies, done) && SlotsRefreshed(m, quotes, replies, done, active) && k !in done
    ensures SlotsRefreshed(m, quotes, replies, done + {k}, active[SlotOf(quotes[k]) := Entry(quotes[k], replies[SlotOf(quotes[k])].id)])
  {
    forall s ensures Served(quotes, done + {k}, s) <==> Served(quotes, done, s) || s == SlotOf(quotes[k]) {
      ServedOneMore(quotes, done, k, s);
    }
  }

  lemma RowsOneMore(m: Maker, quotes: seq<Quote>, done: set<nat>, retiring: map<int, Row>, k: nat)
    requires WellKeyed(m) && DistinctSlots(quotes) && k < |quotes| && k !in done
    requires RowsDisplaced(m, quotes, done, retiring)
    ensures
      var slot := SlotOf(quotes[k]);
      RowsDisplaced(m, quotes, done + {k}, if slot in m.active then retiring[m.active[slot].row.order.id := m.active[slot].row] else retiring)
  {
    var slot := SlotOf(quotes[k]);
    forall id ensures Displaced(m, quotes, done + {k}, id) <==>
            Displaced(m, quotes, done, id) || (slot in m.active && m.active[slot].row.order.id == id) {
      DisplacedOneMore(m, quotes, done, k, id);
    }
    if slot in m.active {
      NotYetRetiring(m, quotes, done, k);
    }
  }

  lemma RefreshedOneMore(m: Maker, quotes: seq<Quote>, replies: Replies, done: set<nat>, now: Maker, k: nat)
    requires WellKeyed(m) && DistinctSlots(quotes) && SideRefreshed(m, quotes, replies, done, now)
    requires k < |quotes| && k !in done && SlotOf(quotes[k]) in replies && Won(m, quotes[k], replies)
    ensures SideRefreshed(m, quotes, replies, done + {k}, Posted(now, quotes[k], replies[SlotOf(quotes[k])].id))
  {
    var slot := SlotOf(quotes[k]);
    assert AllWon(m, quotes, replies, done + {k});
    assert !Served(quotes, done, slot);
    SlotsOneMore(m, quotes, replies, done, now.active, k);
    RowsOneMore(m, quotes, done, now.retiring, k);
  }

  lemma NotYetRetiring(m: Maker, quotes: seq<Quote>, done: set<nat>, k: nat)
    requires WellKeyed(m) && DistinctSlots(quotes) && k < |quotes| && k !in done && SlotOf(quotes[k]) in m.active
    ensures var id := m.active[SlotOf(quotes[k])].row.order.id; id !in m.retiring && !Displaced(m, quotes, done, id)
  {
  }

  ghost predicate InFlightFor(inFlight: set<Order>, quotes: seq<Quote>, replies: Replies, pending: set<nat>)
    requires Answered(replies, quotes)
  {
    && (forall i :: i in pending ==> i < |quotes| && replies[SlotOf(quotes[i])].Placed? && OrderAt(quotes, replies, i) in inFlight)
    && (forall o :: o in inFlight ==> exists i :: i in pending && i < |quotes| && replies[SlotOf(quotes[i])].Placed? && o == OrderAt(quotes, replies, i))
  }

  function OrderAt(quotes: seq<Quote>, replies: Replies, i: nat): Order
    requires i < |quotes| && SlotOf(quotes[i]) in replies && replies[SlotOf(quotes[i])].Placed?
  {
    OrderFor(quotes[i], replies[SlotOf(quotes[i])].id)
  }

  ghost predicate IssuedFor(issued: set<int>, before: set<int>, quotes: seq<Quote>, replies: Replies, k: nat)
    requires Answered(replies, quotes) && k <= |quotes|
  {
    forall id :: id in issued ==> id in before || exists i :: 0 <= i < k && replies[SlotOf(quotes[i])].Placed? && replies[SlotOf(quotes[i])].id == id
  }

  ghost predicate WonSoFar(m: Maker, quotes: seq<Quote>, replies: Replies, k: nat, pending: set<nat>)
    requires Answered(replies, quotes) && k <= |quotes|
  {
    forall i :: i in pending <==> 0 <= i < k && Won(m, quotes[i], replies)
  }

  /** After the requests for the first k quotes went out. */
  ghost predicate Asked(st: State, m: Maker, before: set<int>, quotes: seq<Quote>, side: Side, replies: Replies, k: nat, pending: set<nat>)
    requires Answered(replies, quotes) && k <= |quotes|
  {
    && Safe(st) && st.maker == m && OneSide(st.inFlight, side)
    && InFlightFor(st.inFlight, quotes, replies, pending) && WonSoFar(m, quotes, replies, k, pending)
    && IssuedFor(st.issued, before, quotes, replies, k)
  }

  lemma NotIssued(issued: set<int>, before: set<int>, quotes: seq<Quote>, replies: Replies, k: nat)
    requires DistinctSlots(quotes) && Answered(replies, quotes) && FreshReplies(replies, before)
    requires k < |quotes| && IssuedFor(issued, before, quotes, replies, k) && replies[SlotOf(quotes[k])].Placed?
    ensures replies[SlotOf(quotes[k])].id !in issued
    ensures IssuedFor(issued + {replies[SlotOf(quotes[k])].id}, before, quotes, replies, k + 1)
  {
  }

  lemma AskedMore(st: State, m: Maker, before: set<int>, quotes: seq<Quote>, side: Side, replies: Replies, k: nat, pending: set<nat>)
    requires DistinctSlots(quotes) && Answered(replies, quotes) && FreshReplies(replies, before) && k < |quotes|
    requires Asked(st, m, before, quotes, side, replies, k, pending) && quotes[k].side == side && Won(m, quotes[k], replies)
    ensures
      var id := replies[SlotOf(quotes[k])].id;
      Enabled(st, Ask(quotes[k], id)) && Asked(Next(st, Ask(quotes[k], id)), m, before, quotes, side, replies, k + 1, pending + {k})
  {
    var id := replies[SlotOf(quotes[k])].id;
    NotIssued(st.issued, before, quotes, replies, k);
    StepKeepsSafe(st, Ask(quotes[k], id));
    InFlightMore(st.inFlight, quotes, replies, pending, k);
  }

  lemma AskedSame(st: State, m: Maker, before: set<int>, quotes: seq<Quote>, side: Side, replies: Replies, k: nat, pending: set<nat>)
    requires Answered(replies, quotes) && k < |quotes|
    requires Asked(st, m, before, quotes, side, replies, k, pending) && !Won(m, quotes[k], replies)
    ensures Asked(st, m, before, quotes, side, replies, k + 1, pending)
  {
  }

  lemma InFlightMore(inFlight: set<Order>, quotes: seq<Quote>, replies: Replies, pending: set<nat>, k: nat)
    requires Answered(replies, quotes) && k < |quotes| && replies[SlotOf(quotes[k])].Placed?
    requires InFlightFor(inFlight, quotes, replies, pending)
    ensures InFlightFor(inFlight + {OrderAt(quotes, replies, k)}, quotes, replies, pending + {k})
  {
    assert k in pending + {k};
    forall o | o in inFlight
      ensures exists i :: i in pending + {k} && i < |quotes| && replies[SlotOf(quotes[i])].Placed? && o == OrderAt(quotes, replies, i)
    {
      var i :| i in pending && i < |quotes| && replies[SlotOf(quotes[i])].Placed? && o == OrderAt(quotes, replies, i);
      assert i in pending + {k};
    }
  }

  lemma InFlightFewer(inFlight: set<Order>, quotes: seq<Quote>, replies: Replies, pending: set<nat>, issued: set<int>, k: nat)
    requires DistinctSlots(quotes) && Answered(replies, quotes) && FreshReplies(replies, issued) && k in pending
    requires InFlightFor(inFlight, quotes, replies, pending)
    ensures InFlightFor(inFlight - {OrderAt(quotes, replies, k)}, quotes, replies, pending - {k})
  {
    var rest := pending - {k};
    forall i | i in rest
      ensures OrderAt(quotes, replies, i) != OrderAt(quotes, replies, k)
    {
      assert SlotOf(quotes[i]) != SlotOf(quotes[k]);
    }
    forall o | o in inFlight && o != OrderAt(quotes, replies, k)
      ensures exists i :: i in rest && i < |quotes| && replies[SlotOf(quotes[i])].Placed? && o == OrderAt(quotes, replies, i)
    {
      var i :| i in pending && i < |quotes| && replies[SlotOf(quotes[i])].Placed? && o == OrderAt(quotes, replies, i);
      assert i in rest;
    }
  }

  /** While the answers to the requests in `asked` come in. */
  ghost predicate Awaiting(st: State, m: Maker, quotes: seq<Quote>, replies: Replies, pending: set<nat>, done: set<nat>)
    requires Answered(replies, quotes)
  {
    Safe(st) && InFlightFor(st.inFlight, quotes, replies, pending) && SideRefreshed(m, quotes, replies, done, st.maker)
  }

  /** Waiting, with exactly the requests in `asked` answered or pending. */
  ghost predicate PartlyAnswered(st: State, m: Maker, quotes: seq<Quote>, replies: Replies, asked: set<nat>, pending: set<nat>)
    requires Answered(replies, quotes)
  {
    && pending <= asked && WellKeyed(m) && WonSoFar(m, quotes, replies, |quotes|, asked)
    && Awaiting(st, m, quotes, replies, pending, asked - pending)
  }

  lemma AnswerNext(st: State, m: Maker, quotes: seq<Quote>, replies: Replies, issued: set<int>, asked: set<nat>, pending: set<nat>, k: nat)
    requires DistinctSlots(quotes) && Answered(replies, quotes) && FreshReplies(replies, issued)
    requires PartlyAnswered(st, m, quotes, replies, asked, pending) && k in pending
    ensures k < |quotes| && replies[SlotOf(quotes[k])].Placed?
    ensures
      var step := Confirmed(quotes[k], replies[SlotOf(quotes[k])].id);
      Enabled(st, step) && PartlyAnswered(Next(st, step), m, quotes, replies, asked, pending - {k})
  {
    AnswerOne(st, m, quotes, replies, issued, pending, asked - pending, k);
    assert asked - (pending - {k}) == asked - pending + {k};
  }

  lemma AllAnswered(st: State, m: Maker, quotes: seq<Quote>, replies: Replies, asked: set<nat>)
    requires Answered(replies, quotes) && PartlyAnswered(st, m, quotes, replies, asked, {})
    ensures Idle(st) && SideRefreshed(m, quotes, replies, asked, st.maker)
  {
    assert asked - {} == asked;
  }

  lemma AnswerOne(st: State, m: Maker, quotes: seq<Quote>, replies: Replies, issued: set<int>, pending: set<nat>, done: set<nat>, k: nat)
    requires WellKeyed(m) && DistinctSlots(quotes) && Answered(replies, quotes) && FreshReplies(replies, issued)
    requires Awaiting(st, m, quotes, replies, pending, done) && k in pending && k !in done && k < |quotes| && Won(m, quotes[k], replies)
    ensures
      var step := Confirmed(quotes[k], replies[SlotOf(quotes[k])].id);
      Enabled(st, step) && Awaiting(Next(st, step), m, quotes, replies, pending - {k}, done + {k})
  {
    var step := Confirmed(quotes[k], replies[SlotOf(quotes[k])].id);
    assert OrderAt(quotes, replies, k) in st.inFlight;
    StepKeepsSafe(st, step);
    RefreshedOneMore(m, quotes, replies, done, st.maker, k);
    InFlightFewer(st.inFlight, quotes, replies, pending, issued, k);
  }
}
