/**
 * The settlement outbox relay (flushSettlementOutbox): passes that read the
 * unpublished rows, publish each and then mark it. Passes overlap, any of them
 * can die between publishing and marking, and rows keep being appended.
 */
module Relay {
  import opened Common
  import opened OrderBook
  import opened Engine
  import opened EngineSafety

  const SETTLEMENT_OUTBOX_BATCH: nat := 500

  /** A pass working through the rows it read: the row at `pos` is next, or published but not yet marked. */
  datatype Pass = Pass(rows: seq<nat>, pos: nat, sent: bool)

  /** Row ids are positions in the outbox; `rowCount` of them are committed. */
  datatype RelayState = RelayState(rowCount: nat, marked: set<nat>, stream: seq<nat>, passes: map<int, Pass>)

  /** The unpublished rows from `from` on, in id order. */
  function Unpublished(s: RelayState, from: nat): seq<nat>
    decreases s.rowCount - from
  {
    if from >= s.rowCount then []
    else (if from in s.marked then [] else [from]) + Unpublished(s, from + 1)
  }

  function Batch(rows: seq<nat>): seq<nat> {
    if |rows| <= SETTLEMENT_OUTBOX_BATCH then rows else rows[..SETTLEMENT_OUTBOX_BATCH]
  }

  datatype Step =
    | Append(rows: nat)
    | Begin(pass: int)
    | Publish(pass: int)
    | Mark(pass: int)
    | Die(pass: int)

  predicate Enabled(s: RelayState, step: Step) {
    match step
    case Append(_) => true
    case Begin(p) => p !in s.passes
    case Publish(p) => p in s.passes && s.passes[p].pos < |s.passes[p].rows| && !s.passes[p].sent
    case Mark(p) => p in s.passes && s.passes[p].pos < |s.passes[p].rows| && s.passes[p].sent
    case Die(p) => p in s.passes
  }

  function Next(s: RelayState, step: Step): RelayState
    requires Enabled(s, step)
  {
    match step
    case Append(k) => s.(rowCount := s.rowCount + k)
    case Begin(p) => s.(passes := s.passes[p := Pass(Batch(Unpublished(s, 0)), 0, false)])
    case Publish(p) =>
      var pass := s.passes[p];
      s.(stream := s.stream + [pass.rows[pass.pos]], passes := s.passes[p := pass.(sent := true)])
    case Mark(p) =>
      var pass := s.passes[p];
      s.(marked := s.marked + {pass.rows[pass.pos]}, passes := s.passes[p := Pass(pass.rows, pass.pos + 1, false)])
    case Die(p) => s.(passes := s.passes - {p})
  }

  // ---------------------------------------------------------------- the invariant

  /** Whatever has been published, everything with a smaller id was published before it. */
  predicate FirstInOrder(stream: seq<nat>) {
    forall i, id: nat :: 0 <= i < |stream| && 0 <= id < stream[i] ==> id in stream[..i]
  }

  /** Every row below one still to be sent is on the stream or comes earlier in the same pass. */
  predicate Covered(pass: Pass, stream: seq<nat>) {
    && (forall j, id: nat :: pass.pos <= j < |pass.rows| && 0 <= id < pass.rows[j] ==>
          id in stream || id in pass.rows[pass.pos..j])
    && (pass.sent && pass.pos < |pass.rows| ==> pass.rows[pass.pos] in stream)
  }

  ghost predicate Inv(s: RelayState) {
    && FirstInOrder(s.stream)
    && (forall id :: id in s.marked ==> id in s.stream)
    && (forall p :: p in s.passes ==> Covered(s.passes[p], s.stream))
  }

  /** `rows` leaves out only marked ids from `from` on. */
  predicate LeavesMarked(rows: seq<nat>, from: nat, marked: set<nat>) {
    && (forall j :: 0 <= j < |rows| ==> from <= rows[j])
    && (forall j, id: nat :: 0 <= j < |rows| && from <= id < rows[j] ==> id in marked || id in rows[..j])
  }

  lemma LeaveOne(rest: seq<nat>, from: nat, marked: set<nat>)
    requires LeavesMarked(rest, from + 1, marked)
    ensures LeavesMarked([from] + rest, from, marked)
    ensures from in marked ==> LeavesMarked(rest, from, marked)
  {
    var rows := [from] + rest;
    forall j, id: nat | 0 <= j < |rows| && from <= id < rows[j] ensures id in marked || id in rows[..j] {
      assert j > 0 && rows[j] == rest[j - 1];
      assert rows[..j] == [from] + rest[..j - 1];
      if id > from { assert id in marked || id in rest[..j - 1]; }
    }
  }

  lemma {:induction false} UnpublishedIs(s: RelayState, from: nat)
    ensures LeavesMarked(Unpublished(s, from), from, s.marked)
    decreases s.rowCount - from
  {
    if from < s.rowCount {
      UnpublishedIs(s, from + 1);
      LeaveOne(Unpublished(s, from + 1), from, s.marked);
      assert [] + Unpublished(s, from + 1) == Unpublished(s, from + 1);
    }
  }

  lemma MoreStream(pass: Pass, stream: seq<nat>, id: nat)
    requires Covered(pass, stream)
    ensures Covered(pass, stream + [id])
  {
  }

  lemma StepKeepsInv(s: RelayState, step: Step)
    requires Inv(s) && Enabled(s, step)
    ensures Inv(Next(s, step))
  {
    match step
    case Append(_) =>
    case Begin(p) =>
      BatchCovered(s);
    case Publish(p) => PublishKeepsInv(s, p);
    case Mark(p) => MarkKeepsInv(s, p);
    case Die(p) =>
  }

  lemma BatchCovered(s: RelayState)
    requires Inv(s)
    ensures Covered(Pass(Batch(Unpublished(s, 0)), 0, false), s.stream)
  {
    var all := Unpublished(s, 0);
    UnpublishedIs(s, 0);
    BatchLeaves(all, s.marked);
    var rows := Batch(all);
    forall j, id: nat | 0 <= j < |rows| && 0 <= id < rows[j] ensures id in s.stream || id in rows[0..j] {
      assert rows[0..j] == rows[..j];
      assert id in s.marked || id in rows[..j];
    }
  }

  lemma BatchLeaves(all: seq<nat>, marked: set<nat>)
    requires LeavesMarked(all, 0, marked)
    ensures LeavesMarked(Batch(all), 0, marked)
  {
    var rows := Batch(all);
    forall j, id: nat | 0 <= j < |rows| && 0 <= id < rows[j] ensures id in marked || id in rows[..j] {
      assert rows[j] == all[j] && rows[..j] == all[..j];
      assert id in marked || id in all[..j];
    }
  }

  lemma PublishKeepsInv(s: RelayState, p: int)
    requires Inv(s) && Enabled(s, Publish(p))
    ensures Inv(Next(s, Publish(p)))
  {
    var pass := s.passes[p];
    var row := pass.rows[pass.pos];
    var s' := Next(s, Publish(p));
    forall i, id: nat | 0 <= i < |s'.stream| && 0 <= id < s'.stream[i] ensures id in s'.stream[..i] {
      if i < |s.stream| {
        assert s'.stream[..i] == s.stream[..i];
      } else {
        assert s'.stream[..i] == s.stream;
        assert pass.rows[pass.pos..pass.pos] == [];
      }
    }
    forall q | q in s'.passes ensures Covered(s'.passes[q], s'.stream) {
      MoreStream(s.passes[q], s.stream, row);
    }
  }

  lemma MarkKeepsInv(s: RelayState, p: int)
    requires Inv(s) && Enabled(s, Mark(p))
    ensures Inv(Next(s, Mark(p)))
  {
    var pass := s.passes[p];
    var next := Pass(pass.rows, pass.pos + 1, false);
    forall j, id: nat | next.pos <= j < |next.rows| && 0 <= id < next.rows[j]
      ensures id in s.stream || id in next.rows[next.pos..j]
    {
      assert pass.rows[pass.pos..j] == [pass.rows[pass.pos]] + next.rows[next.pos..j];
    }
  }

  ghost predicate Runs(s: RelayState, steps: seq<Step>)
    decreases steps
  {
    steps == [] || (Enabled(s, steps[0]) && Runs(Next(s, steps[0]), steps[1..]))
  }

  function After(s: RelayState, steps: seq<Step>): RelayState
    requires Runs(s, steps)
    decreases steps
  {
    if steps == [] then s else After(Next(s, steps[0]), steps[1..])
  }

  lemma {:induction false} RunKeepsInv(s: RelayState, steps: seq<Step>)
    requires Inv(s) && Runs(s, steps)
    ensures Inv(After(s, steps))
    decreases steps
  {
    if steps != [] {
      StepKeepsInv(s, steps[0]);
      RunKeepsInv(Next(s, steps[0]), steps[1..]);
    }
  }

  function Init(): RelayState {
    RelayState(0, {}, [], map[])
  }

  /**
   * Over every interleaving of passes, deaths and new rows, first appearances
   * on the stream follow the outbox order.
   */
  lemma PublishedInOrder(steps: seq<Step>)
    requires Runs(Init(), steps)
    ensures FirstInOrder(After(Init(), steps).stream)
  {
    RunKeepsInv(Init(), steps);
  }

  // ---------------------------------------------------------------- every row gets published

  /** A pass that nothing interrupts: each of its rows published, then marked. */
  function Undisturbed(p: int, n: nat): seq<Step> {
    if n == 0 then [] else [Publish(p), Mark(p)] + Undisturbed(p, n - 1)
  }

  predicate Increasing(rows: seq<nat>) {
    forall j, k :: 0 <= j < k < |rows| ==> rows[j] < rows[k]
  }

  /** The oldest unpublished rows, as many as a batch holds. */
  predicate OldestUnmarked(rows: seq<nat>, s: RelayState) {
    && Increasing(rows) && |rows| <= SETTLEMENT_OUTBOX_BATCH
    && (forall j :: 0 <= j < |rows| ==> rows[j] < s.rowCount && rows[j] !in s.marked)
    && (forall id: nat :: id < s.rowCount && id !in s.marked && id !in rows ==>
          |rows| == SETTLEMENT_OUTBOX_BATCH && forall j :: 0 <= j < |rows| ==> rows[j] < id)
  }

  predicate AllUnmarked(rows: seq<nat>, s: RelayState, from: nat) {
    && Increasing(rows)
    && (forall j :: 0 <= j < |rows| ==> from <= rows[j] < s.rowCount && rows[j] !in s.marked)
    && (forall id: nat :: from <= id < s.rowCount && id !in s.marked ==> id in rows)
  }

  lemma {:induction false} UnpublishedAll(s: RelayState, from: nat)
    ensures AllUnmarked(Unpublished(s, from), s, from)
    decreases s.rowCount - from
  {
    if from < s.rowCount {
      UnpublishedAll(s, from + 1);
      var rest := Unpublished(s, from + 1);
      assert Unpublished(s, from) == if from in s.marked then rest else [from] + rest;
    }
  }

  lemma BatchIsOldest(s: RelayState)
    ensures OldestUnmarked(Batch(Unpublished(s, 0)), s)
  {
    var all := Unpublished(s, 0);
    UnpublishedAll(s, 0);
    assert forall j :: 0 <= j < |Batch(all)| ==> all[j] == Batch(all)[j];
    forall id: nat | id < s.rowCount && id !in s.marked && id !in Batch(all)
      ensures |Batch(all)| == SETTLEMENT_OUTBOX_BATCH && forall j :: 0 <= j < |Batch(all)| ==> Batch(all)[j] < id
    {
      var k :| 0 <= k < |all| && all[k] == id;
    }
  }

  /** The rows of a pass from its position on are published and marked, in order, and nothing else changes. */
  lemma {:induction false} UndisturbedPublishes(s: RelayState, p: int, n: nat)
    requires p in s.passes && !s.passes[p].sent && s.passes[p].pos + n == |s.passes[p].rows|
    ensures Runs(s, Undisturbed(p, n))
    ensures
      var t, rest := After(s, Undisturbed(p, n)), s.passes[p].rows[s.passes[p].pos..];
      t.rowCount == s.rowCount && t.stream == s.stream + rest && t.marked == s.marked + (set id | id in rest) && p in t.passes
    decreases n
  {
    if n > 0 {
      var pass := s.passes[p];
      var s1 := Next(s, Publish(p));
      var s2 := Next(s1, Mark(p));
      UndisturbedPublishes(s2, p, n - 1);
      var steps := Undisturbed(p, n);
      assert steps[1..] == [Mark(p)] + Undisturbed(p, n - 1);
      assert steps[1..][1..] == Undisturbed(p, n - 1);
      assert pass.rows[pass.pos..] == [pass.rows[pass.pos]] + pass.rows[pass.pos + 1..];
    }
  }

  lemma {:induction false} RunsAppend(s: RelayState, first: seq<Step>, second: seq<Step>)
    requires Runs(s, first) && Runs(After(s, first), second)
    ensures Runs(s, first + second) && After(s, first + second) == After(After(s, first), second)
    decreases first
  {
    if first == [] {
      assert first + second == second;
    } else {
      assert (first + second)[1..] == first[1..] + second;
      RunsAppend(Next(s, first[0]), first[1..], second);
    }
  }

  /** One undisturbed pass publishes and marks exactly the oldest unpublished rows, in order. */
  lemma OnePassPublishes(s: RelayState, p: int) returns (steps: seq<Step>, rows: seq<nat>)
    requires p !in s.passes
    ensures Runs(s, steps) && OldestUnmarked(rows, s)
    ensures
      var t := After(s, steps);
      t.rowCount == s.rowCount && t.stream == s.stream + rows && t.marked == s.marked + (set id | id in rows) && p !in t.passes
  {
    BatchIsOldest(s);
    rows := Batch(Unpublished(s, 0));
    var begun := Next(s, Begin(p));
    UndisturbedPublishes(begun, p, |rows|);
    assert rows[0..] == rows;
    var pass, die := Undisturbed(p, |rows|), [Die(p)];
    assert die[1..] == [];
    RunsAppend(begun, pass, die);
    steps := [Begin(p)] + (pass + die);
    assert steps[1..] == pass + die;
  }

  ghost function Unmarked(s: RelayState): set<nat> {
    set id: nat | id < s.rowCount && id !in s.marked
  }

  /**
   * Whatever interrupted passes and deaths have left behind, some further
   * passes publish and mark every row there is; what was on the stream stays.
   */
  lemma {:induction false} EveryRowGetsPublished(s: RelayState, p: int) returns (steps: seq<Step>)
    requires Inv(s) && p !in s.passes
    ensures Runs(s, steps)
    ensures
      var t := After(s, steps);
      && t.rowCount == s.rowCount && s.stream <= t.stream
      && forall id: nat :: id < s.rowCount ==> id in t.marked && id in t.stream
    decreases Unmarked(s)
  {
    if Unmarked(s) == {} {
      steps := [];
      forall id: nat | id < s.rowCount
        ensures id in s.marked
      {
        assert id !in Unmarked(s);
      }
    } else {
      var first, rows := OnePassPublishes(s, p);
      var mid := After(s, first);
      RunKeepsInv(s, first);
      assert Unmarked(mid) < Unmarked(s) by {
        var id :| id in Unmarked(s);
        assert id in rows || |rows| == SETTLEMENT_OUTBOX_BATCH;
        assert rows[0] in Unmarked(s) && rows[0] in mid.marked;
      }
      var rest := EveryRowGetsPublished(mid, p);
      RunsAppend(s, first, rest);
      steps := first + rest;
    }
  }

  /**
   * With the engine's outbox behind it: where the close of an order first
   * appears, every trade of that order has already appeared.
   */
  lemma FillsBeforeClose(outbox: seq<OutEvent>, stream: seq<nat>, i: nat, trade: nat)
    requires ClosesLast(outbox) && FirstInOrder(stream)
    requires i < |stream| && stream[i] < |outbox| && outbox[stream[i]].OrderClosed?
    requires trade < |outbox| && outbox[trade].TradeExecuted?
    requires Names(outbox[trade].fill, outbox[stream[i]].closed.orderId)
    ensures trade in stream[..i]
  {
    assert trade < stream[i];
  }
}
