/**
 * What one tick of the risk monitor decides for one account: resolve, open or
 * wait on a margin call, or close positions out - and why a deadline close-out
 * leads to no further call while the account has equity.
 */
module RiskTick {
  import opened Common
  import opened Futures
  import opened FuturesLaws
  import opened MarginCall

  /** What to close: a quantity with the sign of the position. */
  datatype Target = Target(key: PositionKey, qty: int, mark: int)

  datatype Decision =
    | Leave
    | Resolve
    | OpenCall(shortfall: int)
    | CloseEmergency(targets: seq<Target>)
    | CloseDeadline(targets: seq<Target>)

  predicate DistinctKeys(positions: seq<RiskPosition>) {
    forall i, j :: 0 <= i < j < |positions| ==> positions[i].key != positions[j].key
  }

  function EmergencyTargets(positions: seq<RiskPosition>): seq<Target> {
    if positions == [] then []
    else
      var p := positions[|positions| - 1];
      EmergencyTargets(positions[..|positions| - 1]) + if Emergency(p) then [Target(p.key, p.position.qty, p.mark)] else []
  }

  function DeadlineTargets(positions: seq<RiskPosition>, shortfall: int, initial: int): seq<Target> {
    if positions == [] then []
    else
      var p := positions[|positions| - 1];
      var close := MarginCallLiquidationQty(p.position.qty, shortfall, initial);
      DeadlineTargets(positions[..|positions| - 1], shortfall, initial) +
        if close > 0 then [Target(p.key, Sign(p.position.qty) * close, p.mark)] else []
  }

  ghost predicate AnyEmergency(positions: seq<RiskPosition>) {
    exists i :: 0 <= i < |positions| && Emergency(positions[i])
  }

  /** The decision, as the rules for a margin call put it. */
  ghost function Decided(positions: seq<RiskPosition>, purse: Purse, deadline: Option<int>, pending: bool, now: int): Decision
    requires AllAssessable(positions)
  {
    var shortfall := Shortfall(positions, purse);
    if pending then Leave
    else if positions == [] then if deadline.Some? then Resolve else Leave
    else if AnyEmergency(positions) then CloseEmergency(EmergencyTargets(positions))
    else if deadline.Some? then
      if shortfall == 0 then Resolve
      else if now >= deadline.value then CloseDeadline(DeadlineTargets(positions, shortfall, TotalInitial(positions)))
      else Leave
    else if EquityOf(positions, purse) < TotalMaintenance(positions) then OpenCall(shortfall)
    else Leave
  }

  lemma EmergencyKey(positions: seq<RiskPosition>, emergency: seq<PositionKey>, i: nat)
    requires DistinctKeys(positions) && i < |positions|
    requires forall k :: k in emergency <==> exists j :: 0 <= j < |positions| && positions[j].key == k && Emergency(positions[j])
    ensures positions[i].key in emergency <==> Emergency(positions[i])
  {
  }

  method PickEmergencies(positions: seq<RiskPosition>, emergency: seq<PositionKey>) returns (targets: seq<Target>)
    requires DistinctKeys(positions)
    requires forall k :: k in emergency <==> exists j :: 0 <= j < |positions| && positions[j].key == k && Emergency(positions[j])
    ensures targets == EmergencyTargets(positions)
  {
    targets := [];
    for i := 0 to |positions|
      invariant targets == EmergencyTargets(positions[..i])
    {
      assert positions[..i + 1][..i] == positions[..i];
      EmergencyKey(positions, emergency, i);
      var p := positions[i];
      if p.key in emergency {
        targets := targets + [Target(p.key, p.position.qty, p.mark)];
      }
    }
    assert positions[..|positions|] == positions;
  }

  method PickDeadlines(positions: seq<RiskPosition>, shortfall: int, initial: int) returns (targets: seq<Target>)
    ensures targets == DeadlineTargets(positions, shortfall, initial)
  {
    targets := [];
    for i := 0 to |positions|
      invariant targets == DeadlineTargets(positions[..i], shortfall, initial)
    {
      assert positions[..i + 1][..i] == positions[..i];
      var p := positions[i];
      var close := MarginCallLiquidationQty(p.position.qty, shortfall, initial);
      if close > 0 {
        targets := targets + [Target(p.key, Sign(p.position.qty) * close, p.mark)];
      }
    }
    assert positions[..|positions|] == positions;
  }

  method Decide(positions: seq<RiskPosition>, purse: Purse, deadline: Option<int>, pending: bool, now: int) returns (decision: Decision)
    requires AllAssessable(positions) && DistinctKeys(positions)
    ensures decision == Decided(positions, purse, deadline, pending, now)
  {
    if pending {
      return Leave;
    }
    if |positions| == 0 {
      return if deadline.Some? then Resolve else Leave;
    }
    var risk := AssessFuturesRisk(positions, purse.balance, purse.debt);
    if |risk.emergency| > 0 {
      assert risk.emergency[0] in risk.emergency;
      var targets := PickEmergencies(positions, risk.emergency);
      return CloseEmergency(targets);
    }
    assert !AnyEmergency(positions) by {
      forall i | 0 <= i < |positions|
        ensures !Emergency(positions[i])
      {
        EmergencyKey(positions, risk.emergency, i);
      }
    }
    if deadline.Some? {
      if risk.shortfall == 0 {
        return Resolve;
      }
      if now >= deadline.value {
        var targets := PickDeadlines(positions, risk.shortfall, risk.initial);
        return CloseDeadline(targets);
      }
      return Leave;
    }
    if risk.belowMaintenance {
      return OpenCall(risk.shortfall);
    }
    return Leave;
  }

  // ---- What the targets do ----

  /** The contracts a list of targets closes of a position. */
  function CloseQty(targets: seq<Target>, key: PositionKey): nat {
    if targets == [] then 0
    else CloseQty(targets[..|targets| - 1], key) + if targets[|targets| - 1].key == key then Abs(targets[|targets| - 1].qty) else 0
  }

  lemma {:induction false} NotTargeted(positions: seq<RiskPosition>, shortfall: int, initial: int, key: PositionKey)
    requires forall i :: 0 <= i < |positions| ==> positions[i].key != key
    ensures CloseQty(DeadlineTargets(positions, shortfall, initial), key) == 0
  {
    if positions != [] {
      NotTargeted(positions[..|positions| - 1], shortfall, initial, key);
      LastTarget(positions, shortfall, initial, key);
    }
  }

  lemma LastTarget(positions: seq<RiskPosition>, shortfall: int, initial: int, key: PositionKey)
    requires positions != []
    ensures
      var p := positions[|positions| - 1];
      CloseQty(DeadlineTargets(positions, shortfall, initial), key) ==
        CloseQty(DeadlineTargets(positions[..|positions| - 1], shortfall, initial), key) +
        if p.key == key then MarginCallLiquidationQty(p.position.qty, shortfall, initial) else 0
  {
    var p := positions[|positions| - 1];
    var before := DeadlineTargets(positions[..|positions| - 1], shortfall, initial);
    var close := MarginCallLiquidationQty(p.position.qty, shortfall, initial);
    if close > 0 {
      var target := Target(p.key, Sign(p.position.qty) * close, p.mark);
      assert (before + [target])[..|before|] == before;
      assert Abs(target.qty) == close;
    } else {
      assert before + [] == before;
    }
  }

  /** The targets of a deadline close-out close of each position the least share that covers the shortfall's. */
  lemma TargetsCloseLeast(positions: seq<RiskPosition>, shortfall: int, initial: int, i: nat)
    requires DistinctKeys(positions) && i < |positions|
    ensures IsLeastShare(CloseQty(DeadlineTargets(positions, shortfall, initial), positions[i].key), Abs(positions[i].position.qty), shortfall, initial)
  {
    TargetsClose(positions, shortfall, initial, i);
    LiquidationIsLeast(positions[i].position.qty, shortfall, initial);
  }

  lemma {:induction false} TargetsClose(positions: seq<RiskPosition>, shortfall: int, initial: int, i: nat)
    requires DistinctKeys(positions) && i < |positions|
    ensures CloseQty(DeadlineTargets(positions, shortfall, initial), positions[i].key) == MarginCallLiquidationQty(positions[i].position.qty, shortfall, initial)
  {
    var last := |positions| - 1;
    LastTarget(positions, shortfall, initial, positions[i].key);
    if i < last {
      assert positions[..last][i] == positions[i] && positions[last].key != positions[i].key;
      TargetsClose(positions[..last], shortfall, initial, i);
    } else {
      NotTargeted(positions[..last], shortfall, initial, positions[i].key);
    }
  }

  // ---- What a decision means ----

  /**
   * Read off the decision: an account is left alone only while a liquidation is
   * pending, or nothing is wrong, or its call has time left; a call is resolved
   * only once equity covers the initial margin; and one is opened, for what is
   * missing to that margin, only below the maintenance margin.
   */
  lemma DecisionMeans(positions: seq<RiskPosition>, purse: Purse, deadline: Option<int>, pending: bool, now: int)
    requires AllAssessable(positions)
    ensures
      var equity := purse.balance - purse.debt + TotalUnrealized(positions);
      match Decided(positions, purse, deadline, pending, now)
      case Leave =>
        pending || (positions == [] && deadline.None?) ||
        (!AnyEmergency(positions) && if deadline.None? then equity >= TotalMaintenance(positions) else now < deadline.value && equity < TotalInitial(positions))
      case Resolve => !pending && deadline.Some? && (positions == [] || (equity >= TotalInitial(positions) && !AnyEmergency(positions)))
      case OpenCall(amount) =>
        !pending && deadline.None? && !AnyEmergency(positions) && equity < TotalMaintenance(positions) && amount == TotalInitial(positions) - equity > 0
      case CloseEmergency(_) => !pending && AnyEmergency(positions)
      case CloseDeadline(_) => !pending && !AnyEmergency(positions) && deadline.Some? && now >= deadline.value && equity < TotalInitial(positions)
  {
    MaintenanceBelowInitial(positions);
  }

  lemma {:induction false} EmergencyTargetsAre(positions: seq<RiskPosition>, target: Target)
    ensures target in EmergencyTargets(positions) <==>
            exists i :: 0 <= i < |positions| && Emergency(positions[i]) && target == Target(positions[i].key, positions[i].position.qty, positions[i].mark)
  {
    if positions != [] {
      var last := |positions| - 1;
      EmergencyTargetsAre(positions[..last], target);
      assert forall i :: 0 <= i < last ==> positions[..last][i] == positions[i];
    }
  }

  predicate Reduces(t: Target, p: RiskPosition) {
    t.key == p.key && t.mark == p.mark && (0 < t.qty <= p.position.qty || p.position.qty <= t.qty < 0)
  }

  /** A deadline target closes: it has the sign of its position and no more contracts, at the position's mark. */
  lemma {:induction false} DeadlineTargetsClose(positions: seq<RiskPosition>, shortfall: int, initial: int)
    ensures forall t :: t in DeadlineTargets(positions, shortfall, initial) ==>
      exists i :: 0 <= i < |positions| && Reduces(t, positions[i])
  {
    if positions != [] {
      var last := |positions| - 1;
      DeadlineTargetsClose(positions[..last], shortfall, initial);
      forall t | t in DeadlineTargets(positions, shortfall, initial)
        ensures exists i :: 0 <= i < |positions| && Reduces(t, positions[i])
      {
        if t in DeadlineTargets(positions[..last], shortfall, initial) {
          var i :| 0 <= i < last && Reduces(t, positions[..last][i]);
          assert Reduces(t, positions[i]);
        } else {
          assert Reduces(t, positions[last]);
        }
      }
    }
  }

  function ClosedOut(positions: seq<RiskPosition>, targets: seq<Target>, i: nat): RiskPosition
    requires i < |positions| && Assessable(positions[i]) && CloseQty(targets, positions[i].key) <= Abs(positions[i].position.qty)
  {
    var left := Closed(positions[i], CloseQty(targets, positions[i].key)).position;
    positions[i].(position := left, marginHeld := if left.qty == 0 then 0 else FuturePositionMargin(positions[i].def, left.entryValue, positions[i].leverage))
  }

  /**
   * When a deadline close-out has filled at its marks, an account with equity
   * gets no new margin call: the next tick leaves it alone, unless one position
   * by itself has lost nine tenths of its margin. An account under water keeps
   * a shortfall.
   */
  lemma DeadlineCloseOutSuffices(positions: seq<RiskPosition>, purse: Purse, deadline: int, now: int, later: int)
    requires AllAssessable(positions) && DistinctKeys(positions)
    requires Decided(positions, purse, Some(deadline), false, now).CloseDeadline?
    ensures
      var targets := Decided(positions, purse, Some(deadline), false, now).targets;
      var shortfall, initial := Shortfall(positions, purse), TotalInitial(positions);
      var after, cash := LiquidateAll(positions, shortfall, initial), Settled(purse, positions, shortfall, initial);
      && AllAssessable(after)
      && (forall i :: 0 <= i < |positions| ==> CloseQty(targets, positions[i].key) <= Abs(positions[i].position.qty) && after[i] == ClosedOut(positions, targets, i))
      && (EquityOf(positions, purse) >= 0 ==> Decided(after, cash, None, false, later).Leave? || Decided(after, cash, None, false, later).CloseEmergency?)
      && (EquityOf(positions, purse) < 0 ==> Shortfall(after, cash) > 0)
  {
    var shortfall, initial := Shortfall(positions, purse), TotalInitial(positions);
    LiquidationCures(positions, purse);
    forall i | 0 <= i < |positions|
      ensures CloseQty(DeadlineTargets(positions, shortfall, initial), positions[i].key) == MarginCallLiquidationQty(positions[i].position.qty, shortfall, initial)
    {
      TargetsClose(positions, shortfall, initial, i);
    }
  }
}
