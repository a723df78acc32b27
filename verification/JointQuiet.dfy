/**
 * A guard on restarts is enough for everything about joint runs: if engines
 * only restart once every accepted placement was consumed, none ever rematches.
 */
module JointQuiet {
  import opened Common
  import opened Settlement
  import opened EngineToSettlement
  import opened JointMachine
  import opened JointSafety
  import opened JointRuns
  import OrderBook
  import Engine
  import EngineSafety
  import EngineQuiet
  import EngineRuns

  ghost predicate AllQuiet(engines: Engines) {
    forall s :: s in engines ==> EngineQuiet.Quiet(engines[s])
  }

  /** An engine restarts only with every placement accepted so far consumed. */
  ghost predicate RestartsConsumed(st: State, step: Step) {
    step.Work? && step.symbol in st.engines ==> EngineQuiet.QuietStep(st.engines[step.symbol], step.step)
  }

  /** Like `Runs`, with the guard on restarts in the place of what it prevents. */
  ghost predicate GuardedRuns(st: State, steps: seq<Step>, n: nat)
    decreases steps
  {
    steps == [] ||
    (Enabled(st, steps[0]) && RestartsConsumed(st, steps[0]) && (steps[0].Place? ==> 0 <= steps[0].inc.orderId < n) &&
     GuardedRuns(Next(st, steps[0]), steps[1..], n))
  }

  predicate NoRestarts(own: seq<Engine.Step>) {
    forall i :: 0 <= i < |own| ==> !own[i].Restart?
  }

  lemma {:induction false} NoRestartIsQuiet(s: Engine.State, own: seq<Engine.Step>)
    requires Engine.Runs(s, own) && NoRestarts(own)
    ensures EngineQuiet.QuietRun(s, own)
    decreases own
  {
    if own != [] {
      assert !own[0].Restart?;
      assert forall i :: 0 <= i < |own[1..]| ==> own[1..][i] == own[i + 1];
      NoRestartIsQuiet(Engine.Next(s, own[0]), own[1..]);
    }
  }

  lemma WorkIsQuiet(st: State, step: Step, symbol: Symbol)
    requires Enabled(st, step) && symbol in st.engines && RestartsConsumed(st, step)
    requires Engine.Runs(st.engines[symbol], EngineStep(st, step, symbol))
    ensures EngineQuiet.QuietRun(st.engines[symbol], EngineStep(st, step, symbol))
  {
    var own := EngineStep(st, step, symbol);
    if step.Work? && step.symbol == symbol {
      assert own == [step.step] && own[1..] == [];
    } else {
      NoRestartIsQuiet(st.engines[symbol], own);
    }
  }

  lemma QuietStepNeverRematches(st: State, step: Step, n: nat)
    requires Inv(st, n) && AllQuiet(st.engines) && Enabled(st, step)
    ensures !Rematches(st, step)
  {
    if step.Work? {
      assert Healthy(st.engines[step.symbol]);
      EngineQuiet.QuietNeverRematches(st.engines[step.symbol], step.step);
    }
  }

  lemma StaysQuiet(s: Engine.State, own: seq<Engine.Step>, t: Engine.State)
    requires Healthy(s) && EngineQuiet.Quiet(s) && Leads(s, own, t) && EngineQuiet.QuietRun(s, own)
    ensures EngineQuiet.Quiet(t)
  {
    EngineQuiet.QuietRunSafe(s, own);
  }

  lemma StepKeepsQuiet(st: State, step: Step, n: nat)
    requires Inv(st, n) && AllQuiet(st.engines) && Enabled(st, step) && RestartsConsumed(st, step)
    ensures AllQuiet(Next(st, step).engines)
  {
    QuietStepNeverRematches(st, step, n);
    forall symbol | symbol in Next(st, step).engines
      ensures EngineQuiet.Quiet(Next(st, step).engines[symbol])
    {
      SameSymbols(st, step);
      assert symbol in st.engines.Keys;
      assert Healthy(st.engines[symbol]);
      StepLeads(st, step, symbol, n);
      WorkIsQuiet(st, step, symbol);
      StaysQuiet(st.engines[symbol], EngineStep(st, step, symbol), Next(st, step).engines[symbol]);
    }
  }

  lemma SameSymbols(st: State, step: Step)
    requires Enabled(st, step)
    ensures Next(st, step).engines.Keys == st.engines.Keys
  {
  }

  lemma StartQuiet(st: State, n: nat)
    requires Start(st, n)
    ensures AllQuiet(st.engines)
  {
  }

  lemma {:induction false} GuardedRunsAreRuns(st: State, steps: seq<Step>, n: nat)
    requires Inv(st, n) && AllQuiet(st.engines) && GuardedRuns(st, steps, n)
    ensures Runs(st, steps, n)
    decreases steps
  {
    if steps != [] {
      QuietStepNeverRematches(st, steps[0], n);
      StepKeepsInv(st, steps[0], n);
      StepKeepsQuiet(st, steps[0], n);
      GuardedRunsAreRuns(Next(st, steps[0]), steps[1..], n);
    }
  }

  /** Runs under the guard reach nothing but reachable states: no delivery ever rematches, so all that is proved of those holds. */
  lemma GuardedRunsReach(start: State, steps: seq<Step>, n: nat)
    requires Start(start, n) && GuardedRuns(start, steps, n)
    ensures Runs(start, steps, n) && Reachable(After(start, steps, n), n)
  {
    StartInv(start, n);
    StartQuiet(start, n);
    GuardedRunsAreRuns(start, steps, n);
  }
}
