/** Repeating a step that may stop, with what each step yields. */
module Iteration {
  import opened Common

  datatype Trace<S, L> = Trace(state: S, yielded: seq<L>, left: nat)

  function Iterate<S, L>(step: S -> Option<(S, L)>, s: S, n: nat): Trace<S, L> {
    if n == 0 then Trace(s, [], 0)
    else
      match step(s)
      case None => Trace(s, [], n)
      case Some(next) =>
        var rest := Iterate(step, next.0, n - 1);
        Trace(rest.state, [next.1] + rest.yielded, rest.left)
  }

  function Copies<L>(l: L, n: nat): seq<L> {
    if n == 0 then [] else [l] + Copies(l, n - 1)
  }

  /** Running a + b steps is running a, then b from where that stopped. */
  lemma {:induction false} IterateSplit<S, L>(step: S -> Option<(S, L)>, s: S, a: nat, b: nat)
    ensures
      var u := Iterate(step, s, a);
      var v := Iterate(step, u.state, b);
      Iterate(step, s, a + b) == Trace(v.state, u.yielded + v.yielded, u.left + v.left)
    decreases a
  {
    if a > 0 && step(s).Some? {
      IterateSplit(step, step(s).value.0, a - 1, b);
    }
  }

  /** Along `f`, every step from `k` up to `q` leads to the next state and yields `l`. */
  ghost predicate Chain<S(!new), L(!new)>(step: S -> Option<(S, L)>, f: nat -> S, l: L, k: nat, q: nat) {
    forall j: nat :: k <= j < q ==> step(f(j)) == Some((f(j + 1), l))
  }

  /** A stretch of steps that all yield the same thing. */
  lemma {:induction false} IterateChain<S(!new), L(!new)>(step: S -> Option<(S, L)>, f: nat -> S, l: L, k: nat, q: nat, n: nat)
    requires k <= q && q - k <= n
    requires Chain(step, f, l, k, q)
    ensures
      var rest := Iterate(step, f(q), n - (q - k));
      Iterate(step, f(k), n) == Trace(rest.state, Copies(l, q - k) + rest.yielded, rest.left)
    decreases q - k
  {
    if k < q {
      IterateChain(step, f, l, k + 1, q, n - 1);
      var rest := Iterate(step, f(q), n - (q - k));
      assert [l] + (Copies(l, q - k - 1) + rest.yielded) == Copies(l, q - k) + rest.yielded;
    }
  }
}
