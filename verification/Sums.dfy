/** Sums over the ids below a bound, for totals over every order, account or event. */
module Sums {

  function Sum(f: int -> int, n: nat): int {
    if n == 0 then 0 else Sum(f, n - 1) + f(n - 1)
  }

  predicate Agree(f: int -> int, g: int -> int, n: nat) {
    forall i :: 0 <= i < n ==> f(i) == g(i)
  }

  predicate AgreeExcept(f: int -> int, g: int -> int, n: nat, k: int) {
    forall i :: 0 <= i < n && i != k ==> f(i) == g(i)
  }

  lemma {:induction false} SumSame(f: int -> int, g: int -> int, n: nat)
    requires Agree(f, g, n)
    ensures Sum(f, n) == Sum(g, n)
  {
    if n > 0 {
      assert Agree(f, g, n - 1);
      SumSame(f, g, n - 1);
    }
  }

  /** Changing one entry changes the sum by that entry's change. */
  lemma {:induction false} SumChange(f: int -> int, g: int -> int, n: nat, k: int)
    requires 0 <= k < n && AgreeExcept(f, g, n, k)
    ensures Sum(g, n) == Sum(f, n) - f(k) + g(k)
  {
    if k == n - 1 {
      assert Agree(f, g, n - 1);
      SumSame(f, g, n - 1);
    } else {
      assert AgreeExcept(f, g, n - 1, k);
      SumChange(f, g, n - 1, k);
    }
  }

  lemma {:induction false} SumChangeTwo(f: int -> int, g: int -> int, n: nat, j: int, k: int)
    requires 0 <= j < n && 0 <= k < n && j != k
    requires forall i :: 0 <= i < n && i != j && i != k ==> f(i) == g(i)
    ensures Sum(g, n) == Sum(f, n) - f(j) + g(j) - f(k) + g(k)
  {
    var h := (i: int) => if i == j then g(j) else f(i);
    SumChange(f, h, n, j);
    SumChange(h, g, n, k);
  }

  predicate NonNegative(f: int -> int, n: nat) {
    forall i :: 0 <= i < n ==> f(i) >= 0
  }

  /** Of terms that are not negative, none exceeds the sum. */
  lemma {:induction false} SumAtLeast(f: int -> int, n: nat, k: int)
    requires 0 <= k < n && NonNegative(f, n)
    ensures 0 <= f(k) <= Sum(f, n)
  {
    SumNonNegative(f, n - 1);
    if k < n - 1 {
      SumAtLeast(f, n - 1, k);
    }
  }

  lemma {:induction false} SumNonNegative(f: int -> int, n: nat)
    requires NonNegative(f, n)
    ensures Sum(f, n) >= 0
  {
    if n > 0 {
      SumNonNegative(f, n - 1);
    }
  }

  lemma {:induction false} SumZero(f: int -> int, n: nat)
    requires forall i :: 0 <= i < n ==> f(i) == 0
    ensures Sum(f, n) == 0
  {
    if n > 0 {
      SumZero(f, n - 1);
    }
  }
}
