/** The bounded retry around one optimistic transaction, and the counters it keeps. */
module OptimisticMutator {

  /** How one attempt ends: committed, refused by a version check, or failed for a reason of its own. */
  datatype Attempt = Done | Conflicted | Failed

  datatype Verdict = Returned | ConflictError | Thrown

  /** Conflicts before the first attempt that is not one, looking at no more than `limit` attempts. */
  function LeadingConflicts(attempts: nat -> Attempt, from: nat, limit: nat): (n: nat)
    requires from <= limit
    ensures n <= limit - from
    ensures forall k :: from <= k < from + n ==> attempts(k) == Conflicted
    ensures from + n < limit ==> attempts(from + n) != Conflicted
    decreases limit - from
  {
    if from == limit || attempts(from) != Conflicted then 0 else 1 + LeadingConflicts(attempts, from + 1, limit)
  }

  class Mutator {
    const maxRetries: int
    var invocations: nat
    var attempts: nat
    var conflicts: nat
    var retries: nat
    var failures: nat

    /** Every attempt is the first of its call or a retry; every conflict is retried or given up on. */
    predicate Valid()
      reads this
    {
      attempts == invocations + retries && conflicts == retries + failures
    }

    constructor (maxRetries: int)
      ensures Valid() && this.maxRetries == maxRetries && invocations == 0
    {
      this.maxRetries := maxRetries;
      invocations, attempts, conflicts, retries, failures := 0, 0, 0, 0, 0;
    }

    /**
     * Retries while attempts conflict, at most `maxRetries` attempts in all (and
     * at least one). It gives up with a conflict error exactly when every attempt
     * it may make conflicts; otherwise the first other outcome decides.
     */
    method WithAccountLock(outcome: nat -> Attempt) returns (v: Verdict)
      requires Valid()
      modifies this
      ensures Valid() && invocations == old(invocations) + 1
      ensures
        var limit := if maxRetries < 1 then 1 else maxRetries;
        var n := LeadingConflicts(outcome, 0, limit);
        && v == (if n == limit then ConflictError else if outcome(n) == Done then Returned else Thrown)
        && conflicts == old(conflicts) + n
        && attempts == old(attempts) + (if n == limit then limit else n + 1)
        && failures == old(failures) + (if n == limit then 1 else 0)
    {
      invocations := invocations + 1;
      ghost var limit := if maxRetries < 1 then 1 else maxRetries;
      var attempt := 1;
      while true
        invariant 1 <= attempt <= limit
        invariant attempts == old(attempts) + attempt - 1 && conflicts == old(conflicts) + attempt - 1
        invariant retries == old(retries) + attempt - 1 && failures == old(failures) && invocations == old(invocations) + 1
        invariant LeadingConflicts(outcome, 0, limit) == attempt - 1 + LeadingConflicts(outcome, attempt - 1, limit)
        decreases limit - attempt
      {
        attempts := attempts + 1;
        var result := outcome(attempt - 1);
        if result != Conflicted {
          return if result == Done then Returned else Thrown;
        }
        conflicts := conflicts + 1;
        if attempt >= maxRetries {
          failures := failures + 1;
          return ConflictError;
        }
        retries := retries + 1;
        attempt := attempt + 1;
      }
    }
  }
}
