/** pushCommitWithRetry of cmd/jamsesh/hooks/userpromptsubmit.go. */
module PushRetry {
  import opened PushErrors

  /** What the i-th `git push` of a call does. */
  datatype Attempt = Attempt(exitCode: int, stderr: string)

  type Git = nat -> Attempt

  const BACKOFFS: seq<nat> := [250, 1000, 4000]

  datatype Ending = Returned(verdict: Class) | Panicked

  function ClassOf(git: Git, i: nat): Class {
    PushClass(git(i).exitCode, git(i).stderr)
  }

  /** The first `n` pushes all fail transiently. */
  ghost predicate AllTransient(git: Git, n: nat) {
    forall i | 0 <= i < n :: ClassOf(git, i) == Transient
  }

  /** The class of the first push that settles the matter, Transient if none of the n does. */
  function FinalClass(git: Git, n: nat): Class {
    if n == 0 then Transient
    else if FinalClass(git, n - 1) != Transient then FinalClass(git, n - 1)
    else ClassOf(git, n - 1)
  }

  lemma {:induction false} FinalClassSettles(git: Git, k: nat, n: nat)
    requires k < n && AllTransient(git, k) && ClassOf(git, k) != Transient
    ensures FinalClass(git, n) == ClassOf(git, k)
    decreases n
  {
    hide ClassOf;
    if k < n - 1 {
      FinalClassSettles(git, k, n - 1);
    } else {
      FinalTransient(git, k);
    }
  }

  /**
   Stops at the first push that is OK or Permanent, backing off in between; Transient
   only after maxAttempts pushes. The backoff table runs out: with maxAttempts of 5
   or more, four transient failures index past it. With maxAttempts below 1 nothing
   is pushed and the zero result, which says OK, comes back.
   */
  method PushCommitWithRetry(git: Git, maxAttempts: int) returns (ending: Ending, pushes: nat, slept: seq<nat>)
    ensures ending.Panicked? <==> maxAttempts >= 5 && AllTransient(git, 4)
    ensures ending.Panicked? ==> pushes == 4
    ensures maxAttempts <= 0 ==> ending == Returned(OK) && pushes == 0
    ensures maxAttempts >= 1 && ending.Returned? ==>
              && 1 <= pushes <= maxAttempts
              && ending.verdict == ClassOf(git, pushes - 1)
              && AllTransient(git, pushes - 1)
              && (ending.verdict == Transient ==> pushes == maxAttempts)
              && ending.verdict == FinalClass(git, maxAttempts)
    ensures |slept| <= 3 && slept == BACKOFFS[..|slept|] && (ending.Returned? && pushes >= 1 ==> |slept| == pushes - 1)
  {
    hide ClassOf;
    var last := OK;
    pushes, slept := 0, [];
    var attempt := 0;
    while attempt < maxAttempts
      invariant 0 <= attempt && (attempt <= maxAttempts || (maxAttempts <= 0 && attempt == 0))
      invariant pushes == attempt && AllTransient(git, pushes)
      invariant attempt == 0 ==> last == OK
      invariant attempt >= 1 ==> last == Transient
      invariant |slept| == (if attempt < maxAttempts || attempt == 0 then attempt else attempt - 1) <= 3
      invariant slept == BACKOFFS[..|slept|]
    {
      last := ClassOf(git, attempt);
      pushes := pushes + 1;
      if last == OK || last == Permanent {
        FinalClassSettles(git, attempt, maxAttempts);
        return Returned(last), pushes, slept;
      }
      assert AllTransient(git, pushes);
      if attempt < maxAttempts - 1 {
        if attempt >= |BACKOFFS| {
          return Panicked, pushes, slept;
        }
        slept := slept + [BACKOFFS[attempt]];
      }
      attempt := attempt + 1;
    }
    if maxAttempts >= 1 {
      FinalTransient(git, maxAttempts);
      assert ClassOf(git, maxAttempts - 1) == Transient;
    }
    ending := Returned(last);
  }

  lemma {:induction false} FinalTransient(git: Git, n: nat)
    requires AllTransient(git, n)
    ensures FinalClass(git, n) == Transient
    decreases n
  {
    hide ClassOf;
    if n > 0 {
      FinalTransient(git, n - 1);
    }
  }
}
