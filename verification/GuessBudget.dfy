/**
 The arithmetic of counted guesses: after `attempts` wrong ones, each further one has to
 wait out a lockout that starts at the one before.
 */
module GuessBudget {
  /** Times of wrong guesses, in order; from the limit on, a lockout apart. */
  ghost predicate LockedApart(times: seq<nat>, attempts: nat, lockout: nat) {
    && (forall i :: 0 < i < |times| ==> times[i - 1] <= times[i])
    && (forall i :: 0 < attempts <= i < |times| ==> times[i] - times[i - 1] >= lockout)
  }

  lemma {:induction false} LockoutsAddUp(times: seq<nat>, attempts: nat, lockout: nat, i: nat)
    requires LockedApart(times, attempts, lockout) && 0 < attempts <= i + 1 <= |times|
    ensures times[i] - times[attempts - 1] >= lockout * (i + 1 - attempts)
    decreases i
  {
    if i + 1 > attempts {
      LockoutsAddUp(times, attempts, lockout, i - 1);
      assert lockout * (i + 1 - attempts) == lockout * (i - attempts) + lockout;
    }
  }

  lemma QuotientBound(n: nat, d: nat, k: nat)
    requires d > 0 && d * k <= n
    ensures k <= n / d
  {
    var q := n / d;
    assert d * k < d * (q + 1);
    assert (k - (q + 1)) * d == d * k - d * (q + 1);
  }

  lemma NoQuotient(n: nat, d: nat)
    requires n < d
    ensures n / d == 0
  {
  }

  /** Wrong guesses that fit between `from` and `to` are at most attempts + (to - from) / lockout. */
  lemma {:induction false} GuessesInSpan(times: seq<nat>, attempts: nat, lockout: nat, from: nat, to: nat)
    requires LockedApart(times, attempts, lockout) && attempts > 0 && lockout > 0 && from <= to
    requires forall i :: 0 <= i < |times| ==> from <= times[i] <= to
    ensures |times| <= attempts + (to - from) / lockout
  {
    if |times| > attempts {
      var last, k := |times| - 1, |times| - attempts;
      LockoutsAddUp(times, attempts, lockout, last);
      assert last + 1 - attempts == k;
      hide LockedApart;
      assert times[last] - times[attempts - 1] <= to - from;
      QuotientBound(to - from, lockout, k);
    } else {
      assert (to - from) / lockout >= 0;
    }
  }

  lemma AppendLockedApart(times: seq<nat>, attempts: nat, lockout: nat, at: nat)
    requires LockedApart(times, attempts, lockout)
    requires times != [] ==> times[|times| - 1] <= at
    requires |times| >= attempts > 0 ==> at - times[|times| - 1] >= lockout
    ensures LockedApart(times + [at], attempts, lockout)
  {
  }
}
