/**
 Counting failed logins on one account. Passwords are opaque and equal exactly when their
 hashes verify; an account without one signs in through Google only. Calls run one after
 another; times are milliseconds.
 */
module LoginLockout {
  import opened Common
  import opened Accounts
  import opened GuessBudget

  datatype Config = Config(maxAttempts: nat, lockout: nat)

  /** `Zeroed` marks a reset of the counter, whoever did it. */
  datatype Entry = Failed(at: nat) | Zeroed

  datatype State = State(password: Option<nat>, status: Status, failed: nat, lockedUntil: Option<nat>, log: seq<Entry>)

  datatype Error = InvalidCredentials | AccountLocked | Refused(why: Unusable)

  datatype Outcome = Outcome(state: State, error: Option<Error>)

  datatype Event =
    | Login(password: nat, now: nat, later: nat)
    | GoogleSignIn(now: nat)
    | ResetPassword(password: nat, now: nat)
    | Suspend(now: nat)
    | Reinstate(now: nat)

  function Clear(s: State): State {
    s.(failed := 0, lockedUntil := None, log := s.log + [Zeroed])
  }

  /** Counts the failure and locks the account from the limit on. */
  function Failing(c: Config, s: State, now: nat, later: nat): State {
    s.(failed := s.failed + 1,
       lockedUntil := if s.failed + 1 >= c.maxAttempts then Some(later + c.lockout) else None,
       log := s.log + [Failed(now)])
  }

  function LoggingIn(c: Config, s: State, password: nat, now: nat, later: nat): Outcome {
    if s.lockedUntil.Some? && s.lockedUntil.value > now then Outcome(s, Some(AccountLocked))
    else if s.password != Some(password) then Outcome(Failing(c, s, now, later), Some(InvalidCredentials))
    else if WhyUnusable(s.status).Some? then Outcome(s, Some(Refused(WhyUnusable(s.status).value)))
    else Outcome(Clear(s), None)
  }

  function SigningIn(s: State): Outcome {
    if WhyUnusable(s.status).Some? then Outcome(s, Some(Refused(WhyUnusable(s.status).value))) else Outcome(Clear(s), None)
  }

  function Step(c: Config, s: State, e: Event): State {
    match e
    case Login(password, now, later) => LoggingIn(c, s, password, now, later).state
    case GoogleSignIn(now) => SigningIn(s).state
    case ResetPassword(password, now) => Clear(s.(password := Some(password)))
    case Suspend(now) => s.(status := Suspended)
    case Reinstate(now) => Clear(s.(status := Active))
  }

  function EndOf(e: Event): nat {
    if e.Login? then e.later else e.now
  }

  predicate Timely(clock: nat, e: Event) {
    clock <= e.now && (e.Login? ==> e.now <= e.later)
  }

  predicate TimelyRun(clock: nat, events: seq<Event>)
    decreases |events|
  {
    events == [] || (Timely(clock, events[0]) && TimelyRun(EndOf(events[0]), events[1..]))
  }

  function Run(c: Config, s: State, events: seq<Event>): State
    decreases |events|
  {
    if events == [] then s else Run(c, Step(c, s, events[0]), events[1..])
  }

  function Fresh(password: Option<nat>, status: Status): State {
    State(password, status, 0, None, [])
  }

  /** Times of the failures since the counter was last zeroed. */
  function SinceZero(log: seq<Entry>): seq<nat> {
    if log == [] then []
    else
      match log[|log| - 1]
      case Zeroed => []
      case Failed(at) => SinceZero(log[..|log| - 1]) + [at]
  }

  lemma SinceZeroAppend(log: seq<Entry>, e: Entry)
    ensures SinceZero(log + [e]) == if e.Failed? then SinceZero(log) + [e.at] else []
  {
    assert (log + [e])[..|log|] == log;
  }

  /** At every point of the past, the failures since the last zeroing kept the lockout. */
  ghost predicate PastInv(c: Config, log: seq<Entry>) {
    forall n :: 0 <= n <= |log| ==> LockedApart(SinceZero(log[..n]), c.maxAttempts, c.lockout)
  }

  /** The counter is exact, and at the limit the lock outlives the last failure by the lockout. */
  predicate CountInv(c: Config, w: seq<nat>, failed: nat, lockedUntil: Option<nat>, clock: nat) {
    && failed == |w|
    && (w != [] ==> w[|w| - 1] <= clock)
    && (|w| >= c.maxAttempts > 0 ==> lockedUntil.Some? && lockedUntil.value >= w[|w| - 1] + c.lockout)
  }

  ghost predicate Inv(c: Config, s: State, clock: nat) {
    PastInv(c, s.log) && CountInv(c, SinceZero(s.log), s.failed, s.lockedUntil, clock)
  }

  lemma PastGrows(c: Config, log: seq<Entry>, e: Entry)
    requires PastInv(c, log) && LockedApart(SinceZero(log + [e]), c.maxAttempts, c.lockout)
    ensures PastInv(c, log + [e])
  {
    hide LockedApart, SinceZero;
    var log' := log + [e];
    forall n | 0 <= n <= |log'|
      ensures LockedApart(SinceZero(log'[..n]), c.maxAttempts, c.lockout)
    {
      if n <= |log| { assert log'[..n] == log[..n]; } else { assert log'[..n] == log'; }
    }
  }

  lemma ClearKeepsInv(c: Config, s: State, clock: nat, now: nat)
    requires Inv(c, s, clock)
    ensures Inv(c, Clear(s), now)
  {
    SinceZeroAppend(s.log, Zeroed);
    PastGrows(c, s.log, Zeroed);
  }

  lemma PastNow(c: Config, log: seq<Entry>)
    requires PastInv(c, log)
    ensures LockedApart(SinceZero(log), c.maxAttempts, c.lockout)
  {
    hide LockedApart, SinceZero;
    assert log[..|log|] == log;
  }

  lemma FailKeepsInv(c: Config, s: State, clock: nat, now: nat, later: nat)
    requires Inv(c, s, clock) && clock <= now <= later && !(s.lockedUntil.Some? && s.lockedUntil.value > now)
    ensures Inv(c, Failing(c, s, now, later), later)
  {
    hide PastInv, LockedApart, SinceZero;
    SinceZeroAppend(s.log, Failed(now));
    PastNow(c, s.log);
    AppendLockedApart(SinceZero(s.log), c.maxAttempts, c.lockout, now);
    PastGrows(c, s.log, Failed(now));
  }

  lemma StepKeepsInv(c: Config, s: State, clock: nat, e: Event)
    requires Inv(c, s, clock) && Timely(clock, e)
    ensures Inv(c, Step(c, s, e), EndOf(e))
  {
    hide PastInv, SinceZero, Clear, Failing;
    match e
    case Login(password, now, later) =>
      ClearKeepsInv(c, s, clock, later);
      if !(s.lockedUntil.Some? && s.lockedUntil.value > now) { FailKeepsInv(c, s, clock, now, later); }
    case GoogleSignIn(now) => ClearKeepsInv(c, s, clock, now);
    case ResetPassword(password, now) => ClearKeepsInv(c, s.(password := Some(password)), clock, now);
    case Suspend(now) =>
    case Reinstate(now) => ClearKeepsInv(c, s.(status := Active), clock, now);
  }

  function LastClock(clock: nat, events: seq<Event>): nat {
    if events == [] then clock else EndOf(events[|events| - 1])
  }

  lemma {:induction false} RunKeepsInv(c: Config, s: State, clock: nat, events: seq<Event>)
    requires Inv(c, s, clock) && TimelyRun(clock, events)
    ensures Inv(c, Run(c, s, events), LastClock(clock, events))
    decreases |events|
  {
    hide Inv, Step;
    if events != [] {
      StepKeepsInv(c, s, clock, events[0]);
      RunKeepsInv(c, Step(c, s, events[0]), EndOf(events[0]), events[1..]);
      assert LastClock(EndOf(events[0]), events[1..]) == LastClock(clock, events);
    }
  }

  /** A stretch of failures with no zeroing in it is the tail of what was counted at its end. */
  lemma {:induction false} StretchIsCounted(log: seq<Entry>, p: nat)
    requires p < |log| && forall k :: p <= k < |log| ==> log[k].Failed?
    ensures var w := SinceZero(log);
      |w| >= |log| - p && forall k :: p <= k < |log| ==> w[|w| - |log| + k] == log[k].at
    decreases |log|
  {
    var n := |log| - 1;
    if p < n {
      var rest := log[..n];
      assert forall k :: p <= k < n ==> rest[k] == log[k];
      StretchIsCounted(rest, p);
      var w, v := SinceZero(log), SinceZero(rest);
      assert w == v + [log[n].at];
      forall k | p <= k < |log|
        ensures w[|w| - |log| + k] == log[k].at
      {
        if k < n { assert v[|v| - n + k] == rest[k].at; }
      }
    }
  }

  lemma TailLockedApart(w: seq<nat>, attempts: nat, lockout: nat, from: nat)
    requires LockedApart(w, attempts, lockout) && from <= |w|
    ensures LockedApart(w[from..], attempts, lockout)
  {
  }

  lemma {:induction false} Rising(w: seq<nat>, attempts: nat, lockout: nat, i: nat, j: nat)
    requires LockedApart(w, attempts, lockout) && i <= j < |w|
    ensures w[i] <= w[j]
    decreases j
  {
    if i < j { Rising(w, attempts, lockout, i, j - 1); }
  }

  /** The last `n` failures lie between the first and the last of them, a lockout apart. */
  lemma TailInSpan(w: seq<nat>, attempts: nat, lockout: nat, n: nat)
    requires LockedApart(w, attempts, lockout) && 0 < n <= |w|
    ensures var t := w[|w| - n..];
      LockedApart(t, attempts, lockout) && forall i :: 0 <= i < n ==> w[|w| - n] <= t[i] <= w[|w| - 1]
  {
    var t := w[|w| - n..];
    TailLockedApart(w, attempts, lockout, |w| - n);
    forall i | 0 <= i < n
      ensures t[0] <= t[i] <= t[n - 1]
    {
      Rising(t, attempts, lockout, 0, i);
      Rising(t, attempts, lockout, i, n - 1);
    }
  }

  lemma TailBudget(w: seq<nat>, attempts: nat, lockout: nat, n: nat, span: nat)
    requires LockedApart(w, attempts, lockout) && attempts > 0 && lockout > 0 && 0 < n <= |w|
    requires w[|w| - 1] <= w[|w| - n] + span
    ensures n <= attempts + span / lockout
  {
    hide LockedApart;
    var t, from := w[|w| - n..], w[|w| - n];
    TailInSpan(w, attempts, lockout, n);
    GuessesInSpan(t, attempts, lockout, from, from + span);
    assert from + span - from == span;
  }

  /**
   In any run, failures that follow each other with no zeroing between, the last at most
   `span` after the first, number at most maxAttempts + span / lockout.
   */
  lemma FailureBudget(c: Config, password: Option<nat>, status: Status, events: seq<Event>, p: nat, q: nat, span: nat)
    requires TimelyRun(0, events) && c.maxAttempts > 0 && c.lockout > 0
    requires var log := Run(c, Fresh(password, status), events).log;
      p <= q < |log| && (forall k :: p <= k <= q ==> log[k].Failed?) && log[q].at <= log[p].at + span
    ensures q + 1 - p <= c.maxAttempts + span / c.lockout
  {
    assert Inv(c, Fresh(password, status), 0);
    RunKeepsInv(c, Fresh(password, status), 0, events);
    var log := Run(c, Fresh(password, status), events).log;
    hide Run, TimelyRun, LockedApart, SinceZero;
    var sub := log[..q + 1];
    assert PastInv(c, log);
    assert forall k :: p <= k <= q ==> sub[k] == log[k];
    StretchIsCounted(sub, p);
    var w, n := SinceZero(sub), q + 1 - p;
    hide PastInv, CountInv;
    assert w[|w| - n] == log[p].at && w[|w| - 1] == log[q].at;
    TailBudget(w, c.maxAttempts, c.lockout, n, span);
  }

  /**
   The lock holds: at the limit, until the lockout has passed since the last failure, no
   password gets in, and none is even checked.
   */
  lemma LockHolds(c: Config, password: Option<nat>, status: Status, events: seq<Event>, guess: nat, now: nat, later: nat)
    requires TimelyRun(0, events) && c.maxAttempts > 0
    requires var w := SinceZero(Run(c, Fresh(password, status), events).log);
      |w| >= c.maxAttempts && now < w[|w| - 1] + c.lockout
    ensures var s := Run(c, Fresh(password, status), events);
      LoggingIn(c, s, guess, now, later) == Outcome(s, Some(AccountLocked))
  {
    assert Inv(c, Fresh(password, status), 0);
    RunKeepsInv(c, Fresh(password, status), 0, events);
    hide Run, TimelyRun, PastInv, SinceZero;
  }

  class LoginService {
    const config: Config
    var passwordHash: Option<nat>
    var status: Status
    var failedLoginCount: nat
    var lockedUntil: Option<nat>
    ghost var log: seq<Entry>

    ghost function Snapshot(): State
      reads this
    {
      State(passwordHash, status, failedLoginCount, lockedUntil, log)
    }

    constructor (config: Config, password: Option<nat>, status: Status)
      ensures this.config == config && Snapshot() == Fresh(password, status)
    {
      this.config := config;
      passwordHash, this.status := password, status;
      failedLoginCount, lockedUntil, log := 0, None, [];
    }

    method Login(password: nat, now: nat, later: nat) returns (error: Option<Error>)
      modifies this
      ensures var o := LoggingIn(config, old(Snapshot()), password, now, later); Snapshot() == o.state && error == o.error
      ensures error.None? <==>
                && (old(lockedUntil).Some? ==> old(lockedUntil).value <= now)
                && old(passwordHash) == Some(password) && status != Suspended && status != Deactivated
      ensures error.None? ==> failedLoginCount == 0 && lockedUntil.None?
      ensures failedLoginCount > old(failedLoginCount) <==> error == Some(InvalidCredentials)
      ensures error.Some? && error.value != InvalidCredentials ==> Snapshot() == old(Snapshot())
      ensures error == Some(AccountLocked) <==> old(lockedUntil).Some? && now < old(lockedUntil).value
      ensures error == Some(InvalidCredentials) <==>
                (old(lockedUntil).Some? ==> old(lockedUntil).value <= now) && passwordHash != Some(password)
      ensures error == Some(InvalidCredentials) ==>
                && failedLoginCount == old(failedLoginCount) + 1
                && lockedUntil == if failedLoginCount >= config.maxAttempts then Some(later + config.lockout) else None
      ensures passwordHash == old(passwordHash) && status == old(status)
    {
      if lockedUntil.Some? && lockedUntil.value > now { return Some(AccountLocked); }
      var valid := passwordHash.Some? && passwordHash.value == password;
      if !valid {
        RegisterFailedAttempt(failedLoginCount, now, later);
        return Some(InvalidCredentials);
      }
      if status == Suspended { return Some(Refused(AccountSuspended)); }
      if status == Deactivated { return Some(Refused(AccountDeactivated)); }
      ZeroCounter();
      error := None;
    }

    method RegisterFailedAttempt(current: nat, now: nat, later: nat)
      requires current == failedLoginCount
      modifies this
      ensures Snapshot() == Failing(config, old(Snapshot()), now, later)
      ensures failedLoginCount == old(failedLoginCount) + 1
      ensures lockedUntil == if failedLoginCount >= config.maxAttempts then Some(later + config.lockout) else None
    {
      var next := current + 1;
      var locked := next >= config.maxAttempts;
      failedLoginCount := next;
      lockedUntil := if locked then Some(later + config.lockout) else None;
      log := log + [Failed(now)];
    }

    /** The write that login, Google sign-in, password reset and reinstatement share. */
    method ZeroCounter()
      modifies this
      ensures Snapshot() == Clear(old(Snapshot()))
    {
      failedLoginCount := 0;
      lockedUntil := None;
      log := log + [Zeroed];
    }

    method GoogleSignIn() returns (error: Option<Error>)
      modifies this
      ensures var o := SigningIn(old(Snapshot())); Snapshot() == o.state && error == o.error
      ensures error.None? <==> status != Suspended && status != Deactivated
      ensures error.None? ==> failedLoginCount == 0 && lockedUntil.None?
      ensures error.Some? ==> Snapshot() == old(Snapshot())
      ensures error == Some(Refused(AccountSuspended)) <==> status == Suspended
      ensures passwordHash == old(passwordHash) && status == old(status)
    {
      if status == Suspended { return Some(Refused(AccountSuspended)); }
      if status == Deactivated { return Some(Refused(AccountDeactivated)); }
      ZeroCounter();
      error := None;
    }

    method ResetPassword(password: nat)
      modifies this
      ensures Snapshot() == Clear(old(Snapshot()).(password := Some(password)))
      ensures passwordHash == Some(password) && failedLoginCount == 0 && lockedUntil.None? && status == old(status)
    {
      passwordHash := Some(password);
      ZeroCounter();
    }

    method Suspend()
      modifies this
      ensures Snapshot() == old(Snapshot()).(status := Suspended)
    {
      status := Suspended;
    }

    method Reinstate()
      modifies this
      ensures Snapshot() == Clear(old(Snapshot()).(status := Active))
      ensures status == Active && failedLoginCount == 0 && lockedUntil.None? && passwordHash == old(passwordHash)
    {
      status := Active;
      ZeroCounter();
    }
  }
}
