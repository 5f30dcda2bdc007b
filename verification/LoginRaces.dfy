/**
 Failed logins that overlap on one account. A call reads the counter, checks the password,
 and writes the counter it read plus one; nothing holds the row in between.
 */
module LoginRaces {
  import opened Common
  import opened LoginLockout

  /**
   `checked` counts the wrong passwords checked, `noted` the failures written since the counter
   was last zeroed; `underway` maps a call to the counter it read.
   */
  datatype Scene = Scene(failed: nat, lockedUntil: Option<nat>, noted: nat, checked: nat, underway: map<nat, nat>)

  /** `Check` is the read and the comparison with a wrong password, `Note` the write that follows. */
  datatype Race =
    | Check(tx: nat, now: nat)
    | Note(tx: nat, later: nat)
    | Zero

  function Advance(c: Config, s: Scene, e: Race): Scene {
    match e
    case Check(tx, now) =>
      if tx in s.underway || (s.lockedUntil.Some? && s.lockedUntil.value > now) then s
      else s.(checked := s.checked + 1, underway := s.underway[tx := s.failed])
    case Note(tx, later) =>
      if tx !in s.underway then s
      else
        var next := s.underway[tx] + 1;
        s.(failed := next, lockedUntil := if next >= c.maxAttempts then Some(later + c.lockout) else None,
           noted := s.noted + 1, underway := s.underway - {tx})
    case Zero => s.(failed := 0, lockedUntil := None, noted := 0)
  }

  function RunRace(c: Config, s: Scene, events: seq<Race>): Scene
    decreases |events|
  {
    if events == [] then s else RunRace(c, Advance(c, s, events[0]), events[1..])
  }

  /** The counter says how many failures there were. */
  predicate Exact(s: Scene) {
    s.failed == s.noted
  }

  /** The write lands on a counter that is not the one its call has read. */
  predicate Overwrites(s: Scene, e: Race) {
    e.Note? && e.tx in s.underway && s.underway[e.tx] != s.failed
  }

  predicate NeverOverwrites(c: Config, s: Scene, events: seq<Race>)
    decreases |events|
  {
    events == [] || (!Overwrites(s, events[0]) && NeverOverwrites(c, Advance(c, s, events[0]), events[1..]))
  }

  predicate StaysExact(c: Config, s: Scene, events: seq<Race>)
    decreases |events|
  {
    Exact(s) && (events == [] || StaysExact(c, Advance(c, s, events[0]), events[1..]))
  }

  /**
   The counter is the number of failures since the last zeroing at every moment if and only if
   no failure is written over a counter that has changed since its call read it.
   */
  lemma {:induction false} ExactIffNeverOverwrites(c: Config, s: Scene, events: seq<Race>)
    requires Exact(s)
    ensures StaysExact(c, s, events) <==> NeverOverwrites(c, s, events)
    decreases |events|
  {
    if events != [] {
      assert Exact(Advance(c, s, events[0])) <==> !Overwrites(s, events[0]);
      hide Advance, Exact, Overwrites;
      if !Overwrites(s, events[0]) { ExactIffNeverOverwrites(c, Advance(c, s, events[0]), events[1..]); }
    }
  }

  // ---- How far it can go ----------------------------------------------------------------------

  const QUIET := Scene(0, None, 0, 0, map[])

  function Checks(from: nat, n: nat): seq<Race>
    requires from <= n
    decreases n - from
  {
    if from == n then [] else [Check(from, 0)] + Checks(from + 1, n)
  }

  function Notes(from: nat, n: nat): seq<Race>
    requires from <= n
    decreases n - from
  {
    if from == n then [] else [Note(from, 0)] + Notes(from + 1, n)
  }

  /** Calls from `from` up to `n` have read a counter of zero and written nothing yet. */
  predicate AllReadZero(s: Scene, from: nat, n: nat) {
    forall tx :: from <= tx < n ==> tx in s.underway && s.underway[tx] == 0
  }

  lemma {:induction false} ChecksAreFree(c: Config, s: Scene, from: nat, n: nat)
    requires from <= n && s.failed == 0 && s.lockedUntil.None? && AllReadZero(s, 0, from)
    requires forall tx :: tx in s.underway ==> tx < from
    ensures var s' := RunRace(c, s, Checks(from, n));
      && AllReadZero(s', 0, n) && s'.failed == 0 && s'.lockedUntil.None?
      && s'.checked == s.checked + (n - from) && s'.noted == s.noted
    decreases n - from
  {
    if from < n {
      assert Checks(from, n)[0] == Check(from, 0) && Checks(from, n)[1..] == Checks(from + 1, n);
      ChecksAreFree(c, Advance(c, s, Check(from, 0)), from + 1, n);
    }
  }

  lemma {:induction false} NotesCollapse(c: Config, s: Scene, from: nat, n: nat)
    requires from <= n && AllReadZero(s, from, n) && c.maxAttempts > 1 && s.lockedUntil.None?
    requires s.failed == if from == 0 then 0 else 1
    ensures var s' := RunRace(c, s, Notes(from, n));
      && s'.failed == (if n == 0 then 0 else 1) && s'.lockedUntil.None?
      && s'.checked == s.checked && s'.noted == s.noted + (n - from)
    decreases n - from
  {
    if from < n {
      assert Notes(from, n)[0] == Note(from, 0) && Notes(from, n)[1..] == Notes(from + 1, n);
      NotesCollapse(c, Advance(c, s, Note(from, 0)), from + 1, n);
    }
  }

  lemma {:induction false} RaceSplits(c: Config, s: Scene, a: seq<Race>, b: seq<Race>)
    ensures RunRace(c, s, a + b) == RunRace(c, RunRace(c, s, a), b)
    decreases |a|
  {
    if a == [] {
      assert a + b == b;
    } else {
      assert (a + b)[0] == a[0] && (a + b)[1..] == a[1..] + b;
      hide Advance;
      RaceSplits(c, Advance(c, s, a[0]), a[1..], b);
    }
  }

  /**
   No number of overlapping guesses is too many: for every n a run checks n wrong passwords,
   and the counter ends at one with the account unlocked.
   */
  lemma OverlapOutrunsTheLock(c: Config, n: nat)
    requires c.maxAttempts > 1 && n > 0
    ensures var s := RunRace(c, QUIET, Checks(0, n) + Notes(0, n));
      s.checked == n && s.noted == n && s.failed == 1 && s.lockedUntil.None?
  {
    RaceSplits(c, QUIET, Checks(0, n), Notes(0, n));
    ChecksAreFree(c, QUIET, 0, n);
    NotesCollapse(c, RunRace(c, QUIET, Checks(0, n)), 0, n);
  }
}
