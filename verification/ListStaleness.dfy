/**
 When a cached listing can be stale: the exact condition, for every interleaving of readers
 and writers, with or without the discipline of `ListCache`.
 */
module ListStaleness {
  import opened Common
  import opened ListKeys
  import opened ListCache

  /** Somebody was answered with less than what had been committed and announced before they asked. */
  ghost predicate Stale(s: System) {
    exists i :: 0 <= i < |s.answers| && s.answers[i].stamp < s.answers[i].need
  }

  predicate AllByReaders(events: seq<Event>) {
    forall i :: 0 <= i < |events| ==> ByReader(events[i])
  }

  /** Readers alone, with no further write, can end up with a stale answer. */
  ghost predicate CanGoStale(s: System) {
    exists events :: AllByReaders(events) && Stale(Run(s, events))
  }

  /** A listing of state `p` is stored under this version and key, or a reader is about to store it. */
  ghost predicate Offered(s: System, v: nat, k: Key, p: nat) {
    || ((v, k) in s.store && s.store[(v, k)] == p)
    || exists r :: r in s.readers && s.readers[r].version == v && s.readers[r].key == k && s.readers[r].produced == Some(p)
  }

  /** A lookup under this version and key, made already or by the next request, must reflect `n` writes. */
  ghost predicate Wanted(s: System, v: nat, k: Key, n: nat) {
    || (v == s.version && n == s.settled)
    || exists r :: r in s.readers && s.readers[r].version == v && s.readers[r].key == k && !s.readers[r].missed && s.readers[r].need == n
  }

  /** Something older than `n` writes is cached, or about to be, under this version. */
  ghost predicate OfferedBelow(s: System, v: nat, n: nat) {
    exists k: Key, p: nat :: Offered(s, v, k, p) && p < n
  }

  ghost predicate Exposed(s: System) {
    Stale(s) || exists v: nat, k: Key, p: nat, n: nat :: Offered(s, v, k, p) && Wanted(s, v, k, n) && p < n
  }

  /** Nothing in flight is ahead of the database, and a listing is produced after its version was read. */
  ghost predicate WellFormed(s: System) {
    && s.settled <= s.commits
    && (forall w :: w in s.writers && s.writers[w].commit.Some? ==> s.writers[w].commit.value <= s.commits)
    && (forall k :: k in s.store ==> s.store[k] <= s.commits)
    && (forall r :: r in s.readers ==>
          && s.readers[r].need <= s.commits
          && (s.readers[r].produced.Some? ==> s.readers[r].missed && s.readers[r].need <= s.readers[r].produced.value <= s.commits))
  }

  lemma StartIsClean()
    ensures WellFormed(Start()) && !Exposed(Start())
  {
  }

  lemma WellFormedKept(s: System, e: Event)
    requires WellFormed(s)
    ensures WellFormed(Step(s, e))
  {
  }

  lemma OfferedIsPast(s: System, v: nat, k: Key, p: nat)
    requires WellFormed(s) && Offered(s, v, k, p)
    ensures p <= s.commits
  {
  }

  // ---- Readers alone --------------------------------------------------------------------

  /** What readers offer next was offered before, or is fresh from the database. */
  lemma ReaderOffers(s: System, e: Event, v: nat, k: Key, p: nat)
    requires ByReader(e) && Offered(Step(s, e), v, k, p)
    ensures Offered(s, v, k, p) || p == s.commits
  {
  }

  lemma ReaderWants(s: System, e: Event, v: nat, k: Key, n: nat)
    requires ByReader(e) && Wanted(Step(s, e), v, k, n)
    ensures Wanted(s, v, k, n)
  {
  }

  lemma WantedIsPast(s: System, v: nat, k: Key, n: nat)
    requires WellFormed(s) && Wanted(s, v, k, n)
    ensures n <= s.commits
  {
  }

  /** An answer is a stored listing or the reader's own. */
  lemma ReaderAnswers(s: System, e: Event)
    requires WellFormed(s) && ByReader(e) && Stale(Step(s, e))
    ensures Exposed(s)
  {
    var s' := Step(s, e);
    var i :| 0 <= i < |s'.answers| && s'.answers[i].stamp < s'.answers[i].need;
    if i < |s.answers| {
      assert s'.answers[i] == s.answers[i];
    } else {
      assert e.Lookup? || e.Store?;
      var x := s.readers[e.r];
      if e.Lookup? {
        assert Offered(s, x.version, x.key, s.store[(x.version, x.key)]);
        assert Wanted(s, x.version, x.key, x.need);
      }
    }
  }

  lemma ReaderKeepsClean(s: System, e: Event)
    requires WellFormed(s) && !Exposed(s) && ByReader(e)
    ensures !Exposed(Step(s, e))
  {
    var s' := Step(s, e);
    if Stale(s') { ReaderAnswers(s, e); }
    forall v: nat, k: Key, p: nat, n: nat | Offered(s', v, k, p) && Wanted(s', v, k, n)
      ensures p >= n
    {
      ReaderOffers(s, e, v, k, p);
      ReaderWants(s, e, v, k, n);
      WantedIsPast(s, v, k, n);
    }
  }

  lemma {:induction false} ReadersKeepClean(s: System, events: seq<Event>)
    requires WellFormed(s) && !Exposed(s) && AllByReaders(events)
    ensures !Exposed(Run(s, events))
    decreases |events|
  {
    hide WellFormed, Exposed, Step, ByReader;
    if events != [] {
      WellFormedKept(s, events[0]);
      ReaderKeepsClean(s, events[0]);
      ReadersKeepClean(Step(s, events[0]), events[1..]);
    }
  }

  /** A stored listing older than somebody's need is handed to them. */
  lemma StoredIsServed(s: System, v: nat, k: Key, n: nat)
    requires (v, k) in s.store && s.store[(v, k)] < n && Wanted(s, v, k, n)
    ensures CanGoStale(s)
  {
    if v == s.version && n == s.settled {
      var s1 := Step(s, ReadVersion(0, k));
      var s2 := Step(s1, Lookup(0));
      assert s2.answers[|s.answers|] == Answer(n, s.store[(v, k)]);
      RunOn(s, ReadVersion(0, k), [Lookup(0)] + []);
      RunOn(s1, Lookup(0), []);
      GoesStale(s, [ReadVersion(0, k)] + ([Lookup(0)] + []));
    } else {
      var r :| r in s.readers && s.readers[r].version == v && s.readers[r].key == k && !s.readers[r].missed && s.readers[r].need == n;
      var s1 := Step(s, Lookup(r));
      assert s1.answers[|s.answers|] == Answer(n, s.store[(v, k)]);
      RunOn(s, Lookup(r), []);
      GoesStale(s, [Lookup(r)] + []);
    }
  }

  lemma GoesStale(s: System, events: seq<Event>)
    requires AllByReaders(events) && Stale(Run(s, events))
    ensures CanGoStale(s)
  {
  }

  lemma StaleAfter(s: System, e: Event)
    requires ByReader(e) && CanGoStale(Step(s, e))
    ensures CanGoStale(s)
  {
    var events :| AllByReaders(events) && Stale(Run(Step(s, e), events));
    hide Stale, Step;
    RunOn(s, e, events);
    GoesStale(s, [e] + events);
  }

  /** What a reader is about to store can be stored first. */
  lemma OfferedIsServed(s: System, v: nat, k: Key, p: nat, n: nat)
    requires WellFormed(s) && Offered(s, v, k, p) && Wanted(s, v, k, n) && p < n
    ensures CanGoStale(s)
  {
    if (v, k) in s.store && s.store[(v, k)] == p {
      StoredIsServed(s, v, k, n);
    } else {
      var r :| r in s.readers && s.readers[r].version == v && s.readers[r].key == k && s.readers[r].produced == Some(p);
      var s1 := Step(s, Store(r));
      assert s1.store[(v, k)] == p;
      assert Wanted(s1, v, k, n) by { StoringWantsOn(s, r, v, k, n); }
      StoredIsServed(s1, v, k, n);
      StaleAfter(s, Store(r));
    }
  }

  lemma StoringWantsOn(s: System, r: nat, v: nat, k: Key, n: nat)
    requires WellFormed(s) && Wanted(s, v, k, n) && r in s.readers && s.readers[r].produced.Some?
    ensures Wanted(Step(s, Store(r)), v, k, n)
  {
    if !(v == s.version && n == s.settled) {
      var q :| q in s.readers && s.readers[q].version == v && s.readers[q].key == k && !s.readers[q].missed && s.readers[q].need == n;
      assert q != r;
      assert Step(s, Store(r)).readers[q] == s.readers[q];
    }
  }

  /**
   Readers alone can end with a stale answer exactly when one is stale already, or a listing
   stored or about to be stored is older than what a lookup under its version and key must reflect.
   */
  lemma CanGoStaleIffExposed(s: System)
    requires WellFormed(s)
    ensures CanGoStale(s) <==> Exposed(s)
  {
    if Exposed(s) {
      if Stale(s) {
        assert Run(s, []) == s;
        GoesStale(s, []);
      } else {
        var v: nat, k: Key, p: nat, n: nat :| Offered(s, v, k, p) && Wanted(s, v, k, n) && p < n;
        OfferedIsServed(s, v, k, p, n);
      }
    } else if CanGoStale(s) {
      var events :| AllByReaders(events) && Stale(Run(s, events));
      ReadersKeepClean(s, events);
    }
  }

  // ---- The writes that let staleness in ---------------------------------------------------

  /** What every later request under the version the bump sets must reflect. */
  function SettledBy(s: System, w: nat): nat {
    var x := WriterOf(s, w);
    if x.commit.Some? then Max(s.settled, x.commit.value) else s.settled
  }

  /**
   A commit that comes after its own bump spoils as soon as anything is cached or about to be
   cached under the current version; a bump spoils when something older than what is settled
   is cached or about to be cached under the version it sets.
   */
  ghost predicate Spoils(s: System, e: Event) {
    match e
    case Commit(w) =>
      WriterOf(s, w).bumped && WriterOf(s, w).commit.None? && OfferedBelow(s, s.version, s.commits + 1)
    case BumpSet(w) =>
      && WriterOf(s, w).seen.Some? && !WriterOf(s, w).bumped
      && OfferedBelow(s, WriterOf(s, w).seen.value + 1, SettledBy(s, w))
    case _ => false
  }

  /** The same listings and the same readers; another version or another need. */
  predicate SameShelf(s: System, s': System) {
    s'.store == s.store && s'.readers == s.readers && s'.answers == s.answers
  }

  lemma ShelfOffers(s: System, s': System, v: nat, k: Key, p: nat)
    requires SameShelf(s, s')
    ensures Offered(s', v, k, p) == Offered(s, v, k, p)
  {
  }

  /** Over an unchanged shelf only the current version's need can expose. */
  lemma ExposedByCurrent(s: System, s': System)
    requires SameShelf(s, s') && !Exposed(s)
    ensures Exposed(s') <==> OfferedBelow(s, s'.version, s'.settled)
  {
    if OfferedBelow(s, s'.version, s'.settled) {
      var k: Key, p: nat :| Offered(s, s'.version, k, p) && p < s'.settled;
      ShelfOffers(s, s', s'.version, k, p);
      assert Wanted(s', s'.version, k, s'.settled);
    }
    if Exposed(s') {
      assert !Stale(s');
      var v: nat, k: Key, p: nat, n: nat :| Offered(s', v, k, p) && Wanted(s', v, k, n) && p < n;
      ShelfOffers(s, s', v, k, p);
      if v == s'.version && n == s'.settled {
        assert Offered(s, s'.version, k, p) && p < s'.settled;
      } else {
        assert Wanted(s, v, k, n);
        assert false;
      }
    }
  }

  lemma CommitSpoils(s: System, w: nat)
    requires WellFormed(s) && !Exposed(s)
    ensures Exposed(Step(s, Commit(w))) <==> Spoils(s, Commit(w))
  {
    var s' := Step(s, Commit(w));
    ExposedByCurrent(s, s');
    hide Exposed, Offered, OfferedBelow;
    if WriterOf(s, w).bumped && WriterOf(s, w).commit.None? {
      assert s'.settled == s.commits + 1;
    } else {
      assert s'.settled == s.settled && s'.version == s.version;
      UnchangedNeed(s);
    }
  }

  lemma UnchangedNeed(s: System)
    requires !Exposed(s)
    ensures !OfferedBelow(s, s.version, s.settled)
  {
    if OfferedBelow(s, s.version, s.settled) {
      var k: Key, p: nat :| Offered(s, s.version, k, p) && p < s.settled;
      assert Wanted(s, s.version, k, s.settled);
      assert false;
    }
  }

  lemma BumpSpoils(s: System, w: nat)
    requires !Exposed(s)
    ensures Exposed(Step(s, BumpSet(w))) <==> Spoils(s, BumpSet(w))
  {
    if WriterOf(s, w).seen.Some? && !WriterOf(s, w).bumped {
      BumpShape(s, w);
      hide Step, Exposed, Offered;
      ExposedByCurrent(s, Step(s, BumpSet(w)));
    }
  }

  lemma StepIsCleanIffNotSpoilt(s: System, e: Event)
    requires WellFormed(s) && !Exposed(s)
    ensures Exposed(Step(s, e)) <==> Spoils(s, e)
  {
    hide WellFormed, Exposed, Offered;
    match e
    case Commit(w) => CommitSpoils(s, w);
    case BumpSet(w) => BumpSpoils(s, w);
    case BumpRead(w) => ReadOfVersion(s, w);
    case _ => ReaderKeepsClean(s, e);
  }

  lemma ReadOfVersion(s: System, w: nat)
    requires !Exposed(s)
    ensures !Exposed(Step(s, BumpRead(w)))
  {
    hide Exposed, Offered;
    ExposedByCurrent(s, Step(s, BumpRead(w)));
    UnchangedNeed(s);
  }

  /** At no moment of the run could readers alone have ended with a stale answer. */
  ghost predicate StaysFresh(s: System, events: seq<Event>)
    decreases |events|
  {
    !CanGoStale(s) && (events == [] || StaysFresh(Step(s, events[0]), events[1..]))
  }

  ghost predicate NothingSpoils(s: System, events: seq<Event>)
    decreases |events|
  {
    events == [] || (!Spoils(s, events[0]) && NothingSpoils(Step(s, events[0]), events[1..]))
  }

  lemma {:induction false} FreshIffNothingSpoils(s: System, events: seq<Event>)
    requires WellFormed(s) && !Exposed(s)
    ensures StaysFresh(s, events) <==> NothingSpoils(s, events)
    decreases |events|
  {
    hide WellFormed, Exposed, Spoils, CanGoStale, Step;
    CanGoStaleIffExposed(s);
    if events != [] {
      var s' := Step(s, events[0]);
      WellFormedKept(s, events[0]);
      StepIsCleanIffNotSpoilt(s, events[0]);
      if Spoils(s, events[0]) { CanGoStaleIffExposed(s'); } else { FreshIffNothingSpoils(s', events[1..]); }
    }
  }

  /**
   The exact condition, for every run from the start: no moment lets a stale answer through if
   and only if no commit and no bump of the run spoils.
   */
  lemma ListingsStayFreshIffNothingSpoils(events: seq<Event>)
    ensures StaysFresh(Start(), events) <==> NothingSpoils(Start(), events)
  {
    StartIsClean();
    FreshIffNothingSpoils(Start(), events);
  }

  /** Marked listings are never older than what is wanted under their version. */
  lemma MarkedIsClean(s: System)
    requires Inv(s)
    ensures !Exposed(s)
  {
    forall v: nat, k: Key, p: nat, n: nat | Offered(s, v, k, p) && Wanted(s, v, k, n)
      ensures p >= n
    {
      assert v in s.mark && s.mark[v] <= p;
      assert n <= s.mark[v];
    }
  }

  /** The discipline is one way to meet the condition. */
  lemma {:induction false} DisciplineSpoilsNothing(s: System, events: seq<Event>)
    requires Inv(s) && WellFormed(s) && DisciplinedRun(s, events)
    ensures NothingSpoils(s, events)
    decreases |events|
  {
    hide Inv, WellFormed, Spoils, Step, Disciplined, Exposed;
    if events != [] {
      var s' := Step(s, events[0]);
      RunKeepsInv(s, [events[0]]);
      OneStepRun(s, events[0]);
      WellFormedKept(s, events[0]);
      MarkedIsClean(s);
      MarkedIsClean(s');
      StepIsCleanIffNotSpoilt(s, events[0]);
      DisciplineSpoilsNothing(s', events[1..]);
    }
  }

  lemma OneStepRun(s: System, e: Event)
    ensures Run(s, [e]) == Step(s, e)
    ensures Disciplined(s, e) ==> DisciplinedRun(s, [e])
  {
    hide Step, Disciplined;
    assert [e][1..] == [];
  }
}
