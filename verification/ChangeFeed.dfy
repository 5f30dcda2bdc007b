/**
 The change feed: a change is announced at once, unless the same resource was announced
 less than half a second ago; then one timer announces it at the end of that window.
 Times are milliseconds of one clock that never runs back. Timers are never early.
 */
module ChangeFeed {
  import opened Common

  type Resource = nat

  const COALESCE_MS := 500

  datatype Emission = Emission(resource: Resource, at: nat)

  datatype Timer = Timer(resource: Resource, due: nat)

  /**
   `trailing` is the map the service consults; `timers` are the callbacks the runtime will
   run, whatever the map says. `emitted` records what listeners were told.
   */
  datatype Feed = Feed(
    lastEmitted: map<Resource, nat>,
    trailing: map<Resource, nat>,
    timers: map<nat, Timer>,
    emitted: seq<Emission>,
    nextTimer: nat)

  datatype Event = Publish(resource: Resource, now: nat) | Fire(timer: nat, now: nat)

  function Last(f: Feed, r: Resource): nat {
    if r in f.lastEmitted then f.lastEmitted[r] else 0
  }

  function Emit(f: Feed, r: Resource, at: nat): Feed {
    f.(lastEmitted := f.lastEmitted[r := at], emitted := f.emitted + [Emission(r, at)])
  }

  function Published(f: Feed, r: Resource, now: nat): Feed {
    var waited := now - Last(f, r);
    if waited >= COALESCE_MS then Emit(f, r, now)
    else if r in f.trailing then f
    else
      var due := now + (COALESCE_MS - waited);
      f.(trailing := f.trailing[r := f.nextTimer],
         timers := f.timers[f.nextTimer := Timer(r, due)],
         nextTimer := f.nextTimer + 1)
  }

  function Fired(f: Feed, timer: nat, now: nat): Feed
    requires timer in f.timers
  {
    var r := f.timers[timer].resource;
    Emit(f.(trailing := f.trailing - {r}, timers := f.timers - {timer}), r, now)
  }

  function Step(f: Feed, e: Event): Feed {
    match e
    case Publish(r, now) => Published(f, r, now)
    case Fire(timer, now) => if timer in f.timers then Fired(f, timer, now) else f
  }

  const IDLE := Feed(map[], map[], map[], [], 0)

  /** The clock does not run back, and no timer runs before it is due. */
  predicate Possible(f: Feed, clock: nat, e: Event) {
    e.now >= clock && (e.Fire? ==> e.timer in f.timers && e.now >= f.timers[e.timer].due)
  }

  /** Timers run on the dot: none is overdue when something happens, and a publish lets a due timer go first. */
  predicate Punctual(f: Feed, e: Event) {
    && (e.Publish? ==> forall t :: t in f.timers ==> f.timers[t].due > e.now)
    && (e.Fire? ==> forall t :: t in f.timers ==> f.timers[t].due >= e.now)
  }

  predicate PossibleRun(f: Feed, clock: nat, events: seq<Event>, punctual: bool)
    decreases |events|
  {
    events == [] ||
    (&& Possible(f, clock, events[0])
     && (punctual ==> Punctual(f, events[0]))
     && PossibleRun(Step(f, events[0]), events[0].now, events[1..], punctual))
  }

  function Run(f: Feed, events: seq<Event>): Feed
    decreases |events|
  {
    if events == [] then f else Run(Step(f, events[0]), events[1..])
  }

  /** When the resource was announced, in order. */
  function Of(emitted: seq<Emission>, r: Resource): seq<nat> {
    if emitted == [] then []
    else
      var last := emitted[|emitted| - 1];
      Of(emitted[..|emitted| - 1], r) + if last.resource == r then [last.at] else []
  }

  lemma OfAppends(emitted: seq<Emission>, e: Emission, r: Resource)
    ensures Of(emitted + [e], r) == Of(emitted, r) + if e.resource == r then [e.at] else []
  {
    assert (emitted + [e])[..|emitted|] == emitted;
  }

  // ---- Timers and the map agree -----------------------------------------------------

  /** The runtime's timers are the map's entries: never two for one resource. */
  ghost predicate Tidy(f: Feed) {
    && (forall r :: r in f.trailing ==> f.trailing[r] in f.timers && f.timers[f.trailing[r]].resource == r)
    && (forall t :: t in f.timers ==> t < f.nextTimer && f.timers[t].resource in f.trailing
                                      && f.trailing[f.timers[t].resource] == t)
  }

  lemma TidyKept(f: Feed, e: Event)
    requires Tidy(f)
    ensures Tidy(Step(f, e))
  {
  }

  /**
   Three announcements in a row span a window. A pending timer is due when the window of
   some announcement ends: the latest, or an earlier one that the latest kept clear of.
   */
  ghost predicate Paced(f: Feed, clock: nat, r: Resource) {
    var s := Of(f.emitted, r);
    var last := Last(f, r);
    && (r in f.lastEmitted <==> s != [])
    && (s != [] ==> s[|s| - 1] == last)
    && last <= clock
    && Ordered(s) && PairsSpaced(s)
    && (Waiting(f, r) ==>
          && DueFor(f, r) <= last + COALESCE_MS
          && (DueFor(f, r) < last + COALESCE_MS && |s| > 1 ==> last - s[|s| - 2] >= COALESCE_MS))
  }

  predicate Waiting(f: Feed, r: Resource) {
    r in f.trailing && f.trailing[r] in f.timers
  }

  function DueFor(f: Feed, r: Resource): nat
    requires Waiting(f, r)
  {
    f.timers[f.trailing[r]].due
  }

  predicate Ordered(s: seq<nat>) {
    forall i :: 0 < i < |s| ==> s[i - 1] <= s[i]
  }

  predicate Spaced(s: seq<nat>) {
    forall i :: 0 < i < |s| ==> s[i] - s[i - 1] >= COALESCE_MS
  }

  predicate PairsSpaced(s: seq<nat>) {
    forall i :: 1 < i < |s| ==> s[i] - s[i - 2] >= COALESCE_MS
  }

  lemma SpacingOfAppend(s: seq<nat>, at: nat)
    requires s != [] ==> s[|s| - 1] <= at
    ensures Ordered(s) ==> Ordered(s + [at])
    ensures PairsSpaced(s) && (|s| > 1 ==> at - s[|s| - 2] >= COALESCE_MS) ==> PairsSpaced(s + [at])
    ensures Spaced(s) && (s != [] ==> at - s[|s| - 1] >= COALESCE_MS) ==> Spaced(s + [at])
  {
  }

  /** An announcement of `r` puts its time at the end of its list, and no other changes it. */
  lemma StepOf(f: Feed, e: Event, r: Resource)
    requires e.Fire? ==> e.timer in f.timers
    ensures var own := if e.Publish? then e.resource == r && e.now - Last(f, r) >= COALESCE_MS
                       else f.timers[e.timer].resource == r;
            Of(Step(f, e).emitted, r) == Of(f.emitted, r) + if own then [e.now] else []
  {
    OfAppends(f.emitted, Emission(if e.Publish? then e.resource else f.timers[e.timer].resource, e.now), r);
  }

  function About(f: Feed, e: Event): Resource
    requires e.Fire? ==> e.timer in f.timers
  {
    if e.Publish? then e.resource else f.timers[e.timer].resource
  }

  lemma OthersKeep(f: Feed, e: Event, r: Resource)
    requires Tidy(f) && (e.Fire? ==> e.timer in f.timers) && About(f, e) != r
    ensures Last(Step(f, e), r) == Last(f, r) && (r in Step(f, e).lastEmitted <==> r in f.lastEmitted)
    ensures Waiting(Step(f, e), r) <==> Waiting(f, r)
    ensures Waiting(f, r) ==> DueFor(Step(f, e), r) == DueFor(f, r)
  {
  }

  lemma EmitKeepsPace(f: Feed, clock: nat, r: Resource, now: nat)
    requires Tidy(f) && Paced(f, clock, r) && clock <= now && now - Last(f, r) >= COALESCE_MS
    ensures Paced(Step(f, Publish(r, now)), now, r)
  {
    var s, s' := Of(f.emitted, r), Of(Step(f, Publish(r, now)).emitted, r);
    StepOf(f, Publish(r, now), r);
    assert s' == s + [now];
    SpacingOfAppend(s, now);
    assert Ordered(s') && PairsSpaced(s');
    hide Of, Ordered, PairsSpaced, Tidy;
  }

  lemma WaitKeepsPace(f: Feed, clock: nat, r: Resource, now: nat)
    requires Tidy(f) && Paced(f, clock, r) && clock <= now && now - Last(f, r) < COALESCE_MS
    ensures Paced(Step(f, Publish(r, now)), now, r)
  {
    hide Of, Ordered, PairsSpaced;
    StepOf(f, Publish(r, now), r);
    assert Of(Step(f, Publish(r, now)).emitted, r) == Of(f.emitted, r);
  }

  lemma PublishKeepsPace(f: Feed, clock: nat, r: Resource, now: nat)
    requires Tidy(f) && Paced(f, clock, r) && clock <= now
    ensures Paced(Step(f, Publish(r, now)), now, r)
  {
    hide Of, Tidy, Paced, Step;
    if now - Last(f, r) >= COALESCE_MS { EmitKeepsPace(f, clock, r, now); } else { WaitKeepsPace(f, clock, r, now); }
  }

  lemma FireKeepsPace(f: Feed, clock: nat, timer: nat, now: nat)
    requires Tidy(f) && timer in f.timers && Paced(f, clock, f.timers[timer].resource)
    requires clock <= now && f.timers[timer].due <= now
    ensures Paced(Step(f, Fire(timer, now)), now, f.timers[timer].resource)
  {
    var r := f.timers[timer].resource;
    var s := Of(f.emitted, r);
    StepOf(f, Fire(timer, now), r);
    assert Waiting(f, r) && DueFor(f, r) == f.timers[timer].due;
    SpacingOfAppend(s, now);
    hide Of, Ordered, PairsSpaced;
  }

  lemma OthersKeepPace(f: Feed, clock: nat, e: Event, r: Resource)
    requires Tidy(f) && Paced(f, clock, r) && Possible(f, clock, e) && About(f, e) != r
    ensures Paced(Step(f, e), e.now, r)
  {
    hide Step, Of, Ordered, PairsSpaced, Tidy, Last, Waiting, DueFor;
    OthersKeep(f, e, r);
    StepOf(f, e, r);
    assert Of(Step(f, e).emitted, r) == Of(f.emitted, r);
  }

  lemma PacedKept(f: Feed, clock: nat, e: Event, r: Resource)
    requires Tidy(f) && Paced(f, clock, r) && Possible(f, clock, e)
    ensures Paced(Step(f, e), e.now, r)
  {
    hide Paced, Tidy, Step, Of;
    if About(f, e) != r {
      OthersKeepPace(f, clock, e, r);
    } else {
      match e
      case Publish(_, now) => PublishKeepsPace(f, clock, r, now);
      case Fire(timer, now) => FireKeepsPace(f, clock, timer, now);
    }
  }

  /** On time, a pending timer is due when the latest window ends, so every gap is a window. */
  ghost predicate EvenlyPaced(f: Feed, clock: nat, r: Resource) {
    && Paced(f, clock, r)
    && Spaced(Of(f.emitted, r))
    && (Waiting(f, r) ==> DueFor(f, r) == Last(f, r) + COALESCE_MS)
  }

  lemma EvenPublish(f: Feed, clock: nat, r: Resource, now: nat)
    requires Tidy(f) && EvenlyPaced(f, clock, r) && clock <= now && Punctual(f, Publish(r, now))
    requires Paced(Step(f, Publish(r, now)), now, r)
    ensures EvenlyPaced(Step(f, Publish(r, now)), now, r)
  {
    StepOf(f, Publish(r, now), r);
    SpacingOfAppend(Of(f.emitted, r), now);
    hide Of, Ordered, PairsSpaced, Spaced;
  }

  lemma EvenFire(f: Feed, clock: nat, timer: nat, now: nat)
    requires Tidy(f) && timer in f.timers && EvenlyPaced(f, clock, f.timers[timer].resource) && now == f.timers[timer].due
    requires clock <= now && Paced(Step(f, Fire(timer, now)), now, f.timers[timer].resource)
    ensures EvenlyPaced(Step(f, Fire(timer, now)), now, f.timers[timer].resource)
  {
    var r := f.timers[timer].resource;
    StepOf(f, Fire(timer, now), r);
    assert Waiting(f, r) && DueFor(f, r) == now;
    SpacingOfAppend(Of(f.emitted, r), now);
    hide Of, Ordered, PairsSpaced, Spaced;
  }

  lemma EvenlyPacedKept(f: Feed, clock: nat, e: Event, r: Resource)
    requires Tidy(f) && EvenlyPaced(f, clock, r) && Possible(f, clock, e) && Punctual(f, e)
    ensures EvenlyPaced(Step(f, e), e.now, r)
  {
    PacedKept(f, clock, e, r);
    if About(f, e) != r {
      OthersKeep(f, e, r);
      StepOf(f, e, r);
      hide Step, Tidy, Last, Waiting, DueFor, Of, Ordered, PairsSpaced, Spaced, Paced;
    } else {
      hide Step, Tidy, Last, Waiting, DueFor, Of, Ordered, PairsSpaced, Spaced, Paced, EvenlyPaced;
      match e
      case Publish(_, now) => EvenPublish(f, clock, r, now);
      case Fire(timer, now) => EvenFire(f, clock, timer, now);
    }
  }

  function ClockAfter(clock: nat, events: seq<Event>): nat {
    if events == [] then clock else events[|events| - 1].now
  }

  lemma {:induction false} PaceOfRun(f: Feed, clock: nat, events: seq<Event>, r: Resource, punctual: bool)
    requires Tidy(f) && PossibleRun(f, clock, events, punctual)
    requires Paced(f, clock, r) && (punctual ==> EvenlyPaced(f, clock, r))
    ensures Tidy(Run(f, events)) && Paced(Run(f, events), ClockAfter(clock, events), r)
    ensures punctual ==> EvenlyPaced(Run(f, events), ClockAfter(clock, events), r)
    decreases |events|
  {
    if events != [] {
      var e := events[0];
      TidyKept(f, e);
      PacedKept(f, clock, e, r);
      if punctual { EvenlyPacedKept(f, clock, e, r); }
      PaceOfRun(Step(f, e), e.now, events[1..], r, punctual);
      assert ClockAfter(e.now, events[1..]) == ClockAfter(clock, events);
    }
  }

  lemma {:induction false} SpanOfGaps(s: seq<nat>, i: nat, j: nat)
    requires i <= j < |s| && Spaced(s)
    ensures s[j] - s[i] >= COALESCE_MS * (j - i)
    decreases j - i
  {
    if i < j { SpanOfGaps(s, i, j - 1); }
  }

  lemma {:induction false} SpanOfPairs(s: seq<nat>, i: nat, j: nat)
    requires i <= j < |s| && Ordered(s) && PairsSpaced(s)
    ensures s[j] - s[i] >= COALESCE_MS * ((j - i) / 2)
    decreases j - i
  {
    if j >= i + 2 { SpanOfPairs(s, i, j - 2); }
  }

  /**
   With punctual timers, announcements of one resource that fit in W ms are at most
   W / 500 + 1; with timers late by any amount, at most twice that.
   */
  lemma {:induction false} FeedRate(events: seq<Event>, r: Resource, i: nat, j: nat, window: nat, punctual: bool)
    requires PossibleRun(IDLE, 0, events, punctual)
    requires var s := Of(Run(IDLE, events).emitted, r); i <= j < |s| && s[j] - s[i] <= window
    ensures punctual ==> j - i + 1 <= window / COALESCE_MS + 1
    ensures j - i + 1 <= 2 * (window / COALESCE_MS + 1)
  {
    PaceOfRun(IDLE, 0, events, r, punctual);
    var s := Of(Run(IDLE, events).emitted, r);
    if punctual { SpanOfGaps(s, i, j); }
    SpanOfPairs(s, i, j);
  }

  /** On time, neighbours are a window apart; late or not, any three in a row span one. */
  lemma {:induction false} AnnouncementsSpanWindows(events: seq<Event>, r: Resource, punctual: bool)
    requires PossibleRun(IDLE, 0, events, punctual)
    ensures var s := Of(Run(IDLE, events).emitted, r);
      && (punctual ==> forall i :: 0 < i < |s| ==> s[i] - s[i - 1] >= COALESCE_MS)
      && (forall i :: 1 < i < |s| ==> s[i] - s[i - 2] >= COALESCE_MS)
  {
    PaceOfRun(IDLE, 0, events, r, punctual);
  }

  /**
   A timer runs less than half a second after an announcement that was made while the timer
   was already overdue.
   */
  predicate Crowds(f: Feed, e: Event, r: Resource) {
    && e.Fire? && e.timer in f.timers && f.timers[e.timer].resource == r
    && r in f.lastEmitted && f.timers[e.timer].due <= f.lastEmitted[r] && e.now < f.lastEmitted[r] + COALESCE_MS
  }

  predicate NeverCrowds(f: Feed, events: seq<Event>, r: Resource)
    decreases |events|
  {
    events == [] || (!Crowds(f, events[0], r) && NeverCrowds(Step(f, events[0]), events[1..], r))
  }

  /** A timer that is not overdue at the latest announcement is due when that window ends. */
  ghost predicate DueAtWindowsEnd(f: Feed, r: Resource) {
    Waiting(f, r) && r in f.lastEmitted && DueFor(f, r) > Last(f, r) ==> DueFor(f, r) == Last(f, r) + COALESCE_MS
  }

  ghost predicate Keyed(f: Feed, clock: nat, r: Resource) {
    Paced(f, clock, r) && DueAtWindowsEnd(f, r)
  }

  lemma KeyedKept(f: Feed, clock: nat, e: Event, r: Resource)
    requires Tidy(f) && Keyed(f, clock, r) && Possible(f, clock, e)
    ensures Keyed(Step(f, e), e.now, r)
  {
    PacedKept(f, clock, e, r);
    if About(f, e) != r { OthersKeep(f, e, r); }
    hide Paced, Of;
  }

  /** The announcement a step makes comes too soon exactly when it crowds. */
  lemma StepCrowds(f: Feed, clock: nat, e: Event, r: Resource)
    requires Tidy(f) && Keyed(f, clock, r) && Possible(f, clock, e) && Spaced(Of(f.emitted, r))
    ensures Spaced(Of(Step(f, e).emitted, r)) <==> !Crowds(f, e, r)
  {
    var s, s' := Of(f.emitted, r), Of(Step(f, e).emitted, r);
    StepOf(f, e, r);
    SpacingOfAppend(s, e.now);
    if e.Fire? && f.timers[e.timer].resource == r {
      assert Waiting(f, r) && DueFor(f, r) == f.timers[e.timer].due;
      assert s' == s + [e.now];
      if Crowds(f, e, r) {
        assert s'[|s|] - s'[|s| - 1] < COALESCE_MS;
      }
    }
    hide Of, Step;
  }

  /** Gaps once too small stay in the record. */
  lemma CrowdingStays(f: Feed, e: Event, r: Resource)
    requires e.Fire? ==> e.timer in f.timers
    ensures Spaced(Of(Step(f, e).emitted, r)) ==> Spaced(Of(f.emitted, r))
  {
    StepOf(f, e, r);
    var s, s' := Of(f.emitted, r), Of(Step(f, e).emitted, r);
    hide Of, Step;
    if Spaced(s') {
      forall i | 0 < i < |s| ensures s[i] - s[i - 1] >= COALESCE_MS { assert s'[i] == s[i] && s'[i - 1] == s[i - 1]; }
    }
  }

  lemma {:induction false} CrowdedForGood(f: Feed, clock: nat, events: seq<Event>, r: Resource)
    requires PossibleRun(f, clock, events, false) && !Spaced(Of(f.emitted, r))
    ensures !Spaced(Of(Run(f, events).emitted, r))
    decreases |events|
  {
    hide Spaced, Of, Step;
    if events != [] {
      CrowdingStays(f, events[0], r);
      CrowdedForGood(Step(f, events[0]), events[0].now, events[1..], r);
    }
  }

  lemma {:induction false} SpacedIffNeverCrowds(f: Feed, clock: nat, events: seq<Event>, r: Resource)
    requires Tidy(f) && Keyed(f, clock, r) && PossibleRun(f, clock, events, false) && Spaced(Of(f.emitted, r))
    ensures Spaced(Of(Run(f, events).emitted, r)) <==> NeverCrowds(f, events, r)
    decreases |events|
  {
    hide Spaced, Of, Step, Tidy, Keyed, Crowds;
    if events != [] {
      TidyKept(f, events[0]);
      KeyedKept(f, clock, events[0], r);
      StepCrowds(f, clock, events[0], r);
      if Crowds(f, events[0], r) {
        CrowdedForGood(Step(f, events[0]), events[0].now, events[1..], r);
      } else {
        SpacedIffNeverCrowds(Step(f, events[0]), events[0].now, events[1..], r);
      }
    }
  }

  /**
   The exact condition, however late timers are: announcements of a resource stay a window
   apart if and only if no timer of its runs within half a second of an announcement that was
   made while that timer was overdue.
   */
  lemma WindowsKeptIffNeverCrowded(events: seq<Event>, r: Resource)
    requires PossibleRun(IDLE, 0, events, false)
    ensures Spaced(Of(Run(IDLE, events).emitted, r)) <==> NeverCrowds(IDLE, events, r)
  {
    assert Keyed(IDLE, 0, r) && Tidy(IDLE) && Spaced(Of(IDLE.emitted, r));
    hide Spaced, Of, Step, Tidy, Keyed, Crowds;
    SpacedIffNeverCrowds(IDLE, 0, events, r);
  }

  /** A late timer does bring two announcements closer than the window. */
  lemma LateTimerCanCrowd()
    ensures var events := [Publish(7, 1000), Publish(7, 1100), Publish(7, 1600), Fire(0, 1601)];
      && PossibleRun(IDLE, 0, events, false)
      && Of(Run(IDLE, events).emitted, 7) == [1000, 1600, 1601]
  {
    var events := [Publish(7, 1000), Publish(7, 1100), Publish(7, 1600), Fire(0, 1601)];
    var f1 := Step(IDLE, events[0]);
    var f2 := Step(f1, events[1]);
    var f3 := Step(f2, events[2]);
    var f4 := Step(f3, events[3]);
    assert f2.timers == map[0 := Timer(7, 1500)] && f3.timers == f2.timers;
    assert events[1..] == [events[1], events[2], events[3]];
    assert events[1..][1..] == [events[2], events[3]];
    assert [events[2], events[3]][1..] == [events[3]];
    assert [events[3]][1..] == [];
    assert Run(IDLE, events) == Run(f1, events[1..]) == Run(f2, events[1..][1..]);
    assert Run(f2, [events[2], events[3]]) == Run(f3, [events[3]]) == Run(f4, []);
    var a, b, c := Emission(7, 1000), Emission(7, 1600), Emission(7, 1601);
    OfAppends([], a, 7);
    OfAppends([a], b, 7);
    OfAppends([a, b], c, 7);
    assert f4.emitted == [a] + [b] + [c] && [a] == [] + [a] && [a, b] == [a] + [b] && [a, b, c] == [a, b] + [c];
    assert PossibleRun(f3, 1600, [events[3]], false);
    assert PossibleRun(f2, 1100, [events[2], events[3]], false);
    assert PossibleRun(f1, 1000, events[1..], false);
  }

  // ---- No change is lost --------------------------------------------------------------

  /** Since position `from` of the log, the resource has been announced at `t` or later. */
  ghost predicate Announced(f: Feed, r: Resource, t: nat, from: nat, punctual: bool) {
    exists m :: from <= m < |f.emitted| && f.emitted[m].resource == r && t <= f.emitted[m].at
                && (punctual ==> f.emitted[m].at <= t + COALESCE_MS)
  }

  ghost predicate Owed(f: Feed, clock: nat, r: Resource, t: nat, from: nat, punctual: bool) {
    && t <= clock && from <= |f.emitted|
    && (Announced(f, r, t, from, punctual) || (Waiting(f, r) && DueFor(f, r) <= t + COALESCE_MS))
  }

  lemma PublishOwes(f: Feed, clock: nat, r: Resource, t: nat, punctual: bool)
    requires Tidy(f) && Paced(f, clock, r) && clock <= t
    ensures Owed(Step(f, Publish(r, t)), t, r, t, |f.emitted|, punctual)
  {
    var f' := Step(f, Publish(r, t));
    if f'.emitted != f.emitted {
      assert f'.emitted[|f.emitted|] == Emission(r, t);
    }
  }

  lemma OwedKept(f: Feed, clock: nat, e: Event, r: Resource, t: nat, from: nat, punctual: bool)
    requires Tidy(f) && Owed(f, clock, r, t, from, punctual)
    requires Possible(f, clock, e) && (punctual ==> Punctual(f, e))
    ensures Owed(Step(f, e), e.now, r, t, from, punctual)
  {
    var f' := Step(f, e);
    if Announced(f, r, t, from, punctual) {
      var m :| from <= m < |f.emitted| && f.emitted[m].resource == r && t <= f.emitted[m].at
               && (punctual ==> f.emitted[m].at <= t + COALESCE_MS);
      assert f'.emitted[m] == f.emitted[m];
    } else if e.Fire? && f.timers[e.timer].resource == r {
      assert f'.emitted[|f.emitted|] == Emission(r, e.now);
    }
  }

  lemma {:induction false} OwedThroughRun(f: Feed, clock: nat, events: seq<Event>, r: Resource, t: nat, from: nat, punctual: bool)
    requires Tidy(f) && Owed(f, clock, r, t, from, punctual) && PossibleRun(f, clock, events, punctual)
    ensures Owed(Run(f, events), ClockAfter(clock, events), r, t, from, punctual)
    decreases |events|
  {
    if events != [] {
      TidyKept(f, events[0]);
      OwedKept(f, clock, events[0], r, t, from, punctual);
      OwedThroughRun(Step(f, events[0]), events[0].now, events[1..], r, t, from, punctual);
      assert ClockAfter(events[0].now, events[1..]) == ClockAfter(clock, events);
    }
  }

  /** On time, no timer is ever overdue. */
  predicate NoneOverdue(f: Feed, clock: nat) {
    forall t :: t in f.timers ==> f.timers[t].due >= clock
  }

  lemma NoneOverdueKept(f: Feed, clock: nat, e: Event)
    requires NoneOverdue(f, clock) && Possible(f, clock, e) && Punctual(f, e)
    ensures NoneOverdue(Step(f, e), e.now)
  {
  }

  lemma {:induction false} NoneOverdueThroughRun(f: Feed, clock: nat, events: seq<Event>)
    requires NoneOverdue(f, clock) && PossibleRun(f, clock, events, true)
    ensures NoneOverdue(Run(f, events), ClockAfter(clock, events))
    decreases |events|
  {
    if events != [] {
      NoneOverdueKept(f, clock, events[0]);
      NoneOverdueThroughRun(Step(f, events[0]), events[0].now, events[1..]);
      assert ClockAfter(events[0].now, events[1..]) == ClockAfter(clock, events);
    }
  }

  /**
   After any run, a change published at `t` is announced at `t` or later by the time no timer
   waits for its resource. With punctual timers it is announced no later than t + 500, as
   soon as anything happens after that moment.
   */
  lemma {:induction false} NoChangeIsLost(before: seq<Event>, r: Resource, t: nat, after: seq<Event>, punctual: bool)
    requires PossibleRun(IDLE, 0, before, punctual)
    requires PossibleRun(Run(IDLE, before), ClockAfter(0, before), [Publish(r, t)] + after, punctual)
    ensures var start := Run(IDLE, before);
            var end := Run(start, [Publish(r, t)] + after);
      && (r !in end.trailing ==> Announced(end, r, t, |start.emitted|, punctual))
      && (Announced(end, r, t, |start.emitted|, punctual) || (Waiting(end, r) && DueFor(end, r) <= t + COALESCE_MS))
      && (punctual && ClockAfter(t, after) > t + COALESCE_MS ==> Announced(end, r, t, |start.emitted|, punctual))
  {
    PaceOfRun(IDLE, 0, before, r, punctual);
    var start := Run(IDLE, before);
    var all := [Publish(r, t)] + after;
    assert all[1..] == after;
    PublishOwes(start, ClockAfter(0, before), r, t, punctual);
    TidyKept(start, Publish(r, t));
    OwedThroughRun(Step(start, Publish(r, t)), t, after, r, t, |start.emitted|, punctual);
    if punctual {
      NoneOverdueThroughRun(IDLE, 0, before);
      NoneOverdueKept(start, ClockAfter(0, before), Publish(r, t));
      NoneOverdueThroughRun(Step(start, Publish(r, t)), t, after);
    }
  }

  /** However the run went, one resource never has two timers. */
  lemma {:induction false} OneTimerPerResource(events: seq<Event>, a: nat, b: nat)
    requires PossibleRun(IDLE, 0, events, false)
    requires var f := Run(IDLE, events); a in f.timers && b in f.timers && f.timers[a].resource == f.timers[b].resource
    ensures a == b
  {
    PaceOfRun(IDLE, 0, events, Run(IDLE, events).timers[a].resource, false);
  }

  // ---- The service ----------------------------------------------------------------------

  class ChangeFeedService {
    var lastEmitted: map<Resource, nat>
    var trailing: map<Resource, nat>
    var timers: map<nat, Timer>
    var emitted: seq<Emission>
    var nextTimer: nat
    var listeners: nat

    ghost function State(): Feed
      reads this
    {
      Feed(lastEmitted, trailing, timers, emitted, nextTimer)
    }

    constructor ()
      ensures State() == IDLE && listeners == 0
    {
      lastEmitted, trailing, timers, emitted, nextTimer, listeners := map[], map[], map[], [], 0, 0;
    }

    method Publish(resource: Resource, now: nat)
      modifies this
      ensures State() == Step(old(State()), Event.Publish(resource, now)) && listeners == old(listeners)
      ensures Tidy(old(State())) ==> Tidy(State())
      ensures var last := if resource in old(lastEmitted) then old(lastEmitted)[resource] else 0;
        && (now >= last + 500 ==>
              && emitted == old(emitted) + [Emission(resource, now)] && lastEmitted == old(lastEmitted)[resource := now]
              && trailing == old(trailing) && timers == old(timers))
        && (now < last + 500 ==> emitted == old(emitted) && lastEmitted == old(lastEmitted))
        && (now < last + 500 && resource in old(trailing) ==> trailing == old(trailing) && timers == old(timers))
        && (now < last + 500 && resource !in old(trailing) ==>
              && trailing == old(trailing)[resource := old(nextTimer)]
              && timers == old(timers)[old(nextTimer) := Timer(resource, last + 500)])
    {
      if Tidy(State()) { TidyKept(State(), Event.Publish(resource, now)); }
      var last := if resource in lastEmitted then lastEmitted[resource] else 0;
      var waited := now - last;
      if waited >= COALESCE_MS {
        Emit(resource, now);
        return;
      }
      if resource in trailing { return; }
      trailing := trailing[resource := nextTimer];
      timers := timers[nextTimer := Timer(resource, now + (COALESCE_MS - waited))];
      nextTimer := nextTimer + 1;
    }

    /** The runtime runs a timer's callback. */
    method TimerFires(timer: nat, now: nat)
      requires timer in timers
      modifies this
      ensures State() == Step(old(State()), Fire(timer, now)) && listeners == old(listeners)
      ensures Tidy(old(State())) ==> Tidy(State())
      ensures emitted == old(emitted) + [Emission(old(timers)[timer].resource, now)]
      ensures timer !in timers && old(timers)[timer].resource !in trailing
      ensures forall t :: t in old(timers) && t != timer ==> t in timers && timers[t] == old(timers)[t]
    {
      if Tidy(State()) { TidyKept(State(), Fire(timer, now)); }
      var resource := timers[timer].resource;
      timers := timers - {timer};
      trailing := trailing - {resource};
      Emit(resource, now);
    }

    method Emit(resource: Resource, at: nat)
      modifies this`lastEmitted, this`emitted
      ensures lastEmitted == old(lastEmitted)[resource := at]
      ensures emitted == old(emitted) + [Emission(resource, at)]
    {
      lastEmitted := lastEmitted[resource := at];
      emitted := emitted + [Emission(resource, at)];
    }

    method Opened()
      modifies this`listeners
      ensures listeners == old(listeners) + 1
    {
      listeners := listeners + 1;
    }

    method Closed()
      modifies this`listeners
      ensures listeners == if old(listeners) == 0 then 0 else old(listeners) - 1
    {
      listeners := if listeners >= 1 then listeners - 1 else 0;
    }
  }
}
