/**
 Cached listings and the version counter that orphans them. Readers and writers overlap
 at every await. `mark[v]` is how many writes were committed when version v came up: a
 listing stored under v was read from the database no earlier than that.
 */
module ListCache {
  import opened Common
  import opened ListKeys

  type Key = seq<Pair>

  /** A write: its place in the commit order once committed, the version its bump has read. */
  datatype Writer = Writer(commit: Option<nat>, seen: Option<nat>, bumped: bool)

  /** A request: the version it read, whether its lookup missed, and the database state its query then saw. */
  datatype Reader = Reader(key: Key, version: nat, need: nat, missed: bool, produced: Option<nat>)

  /** A listing as answered: it reflects the first `stamp` writes. */
  datatype Answer = Answer(need: nat, stamp: nat)

  datatype System = System(
    commits: nat,
    version: nat,
    store: map<(nat, Key), nat>,
    writers: map<nat, Writer>,
    readers: map<nat, Reader>,
    settled: nat,
    answers: seq<Answer>,
    mark: map<nat, nat>)

  datatype Event =
    | Commit(w: nat)
    | BumpRead(w: nat)
    | BumpSet(w: nat)
    | ReadVersion(r: nat, key: Key)
    | Lookup(r: nat)
    | Produce(r: nat)
    | Store(r: nat)
    | Expire(version: nat, key: Key)

  const IDLE_WRITER := Writer(None, None, false)

  function WriterOf(s: System, w: nat): Writer {
    if w in s.writers then s.writers[w] else IDLE_WRITER
  }

  function Max(a: nat, b: nat): nat {
    if a < b then b else a
  }

  function SetVersion(s: System, v: nat): System {
    s.(version := v, mark := if v in s.mark then s.mark else s.mark[v := s.commits])
  }

  function Answered(s: System, r: nat, stamp: nat): System
    requires r in s.readers
  {
    s.(answers := s.answers + [Answer(s.readers[r].need, stamp)], readers := s.readers - {r})
  }

  function Step(s: System, e: Event): System {
    match e
    case Commit(w) =>
      var x := WriterOf(s, w);
      if x.commit.Some? then s
      else
        var n := s.commits + 1;
        s.(commits := n, writers := s.writers[w := x.(commit := Some(n))],
           settled := if x.bumped then Max(s.settled, n) else s.settled)
    case BumpRead(w) =>
      var x := WriterOf(s, w);
      if x.seen.Some? then s else s.(writers := s.writers[w := x.(seen := Some(s.version))])
    case BumpSet(w) =>
      var x := WriterOf(s, w);
      if x.seen.None? || x.bumped then s
      else
        var s' := SetVersion(s, x.seen.value + 1);
        s'.(writers := s.writers[w := x.(bumped := true)],
            settled := if x.commit.Some? then Max(s.settled, x.commit.value) else s.settled)
    case ReadVersion(r, key) => s.(readers := s.readers[r := Reader(key, s.version, s.settled, false, None)])
    case Lookup(r) =>
      if r !in s.readers || s.readers[r].missed then s
      else if (s.readers[r].version, s.readers[r].key) in s.store
      then Answered(s, r, s.store[(s.readers[r].version, s.readers[r].key)])
      else s.(readers := s.readers[r := s.readers[r].(missed := true)])
    case Produce(r) =>
      if r in s.readers && s.readers[r].missed && s.readers[r].produced.None?
      then s.(readers := s.readers[r := s.readers[r].(produced := Some(s.commits))])
      else s
    case Store(r) =>
      if r in s.readers && s.readers[r].produced.Some?
      then
        var x := s.readers[r];
        Answered(s.(store := s.store[(x.version, x.key) := x.produced.value]), r, x.produced.value)
      else s
    case Expire(version, key) => s.(store := s.store - {(version, key)})
  }

  function Run(s: System, events: seq<Event>): System
    decreases |events|
  {
    if events == [] then s else Run(Step(s, events[0]), events[1..])
  }

  /** A write is committed before it bumps, and no bump moves the version back. */
  predicate Disciplined(s: System, e: Event) {
    match e
    case BumpRead(w) => WriterOf(s, w).commit.Some?
    case BumpSet(w) => WriterOf(s, w).seen.Some? && !WriterOf(s, w).bumped ==> WriterOf(s, w).seen.value + 1 >= s.version
    case _ => true
  }

  predicate DisciplinedRun(s: System, events: seq<Event>)
    decreases |events|
  {
    events == [] || (Disciplined(s, events[0]) && DisciplinedRun(Step(s, events[0]), events[1..]))
  }

  function Start(): System {
    System(0, 1, map[], map[], map[], 0, [], map[1 := 0])
  }

  ghost predicate Marked(s: System) {
    && 1 <= s.version
    && (forall v :: v in s.mark <==> 1 <= v <= s.version)
    && (forall u, v :: u in s.mark && v in s.mark && u <= v ==> s.mark[u] <= s.mark[v])
    && s.mark[s.version] <= s.commits
    && s.settled <= s.mark[s.version]
  }

  ghost predicate WritersBehind(s: System) {
    forall w :: w in s.writers ==>
      var x := s.writers[w];
      && (x.commit.Some? ==> x.commit.value <= s.commits)
      && (x.bumped ==> x.seen.Some?)
      && (x.seen.Some? ==> x.commit.Some? && 1 <= x.seen.value <= s.version
                           && (x.seen.value < s.version ==>
                                 x.seen.value + 1 in s.mark && x.commit.value <= s.mark[x.seen.value + 1]))
  }

  ghost predicate ListingsFresh(s: System) {
    && (forall k :: k in s.store ==> k.0 in s.mark && s.mark[k.0] <= s.store[k])
    && (forall r :: r in s.readers ==>
          var x := s.readers[r];
          && x.version in s.mark && x.need <= s.mark[x.version]
          && (x.produced.Some? ==> s.mark[x.version] <= x.produced.value))
    && (forall i :: 0 <= i < |s.answers| ==> s.answers[i].need <= s.answers[i].stamp)
  }

  ghost predicate Inv(s: System) {
    Marked(s) && WritersBehind(s) && ListingsFresh(s)
  }

  /** Where a bump takes the version, and why its mark covers the write. */
  lemma BumpLands(s: System, w: nat)
    requires Marked(s) && WritersBehind(s) && Disciplined(s, BumpSet(w))
    requires WriterOf(s, w).seen.Some? && !WriterOf(s, w).bumped
    ensures var v := WriterOf(s, w).seen.value + 1;
      && (v == s.version || v == s.version + 1)
      && WriterOf(s, w).commit.Some? && WriterOf(s, w).commit.value <= SetVersion(s, v).mark[v]
  {
  }

  lemma HigherVersionIsMarked(s: System, v: nat)
    requires Marked(s) && (v == s.version || v == s.version + 1)
    ensures v in SetVersion(s, v).mark && Marked(SetVersion(s, v))
    ensures forall u :: u in s.mark ==> u in SetVersion(s, v).mark && SetVersion(s, v).mark[u] == s.mark[u]
    ensures v > s.version ==> SetVersion(s, v).mark[v] == s.commits
  {
    forall u | u in s.mark ensures s.mark[u] <= s.commits { assert s.mark[u] <= s.mark[s.version]; }
  }

  lemma BumpKeepsWriters(s: System, w: nat)
    requires Marked(s) && WritersBehind(s) && Disciplined(s, BumpSet(w))
    requires WriterOf(s, w).seen.Some? && !WriterOf(s, w).bumped
    ensures WritersBehind(Step(s, BumpSet(w)))
  {
    var v := WriterOf(s, w).seen.value + 1;
    BumpLands(s, w);
    HigherVersionIsMarked(s, v);
    hide Marked, SetVersion;
    BumpShape(s, w);
  }

  lemma BumpShape(s: System, w: nat)
    requires WriterOf(s, w).seen.Some? && !WriterOf(s, w).bumped
    ensures var x, s' := WriterOf(s, w), Step(s, BumpSet(w));
      var v := x.seen.value + 1;
      && s'.version == v && s'.mark == SetVersion(s, v).mark && s'.commits == s.commits
      && s'.writers == s.writers[w := x.(bumped := true)] && s'.store == s.store && s'.readers == s.readers
      && s'.answers == s.answers
      && s'.settled == if x.commit.Some? then Max(s.settled, x.commit.value) else s.settled
  {
  }

  lemma BumpKeepsInv(s: System, w: nat)
    requires Inv(s) && Disciplined(s, BumpSet(w))
    ensures Inv(Step(s, BumpSet(w)))
  {
    var x := WriterOf(s, w);
    if x.seen.Some? && !x.bumped {
      hide WritersBehind, Step, SetVersion, ListingsFresh;
      var v := x.seen.value + 1;
      BumpLands(s, w);
      HigherVersionIsMarked(s, v);
      BumpKeepsWriters(s, w);
      BumpShape(s, w);
      SettledStaysMarked(s, w);
      ListingsStayFresh(s, Step(s, BumpSet(w)));
    }
  }

  lemma SettledStaysMarked(s: System, w: nat)
    requires Marked(s) && WritersBehind(s) && Disciplined(s, BumpSet(w))
    requires WriterOf(s, w).seen.Some? && !WriterOf(s, w).bumped
    ensures Marked(Step(s, BumpSet(w)))
  {
    var v := WriterOf(s, w).seen.value + 1;
    BumpLands(s, w);
    HigherVersionIsMarked(s, v);
    BumpShape(s, w);
    hide Step, WritersBehind, SetVersion;
    assert s.version in s.mark && s.mark[s.version] <= s.commits;
  }

  lemma ListingsStayFresh(s: System, s': System)
    requires ListingsFresh(s) && s'.store == s.store && s'.readers == s.readers && s'.answers == s.answers
    requires forall u :: u in s.mark ==> u in s'.mark && s'.mark[u] == s.mark[u]
    ensures ListingsFresh(s')
  {
  }

  lemma CommitKeepsInv(s: System, w: nat)
    requires Inv(s)
    ensures Inv(Step(s, Commit(w)))
  {
  }

  lemma BumpReadKeepsInv(s: System, w: nat)
    requires Inv(s) && Disciplined(s, BumpRead(w))
    ensures Inv(Step(s, BumpRead(w)))
  {
  }

  predicate ByReader(e: Event) {
    !e.Commit? && !e.BumpRead? && !e.BumpSet?
  }

  lemma ReaderChangesNoWrites(s: System, e: Event)
    requires ByReader(e)
    ensures var s' := Step(s, e);
            s'.commits == s.commits && s'.version == s.version && s'.mark == s.mark
            && s'.writers == s.writers && s'.settled == s.settled
  {
  }

  lemma StoreKeepsListings(s: System, r: nat)
    requires ListingsFresh(s)
    ensures ListingsFresh(Step(s, Store(r)))
  {
  }

  lemma LookupKeepsListings(s: System, r: nat)
    requires ListingsFresh(s)
    ensures ListingsFresh(Step(s, Lookup(r)))
  {
  }

  lemma ProduceKeepsListings(s: System, r: nat)
    requires Marked(s) && ListingsFresh(s)
    ensures ListingsFresh(Step(s, Produce(r)))
  {
    forall v | v in s.mark ensures s.mark[v] <= s.commits { assert s.mark[v] <= s.mark[s.version]; }
  }

  lemma ReaderKeepsListings(s: System, e: Event)
    requires Marked(s) && ListingsFresh(s) && ByReader(e)
    ensures ListingsFresh(Step(s, e))
  {
    match e
    case Lookup(r) =>
      hide Step, ListingsFresh;
      LookupKeepsListings(s, r);
    case Produce(r) =>
      hide Step, ListingsFresh;
      ProduceKeepsListings(s, r);
    case Store(r) =>
      hide Step, ListingsFresh;
      StoreKeepsListings(s, r);
    case _ =>
  }

  lemma ReaderKeepsInv(s: System, e: Event)
    requires Inv(s) && ByReader(e)
    ensures Inv(Step(s, e))
  {
    ReaderChangesNoWrites(s, e);
    ReaderKeepsListings(s, e);
    hide Step, ListingsFresh;
  }

  lemma {:induction false} RunKeepsInv(s: System, events: seq<Event>)
    requires Inv(s) && DisciplinedRun(s, events)
    ensures Inv(Run(s, events))
    decreases |events|
  {
    if events != [] {
      match events[0] {
        case Commit(w) => CommitKeepsInv(s, w);
        case BumpSet(w) => BumpKeepsInv(s, w);
        case BumpRead(w) => BumpReadKeepsInv(s, w);
        case _ => ReaderKeepsInv(s, events[0]);
      }
      hide Inv, Step, Disciplined;
      RunKeepsInv(Step(s, events[0]), events[1..]);
    }
  }

  /**
   However many readers and writers overlap: an answer reflects every write that was
   committed and bumped before the request read the version.
   */
  lemma {:induction false} NoStaleListing(events: seq<Event>, i: nat)
    requires DisciplinedRun(Start(), events) && i < |Run(Start(), events).answers|
    ensures var a := Run(Start(), events).answers[i]; a.need <= a.stamp
  {
    RunKeepsInv(Start(), events);
  }

  // ---- Both parts of the discipline are needed ------------------------------------------

  lemma RunOn(s: System, e: Event, rest: seq<Event>)
    ensures Run(s, [e] + rest) == Run(Step(s, e), rest)
  {
    assert ([e] + rest)[1..] == rest;
  }

  lemma RunFour(s: System, a: Event, b: Event, c: Event, d: Event, rest: seq<Event>)
    ensures Run(s, [a, b, c, d] + rest) == Run(Step(Step(Step(Step(s, a), b), c), d), rest)
  {
    hide Run, Step;
    assert [a, b, c, d] + rest == [a] + ([b] + ([c] + ([d] + rest)));
    RunOn(s, a, [b] + ([c] + ([d] + rest)));
    RunOn(Step(s, a), b, [c] + ([d] + rest));
    RunOn(Step(Step(s, a), b), c, [d] + rest);
    RunOn(Step(Step(Step(s, a), b), c), d, rest);
  }

  /** Write 0 has bumped but not committed, and a reader has missed under the new version. */
  function Premature(): System {
    System(0, 2, map[], map[0 := Writer(None, Some(1), true)], map[1 := Reader([], 2, 0, true, None)], 0, [], map[1 := 0, 2 := 0])
  }

  lemma PrematureIsReachable()
    ensures Step(Step(Step(Step(Start(), BumpRead(0)), BumpSet(0)), ReadVersion(1, [])), Lookup(1)) == Premature()
  {
    var s2 := Step(Step(Start(), BumpRead(0)), BumpSet(0));
    assert s2 == System(0, 2, map[], map[0 := Writer(None, Some(1), true)], map[], 0, [], map[1 := 0, 2 := 0]);
  }

  lemma PrematureGoesStale()
    ensures var s' := Step(Step(Step(Step(Premature(), Produce(1)), Commit(0)), Store(1)), ReadVersion(2, []));
      Step(s', Lookup(2)).answers == [Answer(0, 0), Answer(1, 0)]
  {
    var s3 := Step(Step(Step(Premature(), Produce(1)), Commit(0)), Store(1));
    assert s3.store == map[(2, []) := 0] && s3.settled == 1 && s3.version == 2 && s3.answers == [Answer(0, 0)];
  }

  /** Creating a review bumps inside its transaction: a reader can cache the old listing for good. */
  lemma BumpBeforeCommitGoesStale()
    ensures var end := Run(Start(), [BumpRead(0), BumpSet(0), ReadVersion(1, []), Lookup(1)]
                                    + ([Produce(1), Commit(0), Store(1), ReadVersion(2, [])] + ([Lookup(2)] + [])));
      |end.answers| == 2 && end.answers[1] == Answer(1, 0)
  {
    hide Start, Step, Premature;
    PrematureIsReachable();
    RunFour(Start(), BumpRead(0), BumpSet(0), ReadVersion(1, []), Lookup(1),
            [Produce(1), Commit(0), Store(1), ReadVersion(2, [])] + ([Lookup(2)] + []));
    RunFour(Premature(), Produce(1), Commit(0), Store(1), ReadVersion(2, []), [Lookup(2)] + []);
    var s' := Step(Step(Step(Step(Premature(), Produce(1)), Commit(0)), Store(1)), ReadVersion(2, []));
    RunOn(s', Lookup(2), []);
    PrematureGoesStale();
  }

  /** After two writes under version 2, with write 0's bump read at version 1 and still to land. */
  function Overtaken(): System {
    System(2, 2, map[(2, []) := 2],
           map[0 := Writer(Some(1), Some(1), false), 1 := Writer(Some(2), Some(1), true)],
           map[], 2, [Answer(2, 2)], map[1 := 0, 2 := 2])
  }

  /** Both bumps have read version 1. */
  function BothRead(): System {
    System(2, 1, map[],
           map[0 := Writer(Some(1), Some(1), false), 1 := Writer(Some(2), Some(1), false)],
           map[], 0, [], map[1 := 0])
  }

  lemma BothReadIsReachable()
    ensures Step(Step(Step(Step(Start(), Commit(0)), BumpRead(0)), Commit(1)), BumpRead(1)) == BothRead()
  {
    var s2 := Step(Step(Start(), Commit(0)), BumpRead(0));
    assert s2 == System(1, 1, map[], map[0 := Writer(Some(1), Some(1), false)], map[], 0, [], map[1 := 0]);
  }

  /** One bump has landed, and a reader has read what is current. */
  function OneBumped(): System {
    System(2, 2, map[],
           map[0 := Writer(Some(1), Some(1), false), 1 := Writer(Some(2), Some(1), true)],
           map[5 := Reader([], 2, 2, true, Some(2))], 2, [], map[1 := 0, 2 := 2])
  }

  lemma OneBumpLands()
    ensures Step(Step(Step(Step(BothRead(), BumpSet(1)), ReadVersion(5, [])), Lookup(5)), Produce(5)) == OneBumped()
    ensures Step(OneBumped(), Store(5)) == Overtaken()
  {
    var s2 := Step(Step(BothRead(), BumpSet(1)), ReadVersion(5, []));
    assert s2 == System(2, 2, map[],
                        map[0 := Writer(Some(1), Some(1), false), 1 := Writer(Some(2), Some(1), true)],
                        map[5 := Reader([], 2, 2, false, None)], 2, [], map[1 := 0, 2 := 2]);
  }

  lemma OvertakenIsReachable()
    ensures Run(Start(), [Commit(0), BumpRead(0), Commit(1), BumpRead(1)]
                         + ([BumpSet(1), ReadVersion(5, []), Lookup(5), Produce(5)] + ([Store(5)] + []))) == Overtaken()
    ensures DisciplinedRun(Start(), [Commit(0), BumpRead(0), Commit(1), BumpRead(1)]
                                    + ([BumpSet(1), ReadVersion(5, []), Lookup(5), Produce(5)] + ([Store(5)] + [])))
  {
    hide Start, Step, BothRead, OneBumped, Overtaken, Disciplined;
    BothReadIsReachable();
    RunFour(Start(), Commit(0), BumpRead(0), Commit(1), BumpRead(1),
            [BumpSet(1), ReadVersion(5, []), Lookup(5), Produce(5)] + ([Store(5)] + []));
    RunFour(BothRead(), BumpSet(1), ReadVersion(5, []), Lookup(5), Produce(5), [Store(5)] + []);
    RunOn(OneBumped(), Store(5), []);
    OneBumpLands();
    BothReadIsDisciplined();
    OneBumpIsDisciplined();
    DisciplinedOn(OneBumped(), Store(5), []);
    DisciplinedFour(BothRead(), BumpSet(1), ReadVersion(5, []), Lookup(5), Produce(5), [Store(5)] + []);
    DisciplinedFour(Start(), Commit(0), BumpRead(0), Commit(1), BumpRead(1),
                    [BumpSet(1), ReadVersion(5, []), Lookup(5), Produce(5)] + ([Store(5)] + []));
  }

  lemma BothReadIsDisciplined()
    ensures var s1 := Step(Start(), Commit(0));
      var s2 := Step(s1, BumpRead(0));
      var s3 := Step(s2, Commit(1));
      Disciplined(Start(), Commit(0)) && Disciplined(s1, BumpRead(0)) && Disciplined(s2, Commit(1)) && Disciplined(s3, BumpRead(1))
  {
  }

  lemma OneBumpIsDisciplined()
    ensures var s1 := Step(BothRead(), BumpSet(1));
      var s2 := Step(s1, ReadVersion(5, []));
      var s3 := Step(s2, Lookup(5));
      && Disciplined(BothRead(), BumpSet(1)) && Disciplined(s1, ReadVersion(5, []))
      && Disciplined(s2, Lookup(5)) && Disciplined(s3, Produce(5)) && Disciplined(OneBumped(), Store(5))
  {
    hide Step;
  }

  lemma DisciplinedOn(s: System, e: Event, rest: seq<Event>)
    requires Disciplined(s, e) && DisciplinedRun(Step(s, e), rest)
    ensures DisciplinedRun(s, [e] + rest)
  {
    hide Step, Disciplined;
    assert ([e] + rest)[1..] == rest;
  }

  lemma DisciplinedFour(s: System, a: Event, b: Event, c: Event, d: Event, rest: seq<Event>)
    requires var s1 := Step(s, a);
      var s2 := Step(s1, b);
      var s3 := Step(s2, c);
      && Disciplined(s, a) && Disciplined(s1, b) && Disciplined(s2, c) && Disciplined(s3, d)
      && DisciplinedRun(Step(s3, d), rest)
    ensures DisciplinedRun(s, [a, b, c, d] + rest)
  {
    hide DisciplinedRun, Step, Disciplined;
    var s1 := Step(s, a);
    var s2 := Step(s1, b);
    DisciplinedOn(Step(s2, c), d, rest);
    DisciplinedOn(s2, c, [d] + rest);
    DisciplinedOn(s1, b, [c] + ([d] + rest));
    DisciplinedOn(s, a, [b] + ([c] + ([d] + rest)));
    assert [a, b, c, d] + rest == [a] + ([b] + ([c] + ([d] + rest)));
  }

  /** The bump of write 2 has landed as version 3. */
  function ThirdBumped(): System {
    System(3, 3, map[(2, []) := 2],
           map[0 := Writer(Some(1), Some(1), false), 1 := Writer(Some(2), Some(1), true), 2 := Writer(Some(3), Some(2), true)],
           map[], 3, [Answer(2, 2)], map[1 := 0, 2 := 2, 3 := 3])
  }

  lemma ThirdBumpLands()
    ensures Step(Step(Step(Overtaken(), Commit(2)), BumpRead(2)), BumpSet(2)) == ThirdBumped()
  {
    var s2 := Step(Step(Overtaken(), Commit(2)), BumpRead(2));
    assert s2.writers == map[0 := Writer(Some(1), Some(1), false), 1 := Writer(Some(2), Some(1), true), 2 := Writer(Some(3), Some(2), false)];
    assert s2.commits == 3 && s2.version == 2 && s2.settled == 2;
  }

  lemma FirstBumpLandsLast()
    ensures var s := Step(ThirdBumped(), BumpSet(0));
      Step(Step(s, ReadVersion(6, [])), Lookup(6)).answers == [Answer(2, 2), Answer(3, 2)]
  {
    var s := Step(ThirdBumped(), BumpSet(0));
    assert s.version == 2 && s.settled == 3 && s.store == map[(2, []) := 2] && s.answers == [Answer(2, 2)];
  }

  /** A bump that lands after two others takes the version back, and old listings with it. */
  lemma BumpMovedBackGoesStale()
    ensures var end := Run(Overtaken(), [Commit(2), BumpRead(2), BumpSet(2), BumpSet(0)]
                                        + ([ReadVersion(6, [])] + ([Lookup(6)] + [])));
      |end.answers| == 2 && end.answers[1] == Answer(3, 2)
  {
    hide Step, Overtaken, ThirdBumped;
    ThirdBumpLands();
    FirstBumpLandsLast();
    RunFour(Overtaken(), Commit(2), BumpRead(2), BumpSet(2), BumpSet(0), [ReadVersion(6, [])] + ([Lookup(6)] + []));
    var s4 := Step(ThirdBumped(), BumpSet(0));
    RunOn(s4, ReadVersion(6, []), [Lookup(6)] + []);
    RunOn(Step(s4, ReadVersion(6, [])), Lookup(6), []);
  }

  // ---- The service ------------------------------------------------------------------------

  datatype ListKey = ListKey(namespace: nat, version: nat, query: Key)

  /** Cached values are opaque; `Payload` stands for whatever a listing or a detail holds. */
  type Payload = nat

  class CacheService {
    var versions: map<nat, nat>
    var lists: map<ListKey, Payload>
    var details: map<(nat, nat), Payload>
    var published: seq<nat>

    /** No listing is stored under a version that has not come up. */
    ghost predicate Valid()
      reads this
    {
      forall k :: k in lists ==> k.namespace in versions && k.version <= versions[k.namespace]
    }

    constructor ()
      ensures Valid() && versions == map[] && lists == map[] && details == map[] && published == []
    {
      versions, lists, details, published := map[], map[], map[], [];
    }

    method Version(namespace: nat) returns (v: nat)
      requires Valid()
      modifies this`versions
      ensures Valid() && versions == old(versions)[namespace := v]
      ensures v == if namespace in old(versions) then old(versions)[namespace] else 1
    {
      if namespace in versions { return versions[namespace]; }
      versions := versions[namespace := 1];
      v := 1;
    }

    method KeyFor(namespace: nat, query: Query) returns (key: ListKey)
      requires Valid() && DistinctKeys(query)
      modifies this`versions
      ensures Valid() && namespace in versions
      ensures key == ListKey(namespace, versions[namespace], Canonical(query))
      ensures namespace in old(versions) ==> versions == old(versions)
    {
      var version := Version(namespace);
      key := ListKey(namespace, version, Canonical(query));
    }

    /** Answers from the cache, or stores and answers what the database has now. */
    method Wrap(key: ListKey, produced: Payload) returns (answer: Payload)
      requires Valid() && key.namespace in versions && key.version <= versions[key.namespace]
      modifies this`lists
      ensures Valid() && key in lists && lists[key] == answer
      ensures answer == if key in old(lists) then old(lists)[key] else produced
      ensures forall k :: k != key ==> (k in lists <==> k in old(lists)) && (k in lists ==> lists[k] == old(lists)[k])
    {
      if key in lists { return lists[key]; }
      lists := lists[key := produced];
      answer := produced;
    }

    method InvalidateDetail(namespace: nat, id: nat)
      modifies this`details
      ensures details == old(details) - {(namespace, id)}
    {
      details := details - {(namespace, id)};
    }

    /** Every listing of the namespace becomes unreachable in one write; the others stay. */
    method InvalidateLists(namespace: nat)
      requires Valid()
      modifies this`versions, this`published
      ensures Valid() && namespace in versions && published == old(published) + [namespace]
      ensures versions[namespace] == if namespace in old(versions) then old(versions)[namespace] + 1 else 2
      ensures forall query :: ListKey(namespace, versions[namespace], query) !in lists
      ensures forall n :: n != namespace ==> (n in versions <==> n in old(versions))
                                             && (n in versions ==> versions[n] == old(versions)[n])
    {
      var version := Version(namespace);
      versions := versions[namespace := version + 1];
      published := published + [namespace];
    }

    method InvalidateResource(namespace: nat, id: Option<nat>)
      requires Valid()
      modifies this
      ensures Valid() && namespace in versions && lists == old(lists)
      ensures id.Some? ==> (namespace, id.value) !in details
      ensures forall query :: ListKey(namespace, versions[namespace], query) !in lists
    {
      if id.Some? { InvalidateDetail(namespace, id.value); }
      InvalidateLists(namespace);
    }
  }
}
