/**
 One provider's stored rating while reviews are created, re-rated, hidden and restored by
 transactions that overlap. Each writes its review row, aggregates over what is committed and
 its own row, and later writes the provider row and commits. A review row that a transaction
 has written stays locked until it commits.
 */
module RatingRaces {
  import opened Common
  import opened ReviewEdits
  import opened Ratings

  datatype Change =
    | Add(review: Review)
    | Rerate(id: nat, rating: int)
    | SetVisibility(id: nat, conceal: bool)

  /** A net change to the visible reviews: how many, and the sum of their ratings. */
  datatype Drift = Drift(count: int, sum: int)

  /**
   A transaction between its aggregate query and its commit: what the query counted, the rating
   it is going to store, and the changes that others have committed since.
   */
  datatype Underway = Underway(change: Change, count: nat, sum: int, rating: Rating, drift: Drift)

  datatype Table = Table(rows: seq<Review>, stored: Rating, underway: map<nat, Underway>)

  datatype Event =
    | Query(tx: nat, change: Change, tieUp: bool)
    | Commit(tx: nat)

  function Apply(rows: seq<Review>, c: Change): seq<Review> {
    match c
    case Add(review) => rows + [review]
    case Rerate(id, rating) =>
      if id >= |rows| then rows else rows[id := rows[id].(content := rows[id].content.(rating := rating))]
    case SetVisibility(id, conceal) =>
      if id >= |rows| then rows else rows[id := rows[id].(hidden := conceal)]
  }

  function Weight(r: Review, provider: nat): Drift {
    if Counts(r, provider) then Drift(1, r.content.rating) else Drift(0, 0)
  }

  /** What a change does to the visible reviews of the provider. */
  function Effect(rows: seq<Review>, c: Change, provider: nat): Drift {
    match c
    case Add(review) => Weight(review, provider)
    case Rerate(id, rating) =>
      if id < |rows| && Counts(rows[id], provider) then Drift(0, rating - rows[id].content.rating) else Drift(0, 0)
    case SetVisibility(id, conceal) =>
      if id >= |rows| || rows[id].provider != provider || rows[id].hidden == conceal then Drift(0, 0)
      else if conceal then Drift(-1, 0 - rows[id].content.rating)
      else Drift(1, rows[id].content.rating)
  }

  /** Two changes that cannot be underway at once, because one has locked the other's row. */
  predicate Blocked(a: Change, b: Change) {
    !a.Add? && !b.Add? && a.id == b.id
  }

  predicate Possible(s: Table, tx: nat, c: Change, provider: nat) {
    && tx !in s.underway
    && (forall t :: t in s.underway ==> !Blocked(s.underway[t].change, c))
    && match c
      case Add(review) => review.provider == provider && 1 <= review.content.rating <= 5
      case Rerate(id, rating) => id < |s.rows| && 1 <= rating <= 5
      case SetVisibility(id, _) => id < |s.rows|
  }

  function Queried(s: Table, c: Change, tieUp: bool, provider: nat): Underway {
    var seen := Apply(s.rows, c);
    var count, sum := Count(seen, provider), Sum(seen, provider);
    Underway(c, count, sum, Rating(Formatted(sum, count, tieUp), count), Drift(0, 0))
  }

  function Drifted(u: Underway, other: Drift): Underway {
    u.(drift := Drift(u.drift.count + other.count, u.drift.sum + other.sum))
  }

  function Committed(s: Table, tx: nat, provider: nat): Table
    requires tx in s.underway
  {
    var u := s.underway[tx];
    var effect := Effect(s.rows, u.change, provider);
    Table(Apply(s.rows, u.change), u.rating,
           map t | t in s.underway && t != tx :: Drifted(s.underway[t], effect))
  }

  function Step(s: Table, e: Event, provider: nat): Table {
    match e
    case Query(tx, c, tieUp) =>
      if Possible(s, tx, c, provider) then s.(underway := s.underway[tx := Queried(s, c, tieUp, provider)]) else s
    case Commit(tx) => if tx in s.underway then Committed(s, tx, provider) else s
  }

  function Run(s: Table, events: seq<Event>, provider: nat): Table
    decreases |events|
  {
    if events == [] then s else Run(Step(s, events[0], provider), events[1..], provider)
  }

  // ---- Changes and their effect ---------------------------------------------------------------

  lemma {:induction false} ReplacingMovesBy(rows: seq<Review>, id: nat, r: Review, provider: nat)
    requires id < |rows|
    ensures Count(rows[id := r], provider) == Count(rows, provider) + Weight(r, provider).count - Weight(rows[id], provider).count
    ensures Sum(rows[id := r], provider) == Sum(rows, provider) + Weight(r, provider).sum - Weight(rows[id], provider).sum
  {
    var n := |rows| - 1;
    if id < n {
      ReplacingMovesBy(rows[..n], id, r, provider);
      assert rows[id := r][..n] == rows[..n][id := r];
    } else {
      assert rows[id := r][..n] == rows[..n];
    }
  }

  lemma EffectIsDifference(rows: seq<Review>, c: Change, provider: nat)
    ensures Count(Apply(rows, c), provider) == Count(rows, provider) + Effect(rows, c, provider).count
    ensures Sum(Apply(rows, c), provider) == Sum(rows, provider) + Effect(rows, c, provider).sum
  {
    match c
    case Add(review) => assert (rows + [review])[..|rows|] == rows;
    case Rerate(id, rating) =>
      if id < |rows| { ReplacingMovesBy(rows, id, rows[id].(content := rows[id].content.(rating := rating)), provider); }
    case SetVisibility(id, conceal) =>
      if id < |rows| { ReplacingMovesBy(rows, id, rows[id].(hidden := conceal), provider); }
  }

  /** A change to another row leaves the effect of this one. */
  lemma EffectsAreApart(rows: seq<Review>, done: Change, c: Change, provider: nat)
    requires !Blocked(done, c) && (c.Add? || c.id < |rows|)
    ensures Effect(Apply(rows, done), c, provider) == Effect(rows, c, provider)
  {
  }

  // ---- What every run keeps ---------------------------------------------------------------------

  /** What the query counted, corrected by what others committed since, is what a query now would count. */
  predicate Tracks(rows: seq<Review>, u: Underway, provider: nat) {
    && (u.change.Add? || u.change.id < |rows|)
    && u.rating.count == u.count && Nearest(u.rating.hundredths, u.sum, u.count)
    && u.count + u.drift.count == Count(rows, provider) + Effect(rows, u.change, provider).count
    && u.sum + u.drift.sum == Sum(rows, provider) + Effect(rows, u.change, provider).sum
  }

  ghost predicate Inv(s: Table, provider: nat) {
    && (forall t :: t in s.underway ==> Tracks(s.rows, s.underway[t], provider))
    && (forall t, v :: t in s.underway && v in s.underway && t != v ==>
          !Blocked(s.underway[t].change, s.underway[v].change))
  }

  lemma QueryTracks(s: Table, tx: nat, c: Change, tieUp: bool, provider: nat)
    requires Possible(s, tx, c, provider)
    ensures Tracks(s.rows, Queried(s, c, tieUp, provider), provider)
  {
    var seen := Apply(s.rows, c);
    EffectIsDifference(s.rows, c, provider);
    FormattedIsNearest(Sum(seen, provider), Count(seen, provider), tieUp);
    hide Formatted, Nearest, Count, Sum, Effect, Apply;
  }

  lemma OthersTrack(rows: seq<Review>, done: Change, u: Underway, provider: nat)
    requires Tracks(rows, u, provider) && !Blocked(done, u.change)
    ensures Tracks(Apply(rows, done), Drifted(u, Effect(rows, done, provider)), provider)
  {
    EffectIsDifference(rows, done, provider);
    EffectsAreApart(rows, done, u.change, provider);
    assert |Apply(rows, done)| >= |rows|;
    hide Nearest, Count, Sum, Effect, Apply, Blocked;
  }

  lemma StepKeepsInv(s: Table, e: Event, provider: nat)
    requires Inv(s, provider)
    ensures Inv(Step(s, e, provider), provider)
  {
    hide Tracks, Queried, Effect, Apply;
    match e
    case Query(tx, c, tieUp) =>
      if Possible(s, tx, c, provider) {
        QueryTracks(s, tx, c, tieUp, provider);
        assert Queried(s, c, tieUp, provider).change == c by { QueriesChange(s, c, tieUp, provider); }
      }
    case Commit(tx) =>
      if tx in s.underway {
        var s' := Committed(s, tx, provider);
        forall t | t in s'.underway ensures Tracks(s'.rows, s'.underway[t], provider) {
          OthersTrack(s.rows, s.underway[tx].change, s.underway[t], provider);
        }
      }
  }

  lemma QueriesChange(s: Table, c: Change, tieUp: bool, provider: nat)
    ensures Queried(s, c, tieUp, provider).change == c
  {
  }

  // ---- When the stored rating is right ------------------------------------------------------------

  predicate CountRight(s: Table, provider: nat) {
    s.stored.count == Count(s.rows, provider)
  }

  /** The stored average is within half a hundredth of the mean of the visible reviews. */
  predicate AverageRight(s: Table, provider: nat) {
    Nearest(s.stored.hundredths, Sum(s.rows, provider), Count(s.rows, provider))
  }

  /** The changes committed since the query do not cancel out in number. */
  predicate MissesSome(s: Table, e: Event) {
    e.Commit? && e.tx in s.underway && s.underway[e.tx].drift.count != 0
  }

  /** The average about to be stored is off once the changes committed since the query are counted in. */
  predicate MissesTheMean(s: Table, e: Event) {
    && e.Commit? && e.tx in s.underway
    && var u := s.underway[e.tx];
    u.count + u.drift.count >= 0 && !Nearest(u.rating.hundredths, u.sum + u.drift.sum, u.count + u.drift.count)
  }

  /** The number of reviews is right at every moment. */
  ghost predicate CountStaysRight(s: Table, events: seq<Event>, provider: nat)
    decreases |events|
  {
    CountRight(s, provider) && (events == [] || CountStaysRight(Step(s, events[0], provider), events[1..], provider))
  }

  ghost predicate AverageStaysRight(s: Table, events: seq<Event>, provider: nat)
    decreases |events|
  {
    AverageRight(s, provider) && (events == [] || AverageStaysRight(Step(s, events[0], provider), events[1..], provider))
  }

  predicate NeverMissesSome(s: Table, events: seq<Event>, provider: nat)
    decreases |events|
  {
    events == [] || (!MissesSome(s, events[0]) && NeverMissesSome(Step(s, events[0], provider), events[1..], provider))
  }

  predicate NeverMissesTheMean(s: Table, events: seq<Event>, provider: nat)
    decreases |events|
  {
    events == [] || (!MissesTheMean(s, events[0]) && NeverMissesTheMean(Step(s, events[0], provider), events[1..], provider))
  }

  /** After a commit the visible reviews are what the query counted and the drift since. */
  lemma CommitCounts(s: Table, tx: nat, provider: nat)
    requires Inv(s, provider) && tx in s.underway
    ensures var s', u := Committed(s, tx, provider), s.underway[tx];
      && Count(s'.rows, provider) == u.count + u.drift.count && Sum(s'.rows, provider) == u.sum + u.drift.sum
      && s'.stored == u.rating && u.rating.count == u.count
  {
    assert Tracks(s.rows, s.underway[tx], provider);
    EffectIsDifference(s.rows, s.underway[tx].change, provider);
    hide Count, Sum, Effect, Apply;
  }

  lemma StepIsRightIff(s: Table, e: Event, provider: nat)
    requires Inv(s, provider)
    ensures CountRight(s, provider) ==> (CountRight(Step(s, e, provider), provider) <==> !MissesSome(s, e))
    ensures AverageRight(s, provider) ==> (AverageRight(Step(s, e, provider), provider) <==> !MissesTheMean(s, e))
  {
    hide Count, Sum, Nearest, Inv, Committed, Queried;
    if e.Commit? && e.tx in s.underway { CommitCounts(s, e.tx, provider); }
  }

  lemma {:induction false} CountIsRightIff(s: Table, events: seq<Event>, provider: nat)
    requires Inv(s, provider) && CountRight(s, provider)
    ensures CountStaysRight(s, events, provider) <==> NeverMissesSome(s, events, provider)
    decreases |events|
  {
    hide Inv, CountRight, AverageRight, MissesSome, MissesTheMean, Step;
    if events != [] {
      StepKeepsInv(s, events[0], provider);
      StepIsRightIff(s, events[0], provider);
      if !MissesSome(s, events[0]) { CountIsRightIff(Step(s, events[0], provider), events[1..], provider); }
    }
  }

  lemma {:induction false} AverageIsRightIff(s: Table, events: seq<Event>, provider: nat)
    requires Inv(s, provider) && AverageRight(s, provider)
    ensures AverageStaysRight(s, events, provider) <==> NeverMissesTheMean(s, events, provider)
    decreases |events|
  {
    hide Inv, CountRight, AverageRight, MissesSome, MissesTheMean, Step;
    if events != [] {
      StepKeepsInv(s, events[0], provider);
      StepIsRightIff(s, events[0], provider);
      if !MissesTheMean(s, events[0]) { AverageIsRightIff(Step(s, events[0], provider), events[1..], provider); }
    }
  }

  function Fresh(rows: seq<Review>, provider: nat, tieUp: bool): Table {
    Table(rows, Aggregate(rows, provider, tieUp), map[])
  }

  /**
   However transactions overlap, the stored number of reviews is right at every moment if and
   only if none commits whose query missed changes that do not cancel out in number; and the
   stored average is right at every moment if and only if none commits an average that those
   changes have put off the mean.
   */
  lemma RatingStaysRightIff(rows: seq<Review>, provider: nat, tieUp: bool, events: seq<Event>)
    ensures var s := Fresh(rows, provider, tieUp);
      && (CountStaysRight(s, events, provider) <==> NeverMissesSome(s, events, provider))
      && (AverageStaysRight(s, events, provider) <==> NeverMissesTheMean(s, events, provider))
  {
    FormattedIsNearest(Sum(rows, provider), Count(rows, provider), tieUp);
    hide Formatted, Count, Sum, Nearest, Step;
    CountIsRightIff(Fresh(rows, provider, tieUp), events, provider);
    AverageIsRightIff(Fresh(rows, provider, tieUp), events, provider);
  }

  /** A transaction across which nothing was committed stores the truth. */
  lemma UndisturbedIsRight(s: Table, tx: nat, provider: nat)
    requires Inv(s, provider) && tx in s.underway && s.underway[tx].drift == Drift(0, 0)
    ensures CountRight(Step(s, Commit(tx), provider), provider) && AverageRight(Step(s, Commit(tx), provider), provider)
  {
    assert Tracks(s.rows, s.underway[tx], provider);
    CommitCounts(s, tx, provider);
    hide Count, Sum, Effect, Nearest, Apply;
  }

  function Five(booking: nat): Review {
    Review(booking, booking, 7, Content(5, None, None, None, None), [], None, None, false)
  }

  function One(booking: nat): Review {
    Review(booking, booking, 7, Content(1, None, None, None, None), [], None, None, false)
  }

  function BothQueried(): Table {
    Table([], Rating(0, 0),
           map[0 := Underway(Add(Five(0)), 1, 5, Rating(500, 1), Drift(0, 0)),
               1 := Underway(Add(One(1)), 1, 1, Rating(100, 1), Drift(0, 0))])
  }

  lemma BothQuery()
    ensures Step(Step(Fresh([], 7, true), Query(0, Add(Five(0)), true), 7), Query(1, Add(One(1)), true), 7) == BothQueried()
  {
    var s := Fresh([], 7, true);
    CountOfOne(Five(0), 7);
    CountOfOne(One(1), 7);
    assert [] + [Five(0)] == [Five(0)] && [] + [One(1)] == [One(1)];
    var s1 := Step(s, Query(0, Add(Five(0)), true), 7);
    assert s1 == Table([], Rating(0, 0), map[0 := Underway(Add(Five(0)), 1, 5, Rating(500, 1), Drift(0, 0))]);
    hide Count, Sum;
  }

  lemma CountOfOne(r: Review, provider: nat)
    ensures Count([r], provider) == Weight(r, provider).count && Sum([r], provider) == Weight(r, provider).sum
  {
    assert [r][..0] == [];
  }

  /** Two customers rate at once: both reviews are in, the stored rating knows only the second. */
  lemma OverlappingCreatesMiscount()
    ensures var s := Step(Step(BothQueried(), Commit(0), 7), Commit(1), 7);
      && s.rows == [Five(0), One(1)] && s.stored == Rating(100, 1)
      && !CountRight(s, 7) && !AverageRight(s, 7)
  {
    hide Count, Sum, Drifted;
    FirstCommits();
    var s1 := Step(BothQueried(), Commit(0), 7);
    assert Step(s1, Commit(1), 7).stored == s1.underway[1].rating && Step(s1, Commit(1), 7).rows == [Five(0)] + [One(1)];
    CountOfOne(Five(0), 7);
    EffectIsDifference([Five(0)], Add(One(1)), 7);
  }

  lemma FirstCommits()
    ensures var s1 := Step(BothQueried(), Commit(0), 7);
      && s1.rows == [Five(0)] && 1 in s1.underway
      && s1.underway[1].change == Add(One(1)) && s1.underway[1].rating == Rating(100, 1)
  {
    hide Count, Sum;
    assert [] + [Five(0)] == [Five(0)];
  }
}
