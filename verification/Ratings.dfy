/**
 A provider's stored rating, recomputed after a review is created, re-rated, hidden or
 restored. Two routines recompute it, one in the reviews service and one in the admin
 service; calls are serial here, except in the last section.
 */
module Ratings {
  import opened Common
  import opened ReviewEdits

  predicate Counts(r: Review, provider: nat) {
    r.provider == provider && !r.hidden
  }

  function Count(rows: seq<Review>, provider: nat): nat {
    if rows == [] then 0
    else Count(rows[..|rows| - 1], provider) + if Counts(rows[|rows| - 1], provider) then 1 else 0
  }

  function Sum(rows: seq<Review>, provider: nat): int {
    if rows == [] then 0
    else
      var last := rows[|rows| - 1];
      Sum(rows[..|rows| - 1], provider) + if Counts(last, provider) then last.content.rating else 0
  }

  lemma {:induction false} CountIsCardinality(rows: seq<Review>, provider: nat)
    ensures Count(rows, provider) == |set i | 0 <= i < |rows| && Counts(rows[i], provider)|
  {
    var hits := set i | 0 <= i < |rows| && Counts(rows[i], provider);
    if rows == [] {
      assert hits == {};
    } else {
      var front := rows[..|rows| - 1];
      CountIsCardinality(front, provider);
      var before := set i | 0 <= i < |front| && Counts(front[i], provider);
      assert hits == before + if Counts(rows[|front|], provider) then {|front|} else {};
    }
  }

  /** A review of another provider moves nothing. */
  lemma {:induction false} OthersUntouched(rows: seq<Review>, i: nat, r: Review, provider: nat)
    requires i < |rows| && rows[i].provider == r.provider != provider
    ensures Count(rows[i := r], provider) == Count(rows, provider)
    ensures Sum(rows[i := r], provider) == Sum(rows, provider)
  {
    var n := |rows| - 1;
    if i < n {
      OthersUntouched(rows[..n], i, r, provider);
      assert rows[i := r][..n] == rows[..n][i := r];
    } else {
      assert rows[i := r][..n] == rows[..n];
    }
  }

  lemma OthersUntouchedByNew(rows: seq<Review>, r: Review, provider: nat)
    requires r.provider != provider
    ensures Count(rows + [r], provider) == Count(rows, provider)
    ensures Sum(rows + [r], provider) == Sum(rows, provider)
  {
    assert (rows + [r])[..|rows|] == rows;
  }

  /** A change that keeps rating, owner and visibility keeps the aggregates. */
  lemma {:induction false} SameScoreUntouched(rows: seq<Review>, i: nat, r: Review, provider: nat)
    requires i < |rows| && rows[i].provider == r.provider
    requires rows[i].hidden == r.hidden && rows[i].content.rating == r.content.rating
    ensures Count(rows[i := r], provider) == Count(rows, provider)
    ensures Sum(rows[i := r], provider) == Sum(rows, provider)
  {
    var n := |rows| - 1;
    if i < n {
      SameScoreUntouched(rows[..n], i, r, provider);
      assert rows[i := r][..n] == rows[..n][i := r];
    } else {
      assert rows[i := r][..n] == rows[..n];
    }
  }

  /** The mean in hundredths, to the nearest, as the column rounds it: ties away from zero. */
  function Rounded(sum: int, count: nat): int {
    if count == 0 then 0 else (200 * sum + count) / (2 * count)
  }

  /** The mean formatted to two digits from a binary fraction, which may fall on either side of a tie. */
  function Formatted(sum: int, count: nat, tieUp: bool): int {
    if count == 0 then 0
    else
      var doubled := 200 * sum;
      var whole, rest := doubled / (2 * count), doubled % (2 * count);
      if rest > count || (rest == count && tieUp) then whole + 1 else whole
  }

  /** `h` hundredths lies within half a hundredth of `sum / count`. */
  predicate Nearest(h: int, sum: int, count: nat) {
    if count == 0 then h == 0 else 0 - count <= 2 * (100 * sum - h * count) <= count
  }

  lemma FormattedIsNearest(sum: int, count: nat, tieUp: bool)
    ensures Nearest(Formatted(sum, count, tieUp), sum, count)
  {
    if count > 0 {
      var doubled := 200 * sum;
      var q, m := doubled / (2 * count), doubled % (2 * count);
      assert doubled == q * (2 * count) + m;
      assert q * (2 * count) == 2 * (q * count);
      assert (q + 1) * count == q * count + count;
    }
  }

  lemma RoundedIsFormattedUp(sum: int, count: nat)
    ensures Rounded(sum, count) == Formatted(sum, count, true)
  {
    if count > 0 {
      var q, m := (200 * sum) / (2 * count), (200 * sum) % (2 * count);
      assert 200 * sum == q * (2 * count) + m;
      var up := if m >= count then q + 1 else q;
      assert (q + 1) * (2 * count) == q * (2 * count) + 2 * count;
      QuotientIs(200 * sum + count, 2 * count, up);
    }
  }

  lemma QuotientIs(n: int, d: nat, q: int)
    requires d > 0 && q * d <= n < q * d + d
    ensures n / d == q
  {
    var r := n / d;
    assert n == r * d + n % d;
    if r < q { TimesMonotone(r + 1, q, d); }
    if r > q { TimesMonotone(q + 1, r, d); }
  }

  lemma {:induction false} SumBounds(rows: seq<Review>, provider: nat)
    requires forall r :: r in rows ==> 1 <= r.content.rating <= 5
    ensures Count(rows, provider) <= Sum(rows, provider) <= 5 * Count(rows, provider)
  {
    if rows != [] {
      SumBounds(rows[..|rows| - 1], provider);
      assert rows[|rows| - 1] in rows;
    }
  }

  lemma {:induction false} NearestStaysOnTheScale(h: int, sum: int, count: nat)
    requires Nearest(h, sum, count) && count <= sum <= 5 * count
    ensures 0 <= h <= 500
  {
    if count > 0 {
      if h < 0 {
        TimesMonotone(h, -1, count);
      } else if h > 500 {
        TimesMonotone(501, h, count);
      }
    }
  }

  lemma TimesMonotone(a: int, b: int, n: nat)
    requires a <= b
    ensures a * n <= b * n
  {
    assert (b - a) * n >= 0;
  }

  datatype Rating = Rating(hundredths: int, count: nat)

  function Aggregate(rows: seq<Review>, provider: nat, tieUp: bool): Rating {
    Rating(Formatted(Sum(rows, provider), Count(rows, provider), tieUp), Count(rows, provider))
  }

  /** The stored rating tells the truth about the visible reviews, on the 0 to 5 scale. */
  ghost predicate Honest(r: Rating, rows: seq<Review>, provider: nat) {
    && r.count == Count(rows, provider)
    && Nearest(r.hundredths, Sum(rows, provider), Count(rows, provider))
    && 0 <= r.hundredths <= 500
  }

  lemma AggregateIsHonest(rows: seq<Review>, provider: nat, tieUp: bool)
    requires forall r :: r in rows ==> 1 <= r.content.rating <= 5
    ensures Honest(Aggregate(rows, provider, tieUp), rows, provider)
  {
    var sum, count := Sum(rows, provider), Count(rows, provider);
    FormattedIsNearest(sum, count, tieUp);
    SumBounds(rows, provider);
    NearestStaysOnTheScale(Formatted(sum, count, tieUp), sum, count);
  }

  datatype Booking = Booking(customer: nat, provider: nat, completed: bool)

  datatype CreateError = BookingNotFound | NotBookingCustomer | BookingNotCompleted | ReviewAlreadyExists

  datatype VisibilityError = NoSuchReview | VisibilityUnchanged

  /** A hidden review is shown to its author, its provider and administrators. */
  predicate Shown(user: User, row: Review) {
    !row.hidden || user.admin || row.author == user.id || user.provider == Some(row.provider)
  }

  /** Every field that is given is what the review says already. */
  predicate SaysNothingNew(dto: Dto, c: Content) {
    && (dto.rating.Some? ==> dto.rating.value == c.rating)
    && (dto.punctuality.Some? ==> dto.punctuality.value == c.punctuality)
    && (dto.quality.Some? ==> dto.quality.value == c.quality)
    && (dto.value.Some? ==> dto.value.value == c.value)
    && (dto.comment.Some? ==> dto.comment.value == c.comment)
  }

  /** The text after an edit: given fields from the edit, the others as they were. */
  predicate Edited(dto: Dto, before: Content, after: Content) {
    && after.rating == (if dto.rating.Some? then dto.rating.value else before.rating)
    && after.punctuality == (if dto.punctuality.Some? then dto.punctuality.value else before.punctuality)
    && after.quality == (if dto.quality.Some? then dto.quality.value else before.quality)
    && after.value == (if dto.value.Some? then dto.value.value else before.value)
    && after.comment == (if dto.comment.Some? then dto.comment.value else before.comment)
  }

  /** What an edit would give lies on the scales. */
  predicate OnScale(dto: Dto) {
    && (dto.rating.Some? ==> 1 <= dto.rating.value <= 5)
    && (dto.punctuality.Some? && dto.punctuality.value.Some? ==> 1 <= dto.punctuality.value.value <= 5)
    && (dto.quality.Some? && dto.quality.value.Some? ==> 1 <= dto.quality.value.value <= 5)
    && (dto.value.Some? && dto.value.value.Some? ==> 1 <= dto.value.value.value <= 5)
  }

  /** The service and then the database, on a row nobody else is writing. */
  function Patched(user: User, row: Review, dto: Dto, now: nat): Result<Review, Error> {
    var plan := ReadPhase(user, row, dto, now);
    if plan.Err? then Err(plan.error) else WritePhase(user, row, plan.value)
  }

  /** A reply is the provider's, or an administrator's; a provider who wrote the review cannot change it. */
  lemma ReplyAnswers(user: User, row: Review, dto: Dto, now: nat)
    requires dto.response.Some? && RatingsInRange(row.content)
    ensures var r, provider := Patched(user, row, dto, now), user.provider == Some(row.provider);
      && (r == Err(ReviewNotFound) <==> !Shown(user, row))
      && (r == Err(NotReviewProvider) <==> Shown(user, row) && !provider && !user.admin)
      && (r == Err(RefusedByTrigger) <==>
            provider && !user.admin && row.author == user.id && dto.response != row.response)
      && (r.Ok? <==> user.admin || (provider && (user.id != row.author || dto.response == row.response)))
      && (r.Ok? ==> r.value == row.(response := dto.response, respondedAt := Some(now)))
  {
  }

  /** An edit is the author's, or an administrator's, has to say something new and to stay on the scales. */
  lemma EditAnswers(user: User, row: Review, dto: Dto, now: nat)
    requires dto.response.None? && RatingsInRange(row.content)
    ensures var r, mine := Patched(user, row, dto, now), row.author == user.id || user.admin;
      && (r == Err(ReviewNotFound) <==> !Shown(user, row))
      && (r == Err(NotReviewAuthor) <==> Shown(user, row) && !mine)
      && (r == Err(NoChanges) <==> mine && SaysNothingNew(dto, row.content))
      && (r == Err(RatingOutOfRange) <==> mine && !SaysNothingNew(dto, row.content) && !OnScale(dto))
      && (r.Ok? <==> mine && !SaysNothingNew(dto, row.content) && OnScale(dto))
      && (r.Ok? ==>
            && Edited(dto, row.content, r.value.content)
            && r.value == row.(content := r.value.content, history := row.history + [Snapshot(row.content, now)]))
  {
  }

  class ReviewsService {
    var bookings: map<nat, Booking>
    var rows: seq<Review>
    var ratings: map<nat, Rating>

    ghost predicate Valid()
      reads this
    {
      && (forall b :: b in bookings ==> bookings[b].provider in ratings)
      && (forall r :: r in rows ==> r.provider in ratings && RatingsInRange(r.content))
      && (forall i, j :: 0 <= i < j < |rows| ==> rows[i].booking != rows[j].booking)
      && (forall p :: p in ratings ==> Honest(ratings[p], rows, p))
    }

    constructor (bookings: map<nat, Booking>, providers: set<nat>)
      requires forall b :: b in bookings ==> bookings[b].provider in providers
      ensures Valid() && this.bookings == bookings && rows == [] && ratings.Keys == providers
    {
      this.bookings := bookings;
      rows := [];
      ratings := map p | p in providers :: Rating(0, 0);
    }

    /**
     The reviews service's aggregate: the mean of the visible ratings, formatted to two digits,
     and how many ratings there are.
     */
    method RecomputeRating(provider: nat, tieUp: bool)
      requires provider in ratings && forall r :: r in rows ==> RatingsInRange(r.content)
      modifies this`ratings
      ensures ratings.Keys == old(ratings).Keys && Honest(ratings[provider], rows, provider)
      ensures forall p :: p in ratings && p != provider ==> ratings[p] == old(ratings)[p]
    {
      var sum, count := 0, 0;
      for i := 0 to |rows|
        invariant sum == Sum(rows[..i], provider) && count == Count(rows[..i], provider)
      {
        assert rows[..i + 1][..i] == rows[..i];
        if rows[i].provider == provider && !rows[i].hidden {
          sum, count := sum + rows[i].content.rating, count + 1;
        }
      }
      assert rows[..|rows|] == rows;
      AggregateIsHonest(rows, provider, tieUp);
      ratings := ratings[provider := Rating(Formatted(sum, count, tieUp), count)];
    }

    /**
     The admin service's own copy: the mean as it is, which the column rounds, and how many
     rows there are.
     */
    method RecomputeProviderRating(provider: nat)
      requires provider in ratings && forall r :: r in rows ==> RatingsInRange(r.content)
      modifies this`ratings
      ensures ratings.Keys == old(ratings).Keys && Honest(ratings[provider], rows, provider)
      ensures forall p :: p in ratings && p != provider ==> ratings[p] == old(ratings)[p]
    {
      var total, all := 0, 0;
      for i := 0 to |rows|
        invariant total == Sum(rows[..i], provider) && all == Count(rows[..i], provider)
      {
        assert rows[..i + 1][..i] == rows[..i];
        if !rows[i].hidden && rows[i].provider == provider {
          all := all + 1;
          total := total + rows[i].content.rating;
        }
      }
      assert rows[..|rows|] == rows;
      RoundedIsFormattedUp(total, all);
      AggregateIsHonest(rows, provider, true);
      ratings := ratings[provider := Rating(Rounded(total, all), all)];
    }

    method Create(user: User, booking: nat, content: Content, tieUp: bool)
      returns (r: Result<Review, CreateError>)
      requires Valid() && RatingsInRange(content)
      modifies this
      ensures Valid() && bookings == old(bookings)
      ensures r.Ok? <==>
                && booking in bookings && bookings[booking].customer == user.id
                && bookings[booking].completed
                && forall x :: x in old(rows) ==> x.booking != booking
      ensures r.Ok? ==>
                && r.value == Review(booking, user.id, bookings[booking].provider, content, [], None, None, false)
                && rows == old(rows) + [r.value]
      ensures r == Err(BookingNotFound) <==>
                || booking !in bookings
                || (bookings[booking].customer != user.id && !user.admin && user.provider != Some(bookings[booking].provider))
      ensures r == Err(BookingNotCompleted) <==>
                booking in bookings && bookings[booking].customer == user.id && !bookings[booking].completed
      ensures r == Err(ReviewAlreadyExists) <==>
                && booking in bookings && bookings[booking].customer == user.id && bookings[booking].completed
                && exists x :: x in old(rows) && x.booking == booking
      ensures r.Err? ==> rows == old(rows) && ratings == old(ratings)
      ensures forall p :: p in old(ratings) && (r.Err? || p != r.value.provider) ==>
                p in ratings && ratings[p] == old(ratings)[p]
    {
      hide Count, Sum, Nearest, Aggregate;
      if booking !in bookings || (bookings[booking].customer != user.id && !user.admin
                                  && user.provider != Some(bookings[booking].provider)) {
        return Err(BookingNotFound);
      }
      if bookings[booking].customer != user.id { return Err(NotBookingCustomer); }
      if !bookings[booking].completed { return Err(BookingNotCompleted); }
      if exists x :: x in rows && x.booking == booking { return Err(ReviewAlreadyExists); }
      var provider := bookings[booking].provider;
      var review := Review(booking, user.id, provider, content, [], None, None, false);
      ghost var before := rows;
      rows := rows + [review];
      RecomputeRating(provider, tieUp);
      forall p | p in ratings && p != provider ensures Honest(ratings[p], rows, p) {
        OthersUntouchedByNew(before, review, p);
      }
      r := Ok(review);
    }

    /** A PATCH that runs alone. */
    method Update(user: User, id: nat, dto: Dto, now: nat, tieUp: bool) returns (r: Result<Review, Error>)
      requires Valid()
      modifies this
      ensures Valid() && bookings == old(bookings)
      ensures r.Err? ==> rows == old(rows) && ratings == old(ratings)
      ensures r.Ok? ==> id < |old(rows)| && rows == old(rows)[id := r.value]
      ensures r.Ok? && dto.response.None? ==>
                && (user.id == old(rows)[id].author || user.admin)
                && r.value.content == Overwrite(dto, old(rows)[id].content) != old(rows)[id].content
                && r.value.history == old(rows)[id].history + [Snapshot(old(rows)[id].content, now)]
                && r.value.response == old(rows)[id].response
      ensures r.Ok? && dto.response.Some? ==>
                r.value == old(rows)[id].(response := dto.response, respondedAt := Some(now))
      ensures (id < |old(rows)| && (user.id == old(rows)[id].author || user.admin) && dto.response.None?
               && Overwrite(dto, old(rows)[id].content) != old(rows)[id].content
               && RatingsInRange(Overwrite(dto, old(rows)[id].content))) ==> r.Ok?
      ensures r.Err? && r.error == RefusedByTrigger ==>
                dto.response.Some? && !user.admin && id < |rows| && user.id == rows[id].author
      ensures r == Err(ReviewNotFound) <==> id >= |old(rows)| || !Shown(user, old(rows)[id])
      ensures id < |old(rows)| && dto.response.Some? ==>
                && var row := old(rows)[id];
                && var provider := user.provider == Some(row.provider);
                && (r == Err(NotReviewProvider) <==> Shown(user, row) && !provider && !user.admin)
                && (r == Err(RefusedByTrigger) <==>
                      provider && !user.admin && row.author == user.id && dto.response != row.response)
                && (r.Ok? <==> user.admin || (provider && (user.id != row.author || dto.response == row.response)))
      ensures id < |old(rows)| && dto.response.None? ==>
                && var row := old(rows)[id];
                && var mine := row.author == user.id || user.admin;
                && (r == Err(NotReviewAuthor) <==> Shown(user, row) && !mine)
                && (r == Err(NoChanges) <==> mine && SaysNothingNew(dto, row.content))
                && (r == Err(RatingOutOfRange) <==> mine && !SaysNothingNew(dto, row.content) && !OnScale(dto))
                && (r.Ok? <==> mine && !SaysNothingNew(dto, row.content) && OnScale(dto))
                && (r.Ok? ==>
                      && Edited(dto, row.content, r.value.content)
                      && r.value == row.(content := r.value.content, history := row.history + [Snapshot(row.content, now)]))
    {
      hide Count, Sum, Nearest, Aggregate;
      if id < |rows| {
        assert rows[id] in rows;
        if dto.response.Some? { ReplyAnswers(user, rows[id], dto, now); } else { EditAnswers(user, rows[id], dto, now); }
      }
      if id >= |rows| { return Err(ReviewNotFound); }
      var plan := ReadPhase(user, rows[id], dto, now);
      if plan.Err? { return Err(plan.error); }
      r := WritePhase(user, rows[id], plan.value);
      if r.Err? { return; }
      ghost var before := rows;
      assert before[id] in before;
      rows := rows[id := r.value];
      if plan.value.Rewrite? && dto.rating.Some? {
        RecomputeRating(r.value.provider, tieUp);
        forall p | p in ratings && p != r.value.provider ensures Honest(ratings[p], rows, p) {
          OthersUntouched(before, id, r.value, p);
        }
      } else {
        forall p | p in ratings ensures Honest(ratings[p], rows, p) {
          SameScoreUntouched(before, id, r.value, p);
        }
      }
    }

    method SetReviewVisibility(id: nat, hidden: bool) returns (r: Result<Review, VisibilityError>)
      requires Valid()
      modifies this
      ensures Valid() && bookings == old(bookings)
      ensures r.Ok? <==> id < |old(rows)| && old(rows)[id].hidden != hidden
      ensures r == Err(NoSuchReview) <==> id >= |old(rows)|
      ensures r.Ok? ==> rows == old(rows)[id := r.value] && r.value == old(rows)[id].(hidden := hidden)
      ensures r.Err? ==> rows == old(rows) && ratings == old(ratings)
    {
      if id >= |rows| { return Err(NoSuchReview); }
      if rows[id].hidden == hidden { return Err(VisibilityUnchanged); }
      ghost var before := rows;
      assert before[id] in before;
      var updated := rows[id].(hidden := hidden);
      rows := rows[id := updated];
      RecomputeProviderRating(updated.provider);
      forall p | p in ratings && p != updated.provider ensures Honest(ratings[p], rows, p) {
        OthersUntouched(before, id, updated, p);
      }
      r := Ok(updated);
    }
  }
}
