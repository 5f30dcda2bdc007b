/**
 The quote calls statement by statement, over the tables they write. A call that succeeds
 leaves what `Perform` says; one that is refused leaves every table as it was.
 */
module QuotesService {
  import opened Common
  import opened Bookings
  import opened Market
  import opened MarketSerial

  /** What the accept guards settle, and the write they lead to. */
  lemma AcceptIs(t: Tables, user: User, quote: nat, booking: nat, start: int, now: int)
    requires GuardAccept(t, user, quote, booking, start, now).Ok?
    ensures var row := GuardAccept(t, user, quote, booking, start, now).value.booking;
      && quote in t.quotes && t.quotes[quote].request in t.requests && row.request == t.quotes[quote].request
      && row.quote == quote && row.status == PendingConfirmation
      && Perform(t, user, AcceptQuote(quote, booking, start), now) == WriteAccept(t, quote, booking, row)
  {
    hide WriteAccept;
  }

  lemma SavedQuote(quotes: map<nat, Quote>, id: nat, row: Quote)
    ensures SaveQuote(quotes, id, row).Ok? ==> SaveQuote(quotes, id, row).value == quotes[id := row]
  {
  }

  lemma AddedBooking(cases: map<nat, Case>, id: nat, row: Booking)
    requires SaveBooking(cases, id, row).Ok?
    ensures SaveBooking(cases, id, row).value == cases[id := Case(row, [])]
  {
  }

  // ---- Who gets through, from the rows alone ------------------------------------------------

  /** The request takes quotes from this provider: sent to nobody else, open, and not expired. */
  predicate OpenTo(t: Tables, provider: nat, request: nat, now: int) {
    && request in t.requests
    && var row := t.requests[request];
    && (row.addressee.None? || row.addressee == Some(provider))
    && (row.status == OpenForQuotes || row.status == Quoted)
    && (row.expiresAt.Some? ==> now < row.expiresAt.value)
  }

  predicate LiveQuoteOf(t: Tables, provider: nat, request: nat, other: nat) {
    exists q :: q in t.quotes && q != other && t.quotes[q].request == request && t.quotes[q].provider == provider
                && (t.quotes[q].status == Pending || t.quotes[q].status == Taken)
  }

  /** An approved, unsuspended provider with no live quote on a request that is open to them. */
  ghost predicate MaySend(t: Tables, user: User, id: nat, standing: Option<Standing>, request: nat, price: nat,
                          duration: Option<nat>, now: int) {
    && user.provider.Some? && standing.Some? && !standing.value.suspended && standing.value.approved
    && OpenTo(t, user.provider.value, request, now)
    && (forall q :: q in t.quotes && t.quotes[q].request == request && t.quotes[q].provider == user.provider.value ==>
          t.quotes[q].status != Pending && t.quotes[q].status != Taken)
    && id !in t.quotes && price > 0 && (duration.Some? ==> duration.value > 0)
  }

  /** The quote's own provider or an administrator, while it is pending. */
  ghost predicate MayRevise(t: Tables, user: User, id: nat, change: Revision) {
    && id in t.quotes && t.quotes[id].status == Pending
    && (user.admin || user.provider == Some(t.quotes[id].provider))
    && (if change.amount.Some? then change.amount.value > 0 else t.quotes[id].amount > 0)
    && (if change.duration.Some? then change.duration.value > 0
        else t.quotes[id].duration.Some? ==> t.quotes[id].duration.value > 0)
    && (!change.withdraw ==> !LiveQuoteOf(t, t.quotes[id].provider, t.quotes[id].request, id))
  }

  /** The customer of the request or an administrator, while the quote is pending. */
  predicate MayDecide(t: Tables, user: User, id: nat) {
    && id in t.quotes && t.quotes[id].status == Pending && t.quotes[id].request in t.requests
    && (user.admin || t.requests[t.quotes[id].request].customer == user.id)
    && t.quotes[id].amount > 0 && (t.quotes[id].duration.Some? ==> t.quotes[id].duration.value > 0)
  }

  /** Whose decision it is. */
  predicate Decides(t: Tables, user: User, id: nat) {
    && id in t.quotes && t.quotes[id].request in t.requests
    && (user.admin || t.requests[t.quotes[id].request].customer == user.id)
  }

  predicate SlotHeld(t: Tables, provider: nat, start: int) {
    exists b :: b in t.cases && t.cases[b].booking.provider == provider && t.cases[b].booking.scheduledStart == start
                && t.cases[b].booking.status in {PendingConfirmation, Confirmed, InProgress}
  }

  /** A valid quote, a start to come, and no rival: no accepted quote, no booking of it, no held slot. */
  ghost predicate MayAccept(t: Tables, user: User, id: nat, booking: nat, start: int, now: int) {
    && MayDecide(t, user, id)
    && var q := t.quotes[id];
    && (q.validUntil.Some? ==> now < q.validUntil.value) && now < start
    && (forall p :: p in t.quotes && p != id && t.quotes[p].request == q.request ==> t.quotes[p].status != Taken)
    && !LiveQuoteOf(t, q.provider, q.request, id)
    && booking !in t.cases && (forall b :: b in t.cases ==> t.cases[b].booking.quote != id)
    && !SlotHeld(t, q.provider, start)
  }

  lemma SendAnswers(t: Tables, user: User, id: nat, standing: Option<Standing>, request: nat, price: nat,
                    duration: Option<nat>, validUntil: Option<int>, now: int)
    ensures var r := Perform(t, user, SendQuote(id, standing, request, price, duration, validUntil), now);
      && (r.Ok? <==> MaySend(t, user, id, standing, request, price, duration, now))
      && (r == Err(NoProviderProfile) <==> user.provider.None?)
      && (r == Err(ProviderNotFound) <==> user.provider.Some? && standing.None?)
      && (r == Err(ProviderSuspended) <==> user.provider.Some? && standing.Some? && standing.value.suspended)
      && (r == Err(ProviderNotVerified) <==>
            user.provider.Some? && standing.Some? && !standing.value.suspended && !standing.value.approved)
      && (r.Err? && r.error in {RequestNotFound, RequestNotForYou, RequestNotOpen, RequestExpired} <==>
            && user.provider.Some? && standing == Some(Standing(false, true))
            && !OpenTo(t, user.provider.value, request, now))
      && (r == Err(QuoteAlreadySent) <==>
            && user.provider.Some? && standing == Some(Standing(false, true))
            && OpenTo(t, user.provider.value, request, now)
            && exists q :: q in t.quotes && t.quotes[q].request == request && t.quotes[q].provider == user.provider.value
                           && (t.quotes[q].status == Pending || t.quotes[q].status == Taken))
  {
    if user.provider.Some? { EligibilityIsOpenTo(t, user, request, now); }
    hide MayQuote, OpenTo, LiveConflict;
    var plan := GuardSend(t, user, id, standing, request, price, duration, validUntil, now);
    if plan.Ok? { assert !LiveConflict(t.quotes, id, plan.value.offer) by { NoLiveNoConflict(t, id, plan.value.offer); } }
  }

  lemma NoLiveNoConflict(t: Tables, id: nat, offer: Quote)
    requires !HasLiveQuote(t, offer.provider, offer.request)
    ensures !LiveConflict(t.quotes, id, offer)
  {
  }

  /** The base table shows what is addressed to the provider, the feed what is broadcast. */
  lemma EligibilityIsOpenTo(t: Tables, user: User, request: nat, now: int)
    requires user.provider.Some?
    ensures MayQuote(t, user, request, now).None? <==> OpenTo(t, user.provider.value, request, now)
    ensures MayQuote(t, user, request, now).Some? ==>
              MayQuote(t, user, request, now).value in {RequestNotFound, RequestNotForYou, RequestNotOpen, RequestExpired}
  {
  }

  lemma ReviseAnswers(t: Tables, user: User, id: nat, change: Revision, now: int)
    ensures var r := Perform(t, user, ReviseQuote(id, change), now);
      && (r.Ok? <==> MayRevise(t, user, id, change))
      && (r == Err(QuoteNotPending) <==>
            && id in t.quotes && t.quotes[id].status != Pending
            && (user.admin || user.provider == Some(t.quotes[id].provider)))
      && (id in t.quotes && !user.admin && user.provider != Some(t.quotes[id].provider) ==>
            r == Err(QuoteNotFound) || r == Err(NotQuoteOwner))
  {
    if id in t.quotes && GuardRevise(t, user, id, change).Ok? {
      assert LiveConflict(t.quotes, id, Revised(t.quotes[id], change))
          <==> !change.withdraw && LiveQuoteOf(t, t.quotes[id].provider, t.quotes[id].request, id);
    }
    hide SeesRequest;
  }

  lemma DeclineAnswers(t: Tables, user: User, id: nat, now: int)
    ensures var r := Perform(t, user, RejectQuote(id), now);
      && (r.Ok? <==> MayDecide(t, user, id))
      && (r == Err(QuoteNotPending) <==> Decides(t, user, id) && t.quotes[id].status != Pending)
      && (id in t.quotes && !Decides(t, user, id) ==> r == Err(QuoteNotFound) || r == Err(NotRequestOwner))
  {
  }

  lemma AcceptAnswers(t: Tables, user: User, id: nat, booking: nat, start: int, now: int)
    ensures var r := Perform(t, user, AcceptQuote(id, booking, start), now);
      && (r.Ok? <==> MayAccept(t, user, id, booking, start, now))
      && (r == Err(QuoteNotPending) <==> Decides(t, user, id) && t.quotes[id].status != Pending)
      && (r == Err(QuoteExpired) <==>
            && Decides(t, user, id) && t.quotes[id].status == Pending
            && t.quotes[id].validUntil.Some? && t.quotes[id].validUntil.value <= now)
      && (r == Err(StartInPast) <==>
            && Decides(t, user, id) && t.quotes[id].status == Pending
            && (t.quotes[id].validUntil.Some? ==> now < t.quotes[id].validUntil.value) && start <= now)
  {
    var plan := GuardAccept(t, user, id, booking, start, now);
    if plan.Ok? {
      AcceptIs(t, user, id, booking, start, now);
      var row := plan.value.booking;
      assert QuoteChecks(t.quotes[id]) ==> Checks(row);
      var taken := t.quotes[id].(status := Taken);
      assert LiveConflict(t.quotes, id, taken) <==> LiveQuoteOf(t, taken.provider, taken.request, id);
      assert SlotConflict(t.cases, booking, row) ==> SlotHeld(t, row.provider, start);
      hide GuardAccept;
    }
  }

  /** What the customer is promised: the quoted price, and an end after the quoted minutes, if any. */
  lemma AcceptedTimes(t: Tables, user: User, id: nat, booking: nat, start: int, now: int)
    requires GuardAccept(t, user, id, booking, start, now).Ok?
    ensures var b, q := GuardAccept(t, user, id, booking, start, now).value.booking, t.quotes[id];
      && id in t.quotes && q.request in t.requests
      && b.scheduledStart == start && b.totalAmount == q.amount
      && (b.scheduledEnd.Some? <==> q.duration.Some? && q.duration.value != 0)
      && (b.scheduledEnd.Some? ==> b.scheduledEnd.value - start == q.duration.value * 60_000)
      && b.quote == id && b.request == q.request && b.provider == q.provider && b.customer == t.requests[q.request].customer
      && b.origin == Accepted && b.status == PendingConfirmation && b.trail == [Entry(None, PendingConfirmation)]
      && b.actualStart.None? && b.actualEnd.None? && b.contactReleasedAt.None?
      && b.cancelledAt.None? && b.cancelledBy.None? && b.completedAt.None?
  {
  }

  /** TRANSITIONS of a request, read actor by actor. */
  lemma WhoMayMoveARequest(from: RequestStatus, to: RequestStatus)
    ensures Customer in MayMove(from, to) <==>
              || (from == Draft && to == OpenForQuotes)
              || (to == Cancelled && from in {Draft, OpenForQuotes, Quoted, QuoteAccepted})
              || (from == Quoted && to == QuoteAccepted)
              || (from == QuoteAccepted && to == Booked)
              || (from == Booked && to == Closed)
    ensures Provider in MayMove(from, to) <==> (from == OpenForQuotes && to == Quoted) || (from == Booked && to == Closed)
    ensures Admin in MayMove(from, to) <==>
              || Customer in MayMove(from, to) || Provider in MayMove(from, to)
              || (to == Expired && (from == OpenForQuotes || from == Quoted))
    ensures MayMove(from, to) == {} <==> Admin !in MayMove(from, to)
  {
  }

  /** A posted request is open at once and goes stale after fourteen days. */
  lemma PostedRequest(t: Tables, user: User, id: nat, addressee: Option<nat>, now: int)
    ensures var r := Perform(t, user, PostRequest(id, addressee), now);
      && (r.Ok? <==> id !in t.requests)
      && (r.Ok? ==> r.value == t.(requests := t.requests[id := Request(user.id, addressee, OpenForQuotes, Some(now + 1_209_600_000))]))
  {
  }

  /** Only an administrator records a booking, of a quote in any status, once, for a free slot. */
  lemma RecordedBooking(t: Tables, user: User, quote: nat, booking: nat, start: int, now: int)
    ensures var r := Perform(t, user, RecordBooking(quote, booking, start), now);
      r.Ok? <==>
        && user.admin && quote in t.quotes && t.quotes[quote].request in t.requests && t.quotes[quote].amount >= 0
        && booking !in t.cases && (forall b :: b in t.cases ==> t.cases[b].booking.quote != quote)
        && !SlotHeld(t, t.quotes[quote].provider, start)
  {
    var plan := GuardRecord(t, user, quote, booking, start);
    if plan.Ok? {
      var row := plan.value.booking;
      assert Checks(row) <==> t.quotes[quote].amount >= 0;
      assert booking !in t.cases ==> (SlotConflict(t.cases, booking, row) <==> SlotHeld(t, row.provider, start));
    }
  }

  class QuoteDesk {
    var requests: map<nat, Request>
    var quotes: map<nat, Quote>
    var cases: map<nat, Case>

    ghost function State(): Tables
      reads this
    {
      Tables(requests, quotes, cases)
    }

    constructor ()
      ensures State() == EMPTY.tables
    {
      requests, quotes, cases := map[], map[], map[];
    }

    method Create(user: User, id: nat, standing: Option<Standing>, request: nat, price: nat,
                  duration: Option<nat>, validUntil: Option<int>, now: int)
      returns (r: Result<Quote, Problem>)
      modifies this
      ensures var all := Perform(old(State()), user, SendQuote(id, standing, request, price, duration, validUntil), now);
              State() == Kept(old(State()), all) && (r.Ok? <==> all.Ok?) && (r.Err? ==> r.error == all.error)
      ensures r.Ok? <==> MaySend(old(State()), user, id, standing, request, price, duration, now)
      ensures r.Ok? ==>
                && quotes == old(quotes)[id := r.value] && cases == old(cases)
                && r.value.request == request && Some(r.value.provider) == user.provider && r.value.status == Pending
                && r.value.amount == price && (r.value.duration.Some? <==> duration.Some?)
                && (duration.Some? ==> r.value.duration.value == duration.value)
                && r.value.validUntil == (if validUntil.Some? then validUntil else Some(now + 604_800_000))
      ensures r.Ok? ==>
                && request in old(requests)
                && requests == old(requests)[request := old(requests)[request].(status := Quoted)]
    {
      SendAnswers(State(), user, id, standing, request, price, duration, validUntil, now);
      var plan := GuardSend(Tables(requests, quotes, cases), user, id, standing, request, price, duration, validUntil, now);
      if plan.Err? { return Err(plan.error); }
      if id in quotes { return Err(DuplicateKey); }
      var saved := SaveQuote(quotes, id, plan.value.offer);
      if saved.Err? { return Err(saved.error); }
      quotes := saved.value;
      // Visible from here on: the policy admits a provider who has quoted.
      if request in requests && requests[request].status == OpenForQuotes {
        requests := requests[request := requests[request].(status := Quoted)];
      }
      r := Ok(quotes[id]);
    }

    method Update(user: User, id: nat, change: Revision, now: int) returns (r: Result<Quote, Problem>)
      modifies this`quotes
      ensures var all := Perform(old(State()), user, ReviseQuote(id, change), now);
              State() == Kept(old(State()), all) && (r.Ok? <==> all.Ok?) && (r.Err? ==> r.error == all.error)
      ensures r.Ok? <==> MayRevise(old(State()), user, id, change)
      ensures r.Ok? ==>
                && var q := old(quotes)[id];
                && quotes == old(quotes)[id := r.value] && r.value.request == q.request && r.value.provider == q.provider
                && r.value.status == (if change.withdraw then Withdrawn else Pending)
                && r.value.amount == (if change.amount.Some? then change.amount.value else q.amount)
                && r.value.duration == (if change.duration.Some? then Some(change.duration.value) else q.duration)
                && r.value.validUntil == (if change.validUntil.Some? then change.validUntil else q.validUntil)
    {
      ReviseAnswers(State(), user, id, change, now);
      var plan := GuardRevise(Tables(requests, quotes, cases), user, id, change);
      if plan.Err? { return Err(plan.error); }
      var row := quotes[id];
      if change.amount.Some? { row := row.(amount := change.amount.value); }
      if change.duration.Some? { row := row.(duration := Some(change.duration.value)); }
      if change.validUntil.Some? { row := row.(validUntil := change.validUntil); }
      if change.withdraw { row := row.(status := Withdrawn); }
      var saved := SaveQuote(quotes, id, row);
      if saved.Err? { return Err(saved.error); }
      quotes := saved.value;
      r := Ok(row);
    }

    method Accept(user: User, id: nat, booking: nat, start: int, now: int)
      returns (r: Result<Booking, Problem>)
      modifies this
      ensures var all := Perform(old(State()), user, AcceptQuote(id, booking, start), now);
              State() == Kept(old(State()), all) && (r.Ok? <==> all.Ok?) && (r.Err? ==> r.error == all.error)
      ensures r.Ok? ==>
                && quotes[id].status == Taken
                && (forall q :: q in quotes && q != id && quotes[q].request == quotes[id].request ==> !Live(quotes[q].status))
                && cases == old(cases)[booking := Case(r.value, [])]
                && r.value.quote == id && r.value.status == PendingConfirmation
                && requests[quotes[id].request].status == Booked
      ensures r.Err? ==> State() == old(State())
      ensures r.Ok? <==> MayAccept(old(State()), user, id, booking, start, now)
      ensures r.Ok? ==>
                && var q := old(quotes)[id];
                && r.value.scheduledStart == start && r.value.totalAmount == q.amount
                && (r.value.scheduledEnd.Some? <==> q.duration.Some? && q.duration.value != 0)
                && (r.value.scheduledEnd.Some? ==> r.value.scheduledEnd.value - start == q.duration.value * 60_000)
                && r.value.request == q.request && r.value.provider == q.provider
                && q.request in old(requests) && r.value.customer == old(requests)[q.request].customer
                && r.value.origin == Accepted && r.value.contactReleasedAt.None?
                && requests == old(requests)[q.request := old(requests)[q.request].(status := Booked)]
      ensures r.Ok? ==>
                && quotes.Keys == old(quotes).Keys
                && forall q :: q in old(quotes) ==>
                     quotes[q] == if q == id then old(quotes)[q].(status := Taken)
                                  else if old(quotes)[q].request == old(quotes)[id].request && old(quotes)[q].status == Pending
                                  then old(quotes)[q].(status := Rejected) else old(quotes)[q]
    {
      AcceptAnswers(State(), user, id, booking, start, now);
      var plan := GuardAccept(Tables(requests, quotes, cases), user, id, booking, start, now);
      if plan.Err? { return Err(plan.error); }
      ghost var before := State();
      var row := plan.value.booking;
      AcceptIs(before, user, id, booking, start, now);
      AcceptedTimes(before, user, id, booking, start, now);
      SavedQuote(quotes, id, quotes[id].(status := Taken));
      hide MayAccept, GuardAccept, SaveQuote, SaveBooking, RejectSiblings, Perform;
      var saved := SaveQuote(quotes, id, quotes[id].(status := Taken));
      if saved.Err? { return Err(saved.error); }
      var added := SaveBooking(cases, booking, row);
      if added.Err? { return Err(added.error); }
      AddedBooking(cases, booking, row);
      OneLiveQuoteLeft(quotes, id);
      quotes := saved.value;
      quotes := RejectSiblings(quotes, id, row.request);
      cases := added.value;
      requests := requests[row.request := requests[row.request].(status := Booked)];
      assert State() == WriteAccept(before, id, booking, row).value;
      r := Ok(row);
    }

    method Decline(user: User, id: nat, now: int) returns (r: Result<Quote, Problem>)
      modifies this`quotes
      ensures var all := Perform(old(State()), user, RejectQuote(id), now);
              State() == Kept(old(State()), all) && (r.Ok? <==> all.Ok?) && (r.Err? ==> r.error == all.error)
      ensures r.Ok? <==> MayDecide(old(State()), user, id)
      ensures r.Ok? ==> old(quotes)[id].status == Pending && r.value == old(quotes)[id].(status := Rejected)
                        && quotes == old(quotes)[id := r.value]
    {
      DeclineAnswers(State(), user, id, now);
      var plan := GuardReject(Tables(requests, quotes, cases), user, id);
      if plan.Err? { return Err(plan.error); }
      var saved := SaveQuote(quotes, id, quotes[id].(status := Rejected));
      if saved.Err? { return Err(saved.error); }
      quotes := saved.value;
      r := Ok(quotes[id]);
    }

    /** RequestsService.updateStatus. */
    method MoveTo(user: User, request: nat, to: RequestStatus, now: int) returns (r: Result<Request, Problem>)
      modifies this`requests
      ensures var all := Perform(old(State()), user, MoveRequest(request, to), now);
              State() == Kept(old(State()), all) && (r.Ok? <==> all.Ok?) && (r.Err? ==> r.error == all.error)
      ensures r.Ok? ==> r.value.status == to && old(requests)[request].status !in {Cancelled, Expired, Closed}
      ensures r.Ok? ==> requests == old(requests)[request := old(requests)[request].(status := to)]
      ensures request in old(requests) && user.admin ==> (r.Ok? <==> Admin in MayMove(old(requests)[request].status, to))
      ensures request in old(requests) && !user.admin && old(requests)[request].customer == user.id ==>
                (r.Ok? <==> Customer in MayMove(old(requests)[request].status, to))
      ensures request in old(requests) && !user.admin && old(requests)[request].customer != user.id ==>
                (r.Ok? <==>
                   && user.provider.Some? && Provider in MayMove(old(requests)[request].status, to)
                   && (old(requests)[request].addressee == user.provider
                       || exists q :: q in quotes && quotes[q].request == request && Some(quotes[q].provider) == user.provider))
      ensures request !in old(requests) ==> r == Err(RequestNotFound)
    {
      if !SeesRequest(Tables(requests, quotes, cases), user, request) { return Err(RequestNotFound); }
      var allowed := MayMove(requests[request].status, to);
      if allowed == {} { return Err(InvalidRequestTransition); }
      if RequestActor(user, requests[request]) !in allowed { return Err(NotAllowedToMoveRequest); }
      requests := requests[request := requests[request].(status := to)];
      r := Ok(requests[request]);
    }
  }
}
