/**
 Calls that run one after another. The services' own guards keep one live accepted quote
 per request and pair accepted quotes with bookings, so the indexes never have to step in,
 except where two bookings want one slot or an administrator recorded a booking first.
 */
module MarketSerial {
  import opened Common
  import opened Bookings
  import opened Market

  predicate Settled(s: RequestStatus) {
    s == Booked || s == Closed
  }

  ghost predicate QuotesInv(quotes: map<nat, Quote>, requests: map<nat, Request>) {
    && (forall q :: q in quotes ==> quotes[q].request in requests && QuoteChecks(quotes[q]))
    && (forall q :: q in quotes && quotes[q].status == Taken ==> Settled(requests[quotes[q].request].status))
    && (forall q, p ::
          (q in quotes && p in quotes && q != p && quotes[q].request == quotes[p].request
           && Live(quotes[q].status) && Live(quotes[p].status))
          ==> quotes[q].status != Taken && quotes[q].provider != quotes[p].provider)
  }

  ghost predicate CasesSound(cases: map<nat, Case>, clock: int) {
    forall b :: b in cases ==> CaseInv(cases[b], clock)
  }

  /** The booking is for this quote, its request, its customer and its provider. */
  predicate Matches(b: Booking, quotes: map<nat, Quote>, requests: map<nat, Request>) {
    && b.quote in quotes && quotes[b.quote].request in requests
    && b.request == quotes[b.quote].request
    && b.provider == quotes[b.quote].provider
    && b.customer == requests[b.request].customer
  }

  ghost predicate CasesMatch(cases: map<nat, Case>, quotes: map<nat, Quote>, requests: map<nat, Request>) {
    forall b :: b in cases ==> Matches(cases[b].booking, quotes, requests)
  }

  /** The two unique indexes on bookings hold. */
  ghost predicate CasesKeyed(cases: map<nat, Case>) {
    && (forall b, c :: b in cases && c in cases && b != c ==> cases[b].booking.quote != cases[c].booking.quote)
    && (forall b :: b in cases ==> !SlotConflict(cases, b, cases[b].booking))
  }

  ghost predicate BookedBy(cases: map<nat, Case>, q: nat) {
    exists b :: b in cases && cases[b].booking.quote == q && cases[b].booking.origin == Accepted
  }

  /** Accepted quotes and the bookings made by accepting are one and the same set. */
  ghost predicate Paired(cases: map<nat, Case>, quotes: map<nat, Quote>) {
    && (forall b :: b in cases && cases[b].booking.origin == Accepted ==>
          cases[b].booking.quote in quotes && quotes[cases[b].booking.quote].status == Taken)
    && (forall q :: q in quotes && quotes[q].status == Taken ==> BookedBy(cases, q))
  }

  ghost predicate Inv(t: Tables, clock: int) {
    && QuotesInv(t.quotes, t.requests)
    && CasesSound(t.cases, clock)
    && CasesMatch(t.cases, t.quotes, t.requests)
    && CasesKeyed(t.cases)
    && Paired(t.cases, t.quotes)
  }

  // ---- What an index can refuse ---------------------------------------------------

  predicate RecordedFor(cases: map<nat, Case>, q: nat) {
    exists b :: b in cases && cases[b].booking.quote == q && cases[b].booking.origin == Recorded
  }

  /** A pending quote has no live or accepted rival that the indexes would see. */
  lemma PendingHasNoConflict(quotes: map<nat, Quote>, requests: map<nat, Request>, quote: nat, row: Quote)
    requires QuotesInv(quotes, requests) && quote in quotes && quotes[quote].status == Pending
    requires row.request == quotes[quote].request && row.provider == quotes[quote].provider
    ensures !LiveConflict(quotes, quote, row) && !AcceptedConflict(quotes, quote, row)
  {
  }

  lemma OwnBookingOnly(cases: map<nat, Case>, quotes: map<nat, Quote>, quote: nat)
    requires Paired(cases, quotes) && quote in quotes && quotes[quote].status == Pending
    ensures QuoteBooked(cases, quote) <==> RecordedFor(cases, quote)
  {
  }

  /**
   Accepting: once the guards pass, the only refusals left are a reused booking id, a
   booking an administrator recorded for the quote, and a slot already held.
   */
  lemma AcceptRefusals(t: Tables, user: User, quote: nat, booking: nat, start: int, now: int)
    requires QuotesInv(t.quotes, t.requests) && Paired(t.cases, t.quotes)
    requires GuardAccept(t, user, quote, booking, start, now).Ok?
    ensures var row := GuardAccept(t, user, quote, booking, start, now).value.booking;
            var r := Perform(t, user, AcceptQuote(quote, booking, start), now);
      && (r == Err(DuplicateKey) <==> booking in t.cases)
      && (r == Err(BookingQuoteKey) <==> booking !in t.cases && RecordedFor(t.cases, quote))
      && (r == Err(SlotTaken) <==> booking !in t.cases && !RecordedFor(t.cases, quote)
                                   && SlotConflict(t.cases, booking, row))
      && (r.Err? ==> r.error == DuplicateKey || r.error == BookingQuoteKey || r.error == SlotTaken)
  {
    var plan := GuardAccept(t, user, quote, booking, start, now).value;
    PendingHasNoConflict(t.quotes, t.requests, quote, t.quotes[quote].(status := Taken));
    OwnBookingOnly(t.cases, t.quotes, quote);
    assert Checks(plan.booking);
    assert Perform(t, user, AcceptQuote(quote, booking, start), now) == WriteAccept(t, quote, booking, plan.booking);
  }

  predicate IndexRefusal<T>(r: Result<T, Problem>) {
    r == Err(LiveQuoteIndex) || r == Err(AcceptedQuoteIndex)
  }

  lemma SendIsNotRefused(t: Tables, user: User, id: nat, standing: Option<Standing>, request: nat, price: nat,
                         duration: Option<nat>, validUntil: Option<int>, now: int)
    ensures !IndexRefusal(Perform(t, user, SendQuote(id, standing, request, price, duration, validUntil), now))
  {
    var plan := GuardSend(t, user, id, standing, request, price, duration, validUntil, now);
    if plan.Ok? {
      assert !LiveConflict(t.quotes, id, plan.value.offer);
    }
  }

  lemma RevisionIsNotRefused(t: Tables, user: User, quote: nat, change: Revision, now: int)
    requires QuotesInv(t.quotes, t.requests)
    ensures !IndexRefusal(Perform(t, user, ReviseQuote(quote, change), now))
  {
    if GuardRevise(t, user, quote, change).Ok? {
      PendingHasNoConflict(t.quotes, t.requests, quote, Revised(t.quotes[quote], change));
    }
  }

  lemma AcceptIsNotRefused(t: Tables, user: User, quote: nat, booking: nat, start: int, now: int)
    requires QuotesInv(t.quotes, t.requests) && Paired(t.cases, t.quotes)
    ensures !IndexRefusal(Perform(t, user, AcceptQuote(quote, booking, start), now))
  {
    if GuardAccept(t, user, quote, booking, start, now).Ok? {
      AcceptRefusals(t, user, quote, booking, start, now);
    }
  }

  lemma OthersAreNotRefused(t: Tables, user: User, a: Action, now: int)
    requires a.RejectQuote? || a.RecordBooking? || a.PostRequest? || a.MoveRequest? || a.BookingCall?
    ensures !IndexRefusal(Perform(t, user, a, now))
  {
    hide SeesQuote, SeesRequest, SlotConflict, QuoteBooked, Attempt;
  }

  /** No call is ever refused by either quote index. */
  lemma QuoteIndexesNeverRefuse(t: Tables, clock: int, user: User, a: Action, now: int)
    requires Inv(t, clock)
    ensures !IndexRefusal(Perform(t, user, a, now))
  {
    hide Perform, IndexRefusal, QuotesInv, Paired, CasesSound, CasesKeyed, CasesMatch;
    match a
    case AcceptQuote(quote, booking, start) => AcceptIsNotRefused(t, user, quote, booking, start, now);
    case SendQuote(id, standing, request, price, duration, validUntil) =>
      SendIsNotRefused(t, user, id, standing, request, price, duration, validUntil, now);
    case ReviseQuote(quote, change) => RevisionIsNotRefused(t, user, quote, change, now);
    case _ => OthersAreNotRefused(t, user, a, now);
  }

  // ---- Every call keeps the invariant -----------------------------------------------

  lemma SoundLater(cases: map<nat, Case>, clock: int, now: int)
    requires CasesSound(cases, clock) && clock <= now
    ensures CasesSound(cases, now)
  {
  }

  lemma StillMatch(cases: map<nat, Case>, t: Tables, t': Tables)
    requires CasesMatch(cases, t.quotes, t.requests)
    requires forall q :: q in t.quotes ==> q in t'.quotes && t'.quotes[q].request == t.quotes[q].request
                                           && t'.quotes[q].provider == t.quotes[q].provider
    requires forall r :: r in t.requests ==> r in t'.requests && t'.requests[r].customer == t.requests[r].customer
    ensures CasesMatch(cases, t'.quotes, t'.requests)
  {
    forall b | b in cases ensures Matches(cases[b].booking, t'.quotes, t'.requests) {
      assert Matches(cases[b].booking, t.quotes, t.requests);
    }
  }

  /** Tables that keep their accepted quotes and accept-made bookings stay paired. */
  lemma StillPaired(t: Tables, t': Tables)
    requires Paired(t.cases, t.quotes)
    requires forall q :: q in t'.quotes && t'.quotes[q].status == Taken ==> q in t.quotes && t.quotes[q].status == Taken
    requires forall q :: q in t.quotes && t.quotes[q].status == Taken ==> q in t'.quotes && t'.quotes[q].status == Taken
    requires forall b :: b in t.cases ==> b in t'.cases && t'.cases[b].booking.quote == t.cases[b].booking.quote
                                          && t'.cases[b].booking.origin == t.cases[b].booking.origin
    requires forall b :: b in t'.cases && t'.cases[b].booking.origin == Accepted ==> b in t.cases
    ensures Paired(t'.cases, t'.quotes)
  {
    forall q | q in t'.quotes && t'.quotes[q].status == Taken ensures BookedBy(t'.cases, q) {
      assert BookedBy(t.cases, q);
      var b :| b in t.cases && t.cases[b].booking.quote == q && t.cases[b].booking.origin == Accepted;
      assert t'.cases[b].booking.quote == q;
    }
  }

  lemma SendKeepsQuotes(t: Tables, id: nat, offer: Quote)
    requires QuotesInv(t.quotes, t.requests) && WriteSend(t, id, offer).Ok?
    requires offer.status == Pending && offer.request in t.requests && TakesQuotes(t.requests[offer.request].status)
    requires !HasLiveQuote(t, offer.provider, offer.request)
    ensures var t' := WriteSend(t, id, offer).value; QuotesInv(t'.quotes, t'.requests)
  {
    var t' := WriteSend(t, id, offer).value;
    forall q, p | q in t'.quotes && p in t'.quotes && q != p && t'.quotes[q].request == t'.quotes[p].request
                  && Live(t'.quotes[q].status) && Live(t'.quotes[p].status)
      ensures t'.quotes[q].status != Taken && t'.quotes[q].provider != t'.quotes[p].provider
    {
      if q != id && p != id {
        assert t.quotes[q] == t'.quotes[q] && t.quotes[p] == t'.quotes[p];
      }
    }
  }

  lemma SendKeepsInv(t: Tables, clock: int, id: nat, offer: Quote, now: int)
    requires Inv(t, clock) && clock <= now && WriteSend(t, id, offer).Ok?
    requires offer.status == Pending && offer.request in t.requests && TakesQuotes(t.requests[offer.request].status)
    requires !HasLiveQuote(t, offer.provider, offer.request)
    ensures Inv(WriteSend(t, id, offer).value, now)
  {
    hide CasesSound, CasesKeyed, CasesMatch, QuotesInv;
    var t' := WriteSend(t, id, offer).value;
    SendKeepsQuotes(t, id, offer);
    SoundLater(t.cases, clock, now);
    StillMatch(t.cases, t, t');
    StillPaired(t, t');
  }

  lemma RowKeepsQuotes(t: Tables, quote: nat, row: Quote)
    requires QuotesInv(t.quotes, t.requests) && WriteQuote(t, quote, row).Ok?
    requires quote in t.quotes && t.quotes[quote].status == Pending && row.status != Taken
    requires row.request == t.quotes[quote].request && row.provider == t.quotes[quote].provider
    ensures QuotesInv(WriteQuote(t, quote, row).value.quotes, t.requests)
  {
  }

  lemma QuoteWriteKeepsInv(t: Tables, clock: int, quote: nat, row: Quote, now: int)
    requires Inv(t, clock) && clock <= now && WriteQuote(t, quote, row).Ok?
    requires quote in t.quotes && t.quotes[quote].status == Pending && row.status != Taken
    requires row.request == t.quotes[quote].request && row.provider == t.quotes[quote].provider
    ensures Inv(WriteQuote(t, quote, row).value, now)
  {
    hide CasesSound, CasesKeyed, CasesMatch;
    var t' := WriteQuote(t, quote, row).value;
    RowKeepsQuotes(t, quote, row);
    SoundLater(t.cases, clock, now);
    StillMatch(t.cases, t, t');
    StillPaired(t, t');
  }

  lemma RequestWriteKeepsInv(t: Tables, clock: int, r: nat, row: Request, now: int)
    requires Inv(t, clock) && clock <= now
    requires r in t.requests ==> row.customer == t.requests[r].customer
    requires r in t.requests && Settled(t.requests[r].status) ==> Settled(row.status)
    ensures Inv(t.(requests := t.requests[r := row]), now)
  {
    SoundLater(t.cases, clock, now);
    StillMatch(t.cases, t, t.(requests := t.requests[r := row]));
  }

  /** A new booking that the booking indexes let in. */
  lemma NewBookingIsKeyed(cases: map<nat, Case>, id: nat, row: Booking)
    requires CasesKeyed(cases) && SaveBooking(cases, id, row).Ok?
    ensures CasesKeyed(SaveBooking(cases, id, row).value)
  {
    var cases' := SaveBooking(cases, id, row).value;
    forall b | b in cases' ensures !SlotConflict(cases', b, cases'[b].booking) {
      assert !SlotConflict(cases, id, row);
      if b != id { assert !SlotConflict(cases, b, cases[b].booking); }
    }
  }

  /** Accepting leaves one live quote on the request. */
  lemma OneLiveQuoteLeft(quotes: map<nat, Quote>, quote: nat)
    requires quote in quotes && SaveQuote(quotes, quote, quotes[quote].(status := Taken)).Ok?
    ensures var after := RejectSiblings(SaveQuote(quotes, quote, quotes[quote].(status := Taken)).value,
                                        quote, quotes[quote].request);
      && after.Keys == quotes.Keys && after[quote] == quotes[quote].(status := Taken)
      && (forall q :: q in quotes && q != quote ==>
            && after[q] == quotes[q].(status := after[q].status)
            && (Live(after[q].status) ==> after[q] == quotes[q] && quotes[q].request != quotes[quote].request))
      && (forall q :: q in quotes && quotes[q].status == Taken ==> after[q] == quotes[q])
  {
    var row := quotes[quote].(status := Taken);
    assert !AcceptedConflict(quotes, quote, row);
    var after := RejectSiblings(quotes[quote := row], quote, row.request);
    forall q | q in quotes && q != quote
      ensures after[q] == quotes[q].(status := after[q].status)
      ensures Live(after[q].status) ==> after[q] == quotes[q] && quotes[q].request != row.request
    {
    }
  }

  lemma AcceptKeepsQuotes(t: Tables, quote: nat, id: nat, row: Booking)
    requires QuotesInv(t.quotes, t.requests) && WriteAccept(t, quote, id, row).Ok?
    requires quote in t.quotes && row.request == t.quotes[quote].request
    ensures var t' := WriteAccept(t, quote, id, row).value; QuotesInv(t'.quotes, t'.requests)
  {
    var t' := WriteAccept(t, quote, id, row).value;
    OneLiveQuoteLeft(t.quotes, quote);
    forall q, p | q in t'.quotes && p in t'.quotes && q != p && t'.quotes[q].request == t'.quotes[p].request
                  && Live(t'.quotes[q].status) && Live(t'.quotes[p].status)
      ensures t'.quotes[q].status != Taken && t'.quotes[q].provider != t'.quotes[p].provider
    {
      assert q != quote && p != quote;
    }
  }

  lemma AcceptKeepsPairing(t: Tables, quote: nat, id: nat, row: Booking)
    requires Paired(t.cases, t.quotes) && WriteAccept(t, quote, id, row).Ok?
    requires quote in t.quotes && row.quote == quote && row.origin == Accepted && row.request == t.quotes[quote].request
    ensures var t' := WriteAccept(t, quote, id, row).value; Paired(t'.cases, t'.quotes)
  {
    var t' := WriteAccept(t, quote, id, row).value;
    OneLiveQuoteLeft(t.quotes, quote);
    assert t'.cases[id].booking == row;
    forall q | q in t'.quotes && t'.quotes[q].status == Taken ensures BookedBy(t'.cases, q) {
      if q != quote {
        assert BookedBy(t.cases, q);
        var b :| b in t.cases && t.cases[b].booking.quote == q && t.cases[b].booking.origin == Accepted;
        assert t'.cases[b] == t.cases[b];
      }
    }
  }

  lemma AcceptKeepsMatch(t: Tables, quote: nat, id: nat, row: Booking)
    requires CasesMatch(t.cases, t.quotes, t.requests) && WriteAccept(t, quote, id, row).Ok?
    requires quote in t.quotes && row.quote == quote && Matches(row, t.quotes, t.requests)
    ensures var t' := WriteAccept(t, quote, id, row).value; CasesMatch(t'.cases, t'.quotes, t'.requests)
  {
    var t' := WriteAccept(t, quote, id, row).value;
    OneLiveQuoteLeft(t.quotes, quote);
    StillMatch(t.cases, t, t');
    assert Matches(row, t'.quotes, t'.requests);
  }

  lemma AcceptKeepsInv(t: Tables, clock: int, quote: nat, id: nat, row: Booking, now: int)
    requires Inv(t, clock) && clock <= now && WriteAccept(t, quote, id, row).Ok?
    requires quote in t.quotes && row.quote == quote && row.origin == Accepted && row.request == t.quotes[quote].request
    requires Matches(row, t.quotes, t.requests) && CaseInv(Case(row, []), now)
    ensures Inv(WriteAccept(t, quote, id, row).value, now)
  {
    hide CaseInv, Matches, SlotConflict;
    AcceptKeepsQuotes(t, quote, id, row);
    AcceptKeepsPairing(t, quote, id, row);
    AcceptKeepsMatch(t, quote, id, row);
    NewBookingIsKeyed(t.cases, id, row);
    SoundLater(t.cases, clock, now);
  }

  lemma RecordKeepsInv(t: Tables, clock: int, id: nat, row: Booking, now: int)
    requires Inv(t, clock) && clock <= now && WriteRecord(t, id, row).Ok?
    requires row.origin == Recorded && Matches(row, t.quotes, t.requests) && CaseInv(Case(row, []), now)
    ensures Inv(WriteRecord(t, id, row).value, now)
  {
    hide CaseInv, Matches, SlotConflict;
    NewBookingIsKeyed(t.cases, id, row);
    SoundLater(t.cases, clock, now);
    StillPaired(t, WriteRecord(t, id, row).value);
  }

  lemma MovedBookingIsKeyed(cases: map<nat, Case>, id: nat, c: Case)
    requires CasesKeyed(cases) && id in cases && !SlotConflict(cases, id, c.booking)
    requires c.booking.quote == cases[id].booking.quote
    ensures CasesKeyed(cases[id := c])
  {
    var cases' := cases[id := c];
    forall b | b in cases' ensures !SlotConflict(cases', b, cases'[b].booking) {
      if b != id { assert !SlotConflict(cases, b, cases[b].booking); }
    }
  }

  lemma SoundWith(cases: map<nat, Case>, clock: int, id: nat, c: Case, now: int)
    requires CasesSound(cases, clock) && clock <= now && CaseInv(c, now)
    ensures CasesSound(cases[id := c], now)
  {
    SoundLater(cases, clock, now);
  }

  lemma CallKeepsInv(t: Tables, clock: int, id: nat, c: Case, now: int)
    requires Inv(t, clock) && clock <= now && id in t.cases && !SlotConflict(t.cases, id, c.booking)
    requires CaseInv(c, now) && Matches(c.booking, t.quotes, t.requests)
    requires c.booking.quote == t.cases[id].booking.quote && c.booking.origin == t.cases[id].booking.origin
    ensures Inv(t.(cases := t.cases[id := c]), now)
  {
    hide CaseInv, SlotConflict;
    MovedBookingIsKeyed(t.cases, id, c);
    SoundWith(t.cases, clock, id, c, now);
    StillPaired(t, t.(cases := t.cases[id := c]));
  }

  lemma NewRowIsSound(t: Tables, quote: nat, origin: Origin, start: int, now: int)
    requires QuotesInv(t.quotes, t.requests) && quote in t.quotes
    ensures var open := BookingFor(t, quote, origin, start, None);
            CaseInv(Case(open, []), now) && Matches(open, t.quotes, t.requests)
    ensures var closed := BookingFor(t, quote, origin, start, EndOf(t.quotes[quote], start));
            CaseInv(Case(closed, []), now) && Matches(closed, t.quotes, t.requests)
  {
    var q := t.quotes[quote];
    var customer := t.requests[q.request].customer;
    NewCaseIsSound(quote, q.request, customer, q.provider, origin, start, None, q.amount, now);
    NewCaseIsSound(quote, q.request, customer, q.provider, origin, start, EndOf(q, start), q.amount, now);
  }

  lemma BookingCallKeepsInv(t: Tables, clock: int, user: User, id: nat, call: Call, now: int)
    requires Inv(t, clock) && clock <= now && Perform(t, user, BookingCall(id, call), now).Ok?
    ensures Inv(Perform(t, user, BookingCall(id, call), now).value, now)
  {
    hide Attempt, CaseInv, SlotConflict;
    AttemptIsSound(t.cases[id], clock, call, now);
    assert Matches(t.cases[id].booking, t.quotes, t.requests);
    CallKeepsInv(t, clock, id, GuardCall(t, id, call, now).value.c, now);
  }

  lemma MoveCallKeepsInv(t: Tables, clock: int, user: User, r: nat, to: RequestStatus, now: int)
    requires Inv(t, clock) && clock <= now && Perform(t, user, MoveRequest(r, to), now).Ok?
    ensures Inv(Perform(t, user, MoveRequest(r, to), now).value, now)
  {
    assert GuardMove(t, user, r, to).Ok?;
    RequestWriteKeepsInv(t, clock, r, t.requests[r].(status := to), now);
  }

  lemma SendCallKeepsInv(t: Tables, clock: int, user: User, a: Action, now: int)
    requires Inv(t, clock) && clock <= now && a.SendQuote? && Perform(t, user, a, now).Ok?
    ensures Inv(Perform(t, user, a, now).value, now)
  {
    var plan := GuardSend(t, user, a.id, a.standing, a.request, a.price, a.duration, a.validUntil, now);
    SendKeepsInv(t, clock, a.id, plan.value.offer, now);
  }

  lemma PendingCallKeepsInv(t: Tables, clock: int, user: User, a: Action, now: int)
    requires Inv(t, clock) && clock <= now && (a.ReviseQuote? || a.RejectQuote?) && Perform(t, user, a, now).Ok?
    ensures Inv(Perform(t, user, a, now).value, now)
  {
    if a.ReviseQuote? {
      assert GuardRevise(t, user, a.quote, a.change).Ok?;
      QuoteWriteKeepsInv(t, clock, a.quote, Revised(t.quotes[a.quote], a.change), now);
    } else {
      assert GuardReject(t, user, a.quote).Ok?;
      QuoteWriteKeepsInv(t, clock, a.quote, t.quotes[a.quote].(status := Rejected), now);
    }
  }

  lemma AcceptCallKeepsInv(t: Tables, clock: int, user: User, quote: nat, id: nat, start: int, now: int)
    requires Inv(t, clock) && clock <= now && Perform(t, user, AcceptQuote(quote, id, start), now).Ok?
    ensures Inv(Perform(t, user, AcceptQuote(quote, id, start), now).value, now)
  {
    hide CaseInv, CasesKeyed;
    var plan := GuardAccept(t, user, quote, id, start, now);
    NewRowIsSound(t, quote, Accepted, start, now);
    AcceptKeepsInv(t, clock, quote, id, plan.value.booking, now);
  }

  lemma RecordCallKeepsInv(t: Tables, clock: int, user: User, quote: nat, id: nat, start: int, now: int)
    requires Inv(t, clock) && clock <= now && Perform(t, user, RecordBooking(quote, id, start), now).Ok?
    ensures Inv(Perform(t, user, RecordBooking(quote, id, start), now).value, now)
  {
    hide CaseInv, CasesKeyed;
    var plan := GuardRecord(t, user, quote, id, start);
    NewRowIsSound(t, quote, Recorded, start, now);
    RecordKeepsInv(t, clock, id, plan.value.booking, now);
  }

  lemma PerformKeepsInv(t: Tables, clock: int, user: User, a: Action, now: int)
    requires Inv(t, clock) && clock <= now && Perform(t, user, a, now).Ok?
    ensures Inv(Perform(t, user, a, now).value, now)
  {
    if a.PostRequest? {
      RequestWriteKeepsInv(t, clock, a.id, Guard(t, user, a, now).value.row, now);
    } else {
      hide *;
      match a
      case MoveRequest(r, to) => MoveCallKeepsInv(t, clock, user, r, to, now);
      case SendQuote(_, _, _, _, _, _) => SendCallKeepsInv(t, clock, user, a, now);
      case ReviseQuote(_, _) => PendingCallKeepsInv(t, clock, user, a, now);
      case RejectQuote(_) => PendingCallKeepsInv(t, clock, user, a, now);
      case AcceptQuote(quote, id, start) => AcceptCallKeepsInv(t, clock, user, quote, id, start, now);
      case RecordBooking(quote, id, start) => RecordCallKeepsInv(t, clock, user, quote, id, start, now);
      case BookingCall(id, call) => BookingCallKeepsInv(t, clock, user, id, call, now);
    }
  }

  // ---- Runs ---------------------------------------------------------------------------

  datatype Turn = Turn(delay: nat, user: User, action: Action)

  datatype World = World(tables: Tables, clock: int)

  function Kept(before: Tables, r: Result<Tables, Problem>): Tables {
    if r.Ok? then r.value else before
  }

  function Next(w: World, turn: Turn): World {
    var now := w.clock + turn.delay;
    World(Kept(w.tables, Perform(w.tables, turn.user, turn.action, now)), now)
  }

  function Run(w: World, turns: seq<Turn>): World
    decreases |turns|
  {
    if turns == [] then w else Run(Next(w, turns[0]), turns[1..])
  }

  lemma NextKeepsInv(w: World, turn: Turn)
    requires Inv(w.tables, w.clock)
    ensures Inv(Next(w, turn).tables, Next(w, turn).clock)
  {
    hide Perform, CaseInv, SlotConflict;
    var now := w.clock + turn.delay;
    SoundLater(w.tables.cases, w.clock, now);
    if Perform(w.tables, turn.user, turn.action, now).Ok? {
      PerformKeepsInv(w.tables, w.clock, turn.user, turn.action, now);
    }
  }

  lemma {:induction false} RunKeepsInv(w: World, turns: seq<Turn>)
    requires Inv(w.tables, w.clock)
    ensures Inv(Run(w, turns).tables, Run(w, turns).clock)
    decreases |turns|
  {
    if turns != [] {
      NextKeepsInv(w, turns[0]);
      RunKeepsInv(Next(w, turns[0]), turns[1..]);
    }
  }

  const EMPTY := World(Tables(map[], map[], map[]), 0)

  lemma {:induction false} AcceptedQuotesPairWithBookings(turns: seq<Turn>)
    ensures var t := Run(EMPTY, turns).tables;
      && (forall q :: q in t.quotes && t.quotes[q].status == Taken ==>
            && t.quotes[q].request in t.requests && Settled(t.requests[t.quotes[q].request].status)
            && (forall p :: p in t.quotes && p != q && t.quotes[p].request == t.quotes[q].request ==>
                  !Live(t.quotes[p].status))
            && BookedBy(t.cases, q))
      && (forall b :: b in t.cases ==> Matches(t.cases[b].booking, t.quotes, t.requests) && Checks(t.cases[b].booking))
      && (forall b :: b in t.cases && t.cases[b].booking.origin == Accepted ==>
            t.quotes[t.cases[b].booking.quote].status == Taken)
      && (forall b, c :: b in t.cases && c in t.cases && b != c ==>
            t.cases[b].booking.quote != t.cases[c].booking.quote)
  {
    RunKeepsInv(EMPTY, turns);
  }

  lemma AcceptanceLasts(t: Tables, user: User, a: Action, now: int, q: nat)
    requires q in t.quotes && t.quotes[q].status == Taken
    ensures var t' := Kept(t, Perform(t, user, a, now));
            q in t'.quotes && t'.quotes[q].status == Taken && t'.quotes[q].request == t.quotes[q].request
  {
    match a
    case AcceptQuote(quote, booking, start) => assert GuardAccept(t, user, quote, booking, start, now).Ok? ==> q != quote;
    case ReviseQuote(quote, change) => assert GuardRevise(t, user, quote, change).Ok? ==> q != quote;
    case RejectQuote(quote) => assert GuardReject(t, user, quote).Ok? ==> q != quote;
    case SendQuote(_, _, _, _, _, _) =>
    case RecordBooking(_, _, _) =>
    case PostRequest(_, _) =>
    case MoveRequest(_, _) =>
    case BookingCall(_, _) =>
  }

  /** Forever: an accepted quote stays accepted and its request stays booked or closed. */
  lemma {:induction false} AcceptanceIsForever(w: World, turns: seq<Turn>, q: nat)
    requires Inv(w.tables, w.clock) && q in w.tables.quotes && w.tables.quotes[q].status == Taken
    ensures var t := Run(w, turns).tables;
      && q in t.quotes && t.quotes[q].status == Taken
      && t.quotes[q].request == w.tables.quotes[q].request
      && t.quotes[q].request in t.requests && Settled(t.requests[t.quotes[q].request].status)
    decreases |turns|
  {
    hide Perform, CasesSound, CasesMatch, CasesKeyed, Paired;
    if turns != [] {
      var now := w.clock + turns[0].delay;
      AcceptanceLasts(w.tables, turns[0].user, turns[0].action, now, q);
      NextKeepsInv(w, turns[0]);
      AcceptanceIsForever(Next(w, turns[0]), turns[1..], q);
    }
  }

  /** Of the calls on an existing booking, only moving its start can meet a taken slot. */
  lemma OnlyReschedulingMeetsATakenSlot(t: Tables, user: User, id: nat, call: Call, now: int)
    requires CasesKeyed(t.cases) && GuardCall(t, id, call, now).Ok?
    ensures var row := GuardCall(t, id, call, now).value.c.booking;
            var r := Perform(t, user, BookingCall(id, call), now);
      && (r.Err? <==> SlotConflict(t.cases, id, row))
      && (r.Err? ==> r.error == SlotTaken && call.RescheduleCall? && call.start.Some?
                     && call.start.value != t.cases[id].booking.scheduledStart)
  {
    assert !SlotConflict(t.cases, id, t.cases[id].booking);
    MovesKeepTheSlot(t.cases[id], call, now);
  }

  lemma MovesKeepTheSlot(c: Case, call: Call, now: int)
    requires Target(c, call, now).Ok?
    ensures var b, b' := c.booking, Target(c, call, now).value.booking;
      && b'.provider == b.provider
      && (HoldsSlot(b') ==> HoldsSlot(b))
      && (b'.scheduledStart != b.scheduledStart ==>
            call.RescheduleCall? && call.start.Some? && b'.scheduledStart == call.start.value)
  {
  }
}
