/**
 Quote calls that overlap. A call's read phase runs its guards on the rows of the moment;
 its write phase runs later, on whatever the rows have become. Row locks make each write
 phase one step; nothing repeats the guards, so only the unique indexes stand in the way.
 */
module QuoteRaces {
  import opened Common
  import opened Bookings
  import opened Market
  import opened MarketSerial

  /** A call between its phases. `crossed`: an accept of its quote has landed meanwhile. */
  datatype Underway = Underway(plan: Plan, crossed: bool)

  datatype Scene = Scene(tables: Tables, underway: map<nat, Underway>)

  /** `BookingWrite` is a write of any booking call, from whatever it read, reaching the row as it is now. */
  datatype Event =
    | Begin(tx: nat, user: User, action: Action, now: int)
    | Land(tx: nat)
    | BookingWrite(booking: nat, landing: Landing)

  /** Booking calls land through `BookingWrite`. */
  predicate QuoteWork(a: Action) {
    !a.BookingCall?
  }

  predicate Retires(p: Plan) {
    (p.Revise? && p.change.withdraw) || p.Reject?
  }

  predicate Retiring(p: Plan, quote: nat) {
    Retires(p) && p.quote == quote
  }

  function Cross(u: map<nat, Underway>, quote: nat): map<nat, Underway> {
    map tx | tx in u :: if Retiring(u[tx].plan, quote) then u[tx].(crossed := true) else u[tx]
  }

  function Step(s: Scene, e: Event): Scene {
    match e
    case Begin(tx, user, action, now) =>
      var plan := Guard(s.tables, user, action, now);
      if plan.Err? || !QuoteWork(action) then s
      else s.(underway := s.underway[tx := Underway(plan.value, false)])
    case Land(tx) =>
      if tx !in s.underway then s
      else
        var plan := s.underway[tx].plan;
        var r := Commit(s.tables, plan);
        var rest := s.underway - {tx};
        if r.Err? then s.(underway := rest)
        else Scene(r.value, if plan.Accept? then Cross(rest, plan.quote) else rest)
    case BookingWrite(booking, landing) => s.(tables := s.tables.(cases := WriteBooking(s.tables.cases, booking, landing)))
  }

  /** The row's CHECKs and the slot index may send the write back. */
  function WriteBooking(cases: map<nat, Case>, id: nat, landing: Landing): map<nat, Case> {
    if id !in cases then cases
    else
      var row := Moved(cases[id].booking, landing);
      if !Checks(row) || SlotConflict(cases, id, row) then cases
      else cases[id := Case(row, cases[id].disputes)]
  }

  function Run(s: Scene, events: seq<Event>): Scene
    decreases |events|
  {
    if events == [] then s else Run(Step(s, events[0]), events[1..])
  }

  // ---- What the indexes alone give, in any interleaving ------------------------------

  ghost predicate OneAccepted(quotes: map<nat, Quote>) {
    forall q, p ::
      (q in quotes && p in quotes && quotes[q].status == Taken && quotes[p].status == Taken
       && quotes[q].request == quotes[p].request)
      ==> q == p
  }

  ghost predicate OneBookingPerQuote(cases: map<nat, Case>) {
    forall b, c :: b in cases && c in cases && cases[b].booking.quote == cases[c].booking.quote ==> b == c
  }

  /** Every booking is for a quote that exists and names that quote's request. */
  ghost predicate Anchored(t: Tables) {
    forall b :: b in t.cases ==> t.cases[b].booking.quote in t.quotes
                                 && t.cases[b].booking.request == t.quotes[t.cases[b].booking.quote].request
  }

  predicate PlanAnchored(t: Tables, p: Plan) {
    match p
    case Accept(quote, _, booking) => booking.quote == quote && quote in t.quotes
                                      && booking.request == t.quotes[quote].request && booking.origin == Accepted
    case RecordPlan(_, booking) => booking.quote in t.quotes && booking.request == t.quotes[booking.quote].request
                                   && booking.origin == Recorded
    case Revise(quote, _) => quote in t.quotes
    case Reject(quote) => quote in t.quotes
    case Send(_, offer) => offer.status == Pending
    case Advance(_, _) => false
    case _ => true
  }

  ghost predicate Indexed(s: Scene) {
    && OneAccepted(s.tables.quotes) && OneBookingPerQuote(s.tables.cases) && Anchored(s.tables)
    && forall tx :: tx in s.underway ==> PlanAnchored(s.tables, s.underway[tx].plan)
  }

  lemma SavedQuoteKeepsOneAccepted(quotes: map<nat, Quote>, id: nat, row: Quote)
    requires OneAccepted(quotes) && SaveQuote(quotes, id, row).Ok?
    ensures OneAccepted(SaveQuote(quotes, id, row).value)
  {
    assert !AcceptedConflict(quotes, id, row);
  }

  lemma BeginKeepsIndexed(s: Scene, tx: nat, user: User, action: Action, now: int)
    requires Indexed(s)
    ensures Indexed(Step(s, Begin(tx, user, action, now)))
  {
    hide SeesRequest, HasLiveQuote, InFeed;
    var plan := Guard(s.tables, user, action, now);
    if plan.Ok? && QuoteWork(action) {
      match action
      case AcceptQuote(quote, booking, start) => assert PlanAnchored(s.tables, GuardAccept(s.tables, user, quote, booking, start, now).value);
      case RecordBooking(quote, booking, start) => assert PlanAnchored(s.tables, GuardRecord(s.tables, user, quote, booking, start).value);
      case ReviseQuote(quote, change) => assert PlanAnchored(s.tables, GuardRevise(s.tables, user, quote, change).value);
      case RejectQuote(quote) => assert PlanAnchored(s.tables, GuardReject(s.tables, user, quote).value);
      case SendQuote(id, standing, request, price, duration, validUntil) =>
        assert PlanAnchored(s.tables, GuardSend(s.tables, user, id, standing, request, price, duration, validUntil, now).value);
      case MoveRequest(request, to) => assert PlanAnchored(s.tables, GuardMove(s.tables, user, request, to).value);
      case PostRequest(_, _) =>
    }
  }

  /** Quotes are never deleted, and none changes its request. */
  predicate Grows(before: map<nat, Quote>, after: map<nat, Quote>) {
    forall q :: q in before ==> q in after && after[q].request == before[q].request
  }

  lemma CommitGrows(t: Tables, p: Plan)
    requires Commit(t, p).Ok? && PlanAnchored(t, p)
    ensures Grows(t.quotes, Commit(t, p).value.quotes)
  {
  }

  lemma CommitKeepsOneAccepted(t: Tables, p: Plan)
    requires Commit(t, p).Ok? && PlanAnchored(t, p) && OneAccepted(t.quotes)
    ensures OneAccepted(Commit(t, p).value.quotes)
  {
    match p
    case Send(id, offer) => SavedQuoteKeepsOneAccepted(t.quotes, id, offer);
    case Revise(quote, change) => SavedQuoteKeepsOneAccepted(t.quotes, quote, Revised(t.quotes[quote], change));
    case Reject(quote) => SavedQuoteKeepsOneAccepted(t.quotes, quote, t.quotes[quote].(status := Rejected));
    case Accept(quote, _, _) => SavedQuoteKeepsOneAccepted(t.quotes, quote, t.quotes[quote].(status := Taken));
    case _ =>
  }

  /** What a landing can do to the bookings: nothing, or add the plan's own for an unbooked quote. */
  lemma BookingsAfterCommit(t: Tables, p: Plan)
    requires Commit(t, p).Ok? && !p.Advance?
    ensures var cases := Commit(t, p).value.cases;
      || cases == t.cases
      || ((p.Accept? || p.RecordPlan?) && p.id !in t.cases && !QuoteBooked(t.cases, p.booking.quote)
          && cases == t.cases[p.id := Case(p.booking, [])])
  {
    hide LiveConflict, AcceptedConflict, SlotConflict, Checks, QuoteBooked;
  }

  lemma CommitKeepsBookings(t: Tables, p: Plan)
    requires Commit(t, p).Ok? && PlanAnchored(t, p) && OneBookingPerQuote(t.cases) && Anchored(t)
    ensures OneBookingPerQuote(Commit(t, p).value.cases) && Anchored(Commit(t, p).value)
  {
    hide Commit;
    CommitGrows(t, p);
    BookingsAfterCommit(t, p);
  }

  lemma LandKeepsIndexed(s: Scene, tx: nat)
    requires Indexed(s)
    ensures Indexed(Step(s, Land(tx)))
  {
    if tx in s.underway && Commit(s.tables, s.underway[tx].plan).Ok? {
      var p := s.underway[tx].plan;
      CommitKeepsOneAccepted(s.tables, p);
      CommitKeepsBookings(s.tables, p);
      CommitGrows(s.tables, p);
      hide Commit;
      forall x | x in Step(s, Land(tx)).underway
        ensures PlanAnchored(Step(s, Land(tx)).tables, Step(s, Land(tx)).underway[x].plan)
      {
        assert PlanAnchored(s.tables, s.underway[x].plan);
      }
    }
  }

  /** What a booking is for never changes. */
  lemma BookingWriteKeepsIdentity(cases: map<nat, Case>, id: nat, landing: Landing)
    ensures var cases' := WriteBooking(cases, id, landing);
      && cases'.Keys == cases.Keys
      && forall b :: b in cases ==>
           && cases'[b].booking.quote == cases[b].booking.quote && cases'[b].booking.request == cases[b].booking.request
           && cases'[b].booking.origin == cases[b].booking.origin && cases'[b].booking.provider == cases[b].booking.provider
  {
    hide Checks, SlotConflict;
  }

  lemma BookingWriteKeepsIndexed(s: Scene, booking: nat, landing: Landing)
    requires Indexed(s)
    ensures Indexed(Step(s, BookingWrite(booking, landing)))
  {
    hide WriteBooking;
    BookingWriteKeepsIdentity(s.tables.cases, booking, landing);
    var s' := Step(s, BookingWrite(booking, landing));
    assert s'.underway == s.underway && s'.tables.quotes == s.tables.quotes;
  }

  lemma BookingWriteKeepsPaired(s: Scene, booking: nat, landing: Landing)
    requires Paired(s.tables.cases, s.tables.quotes)
    ensures var t := Step(s, BookingWrite(booking, landing)).tables; Paired(t.cases, t.quotes)
  {
    hide WriteBooking;
    BookingWriteKeepsIdentity(s.tables.cases, booking, landing);
    StillPaired(s.tables, Step(s, BookingWrite(booking, landing)).tables);
  }

  /** Under any interleaving: one accepted quote a request, one booking a quote. */
  lemma {:induction false} IndexesHoldInAnyInterleaving(s: Scene, events: seq<Event>)
    requires Indexed(s)
    ensures Indexed(Run(s, events))
    decreases |events|
  {
    if events != [] {
      match events[0] {
        case Begin(tx, user, action, now) => BeginKeepsIndexed(s, tx, user, action, now);
        case Land(tx) => LandKeepsIndexed(s, tx);
        case BookingWrite(booking, landing) => BookingWriteKeepsIndexed(s, booking, landing);
      }
      hide Step, Indexed;
      IndexesHoldInAnyInterleaving(Step(s, events[0]), events[1..]);
    }
  }

  // ---- What also holds while retirements keep clear of acceptances --------------------

  /** The landing retires a quote whose acceptance came in between. */
  predicate CrossedLanding(s: Scene, e: Event) {
    e.Land? && e.tx in s.underway && Retires(s.underway[e.tx].plan) && s.underway[e.tx].crossed
  }

  predicate NeverCrossed(s: Scene, events: seq<Event>)
    decreases |events|
  {
    events == [] || (!CrossedLanding(s, events[0]) && NeverCrossed(Step(s, events[0]), events[1..]))
  }

  ghost predicate FlagsTell(s: Scene) {
    forall tx, q :: tx in s.underway && Retiring(s.underway[tx].plan, q) && !s.underway[tx].crossed && q in s.tables.quotes
                    ==> s.tables.quotes[q].status != Taken
  }

  ghost predicate Coherent(s: Scene) {
    Indexed(s) && Paired(s.tables.cases, s.tables.quotes) && FlagsTell(s)
  }

  lemma BeginKeepsCoherent(s: Scene, tx: nat, user: User, action: Action, now: int)
    requires Coherent(s)
    ensures Coherent(Step(s, Begin(tx, user, action, now)))
  {
    BeginKeepsIndexed(s, tx, user, action, now);
    var plan := Guard(s.tables, user, action, now);
    if plan.Ok? && QuoteWork(action) && Retires(plan.value) {
      PendingWhenRetired(s.tables, user, action, now);
    }
    hide Guard, Indexed, Paired;
  }

  lemma PendingWhenRetired(t: Tables, user: User, action: Action, now: int)
    requires QuoteWork(action) && Guard(t, user, action, now).Ok? && Retires(Guard(t, user, action, now).value)
    ensures Guard(t, user, action, now).value.quote in t.quotes
    ensures t.quotes[Guard(t, user, action, now).value.quote].status == Pending
  {
    match action
    case ReviseQuote(quote, change) => assert GuardRevise(t, user, quote, change).Ok?;
    case RejectQuote(quote) => assert GuardReject(t, user, quote).Ok?;
    case _ =>
  }

  /** Which quotes a landing makes accepted: the accepted one, and no other. */
  lemma OnlyAcceptTakes(t: Tables, p: Plan)
    requires Commit(t, p).Ok? && PlanAnchored(t, p)
    ensures forall q :: q in Commit(t, p).value.quotes && Commit(t, p).value.quotes[q].status == Taken ==>
                          (p.Accept? && q == p.quote) || (q in t.quotes && t.quotes[q].status == Taken)
    ensures forall q :: q in t.quotes && t.quotes[q].status == Taken && !Retiring(p, q) ==>
                          q in Commit(t, p).value.quotes && Commit(t, p).value.quotes[q].status == Taken
  {
    hide LiveConflict, AcceptedConflict, SlotConflict, Checks, QuoteBooked;
  }

  lemma CommitKeepsPairing(t: Tables, p: Plan)
    requires Commit(t, p).Ok? && PlanAnchored(t, p) && Paired(t.cases, t.quotes)
    requires Retires(p) ==> t.quotes[p.quote].status != Taken
    ensures Paired(Commit(t, p).value.cases, Commit(t, p).value.quotes)
  {
    OnlyAcceptTakes(t, p);
    if p.Accept? {
      AcceptKeepsPairing(t, p.quote, p.id, p.booking);
    } else {
      BookingsOnlyAdded(t, p);
      hide Commit;
      StillPaired(t, Commit(t, p).value);
    }
  }

  lemma BookingsOnlyAdded(t: Tables, p: Plan)
    requires Commit(t, p).Ok? && PlanAnchored(t, p) && !p.Accept?
    ensures forall b :: b in t.cases ==> b in Commit(t, p).value.cases && Commit(t, p).value.cases[b] == t.cases[b]
    ensures forall b :: b in Commit(t, p).value.cases && Commit(t, p).value.cases[b].booking.origin == Accepted ==> b in t.cases
  {
    hide LiveConflict, AcceptedConflict, SlotConflict, Checks, QuoteBooked;
  }

  lemma LandKeepsCoherent(s: Scene, tx: nat)
    requires Coherent(s) && !CrossedLanding(s, Land(tx))
    ensures Coherent(Step(s, Land(tx)))
  {
    LandKeepsIndexed(s, tx);
    if tx in s.underway && Commit(s.tables, s.underway[tx].plan).Ok? {
      var p := s.underway[tx].plan;
      assert PlanAnchored(s.tables, p);
      assert Retires(p) ==> Retiring(p, p.quote);
      CommitKeepsPairing(s.tables, p);
      OnlyAcceptTakes(s.tables, p);
      hide Commit, Indexed, Paired, PlanAnchored;
      var s' := Step(s, Land(tx));
      forall x, q | x in s'.underway && Retiring(s'.underway[x].plan, q) && !s'.underway[x].crossed && q in s'.tables.quotes
        ensures s'.tables.quotes[q].status != Taken
      {
        assert s'.underway[x].plan == s.underway[x].plan;
      }
    }
  }

  lemma {:induction false} CoherentWhileUncrossed(s: Scene, events: seq<Event>)
    requires Coherent(s) && NeverCrossed(s, events)
    ensures Coherent(Run(s, events))
    decreases |events|
  {
    if events != [] {
      match events[0] {
        case Begin(tx, user, action, now) => BeginKeepsCoherent(s, tx, user, action, now);
        case Land(tx) => LandKeepsCoherent(s, tx);
        case BookingWrite(booking, landing) =>
          BookingWriteKeepsIndexed(s, booking, landing);
          BookingWriteKeepsPaired(s, booking, landing);
      }
      hide Step, Coherent, CrossedLanding;
      CoherentWhileUncrossed(Step(s, events[0]), events[1..]);
    }
  }

  /**
   While no withdrawal or rejection lands across an acceptance of its quote, a request has
   at most one booking made by accepting, and that booking's quote is the accepted one.
   */
  lemma {:induction false} OneBookingPerRequest(s: Scene, events: seq<Event>)
    requires Coherent(s) && NeverCrossed(s, events)
    ensures var t := Run(s, events).tables;
      forall b, c ::
        (b in t.cases && c in t.cases && t.cases[b].booking.request == t.cases[c].booking.request
         && t.cases[b].booking.origin == Accepted && t.cases[c].booking.origin == Accepted)
        ==> b == c && t.cases[b].booking.quote in t.quotes && t.quotes[t.cases[b].booking.quote].status == Taken
  {
    CoherentWhileUncrossed(s, events);
    hide Run, NeverCrossed, FlagsTell, BookedBy;
  }

  /** Exactly the crossing breaks it: retiring is harmless iff the quote is not accepted by now. */
  lemma {:induction false} RetiringIsSafeIffNotTaken(s: Scene, tx: nat)
    requires Indexed(s) && Paired(s.tables.cases, s.tables.quotes)
    requires tx in s.underway && Retires(s.underway[tx].plan) && Commit(s.tables, s.underway[tx].plan).Ok?
    ensures var p := s.underway[tx].plan;
            var t := Step(s, Land(tx)).tables;
      Paired(t.cases, t.quotes) <==> s.tables.quotes[p.quote].status != Taken
  {
    var p := s.underway[tx].plan;
    assert PlanAnchored(s.tables, p);
    if s.tables.quotes[p.quote].status != Taken {
      CommitKeepsPairing(s.tables, p);
    } else {
      var t := Step(s, Land(tx)).tables;
      assert BookedBy(s.tables.cases, p.quote);
      var b :| b in s.tables.cases && s.tables.cases[b].booking.quote == p.quote
               && s.tables.cases[b].booking.origin == Accepted;
      assert t.cases == s.tables.cases && t.quotes[p.quote].status != Taken;
      assert t.cases[b].booking.origin == Accepted;
    }
  }

  /** A withdrawal or rejection, sound in itself, lands on a quote that is accepted by then. */
  predicate RetiresTaken(s: Scene, e: Event) {
    && e.Land? && e.tx in s.underway && Retires(s.underway[e.tx].plan)
    && var p := s.underway[e.tx].plan;
    && p.quote in s.tables.quotes && s.tables.quotes[p.quote].status == Taken
    && QuoteChecks(RetiredRow(s.tables.quotes[p.quote], p))
  }

  /** The row a withdrawal or rejection writes. */
  function RetiredRow(q: Quote, p: Plan): Quote
    requires Retires(p)
  {
    if p.Revise? then Revised(q, p.change) else q.(status := Rejected)
  }

  /** A retirement goes through exactly when its row passes the CHECKs; no index minds a dead quote. */
  lemma RetirementGoesThrough(t: Tables, p: Plan)
    requires Retires(p) && p.quote in t.quotes
    ensures Commit(t, p).Ok? <==> QuoteChecks(RetiredRow(t.quotes[p.quote], p))
  {
  }

  predicate NeverRetiresTaken(s: Scene, events: seq<Event>)
    decreases |events|
  {
    events == [] || (!RetiresTaken(s, events[0]) && NeverRetiresTaken(Step(s, events[0]), events[1..]))
  }

  /** At every moment accepted quotes and accept-made bookings are one and the same set. */
  ghost predicate StaysPaired(s: Scene, events: seq<Event>)
    decreases |events|
  {
    Paired(s.tables.cases, s.tables.quotes) && (events == [] || StaysPaired(Step(s, events[0]), events[1..]))
  }

  lemma LandingIsPairedIffNotTaken(s: Scene, tx: nat)
    requires Indexed(s) && Paired(s.tables.cases, s.tables.quotes)
    ensures var t := Step(s, Land(tx)).tables; Paired(t.cases, t.quotes) <==> !RetiresTaken(s, Land(tx))
  {
    if tx in s.underway {
      var p := s.underway[tx].plan;
      assert PlanAnchored(s.tables, p);
      hide Paired, Indexed, PlanAnchored;
      if Commit(s.tables, p).Ok? {
        RetiredExists(s.tables, p);
        LandingTables(s, tx);
        if Retires(p) {
          RetirementGoesThrough(s.tables, p);
          RetiringIsSafeIffNotTaken(s, tx);
        } else {
          CommitKeepsPairing(s.tables, p);
        }
      } else {
        RetiredExists(s.tables, p);
        if Retires(p) { RetirementGoesThrough(s.tables, p); }
        LandingTables(s, tx);
      }
    }
  }

  lemma RetiredExists(t: Tables, p: Plan)
    requires PlanAnchored(t, p)
    ensures Retires(p) ==> p.quote in t.quotes
  {
  }

  lemma LandingTables(s: Scene, tx: nat)
    requires tx in s.underway
    ensures var r := Commit(s.tables, s.underway[tx].plan);
      Step(s, Land(tx)).tables == if r.Ok? then r.value else s.tables
  {
    hide Commit;
  }

  lemma ReadingTables(s: Scene, tx: nat, user: User, action: Action, now: int)
    ensures Step(s, Begin(tx, user, action, now)).tables == s.tables
  {
    hide Guard;
  }

  /**
   The exact condition, for every interleaving: quotes and bookings stay paired throughout if
   and only if no withdrawal or rejection ever lands on a quote that is accepted by then.
   */
  lemma {:induction false} PairedIffNeverRetiresTaken(s: Scene, events: seq<Event>)
    requires Indexed(s) && Paired(s.tables.cases, s.tables.quotes)
    ensures StaysPaired(s, events) <==> NeverRetiresTaken(s, events)
    decreases |events|
  {
    hide Indexed, Paired, Step, RetiresTaken;
    if events != [] {
      var s' := Step(s, events[0]);
      match events[0] {
        case Begin(tx, user, action, now) =>
          BeginKeepsIndexed(s, tx, user, action, now);
          ReadingTables(s, tx, user, action, now);
          assert !RetiresTaken(s, events[0]) by { ReadsRetireNothing(s, tx, user, action, now); }
        case Land(tx) =>
          LandKeepsIndexed(s, tx);
          LandingIsPairedIffNotTaken(s, tx);
        case BookingWrite(booking, landing) =>
          BookingWriteKeepsIndexed(s, booking, landing);
          BookingWriteKeepsPaired(s, booking, landing);
          assert !RetiresTaken(s, events[0]) by { BookingWritesRetireNothing(s, booking, landing); }
      }
      if !RetiresTaken(s, events[0]) { PairedIffNeverRetiresTaken(s', events[1..]); }
    }
  }

  lemma BookingWritesRetireNothing(s: Scene, booking: nat, landing: Landing)
    ensures !RetiresTaken(s, BookingWrite(booking, landing))
  {
  }

  lemma ReadsRetireNothing(s: Scene, tx: nat, user: User, action: Action, now: int)
    ensures !RetiresTaken(s, Begin(tx, user, action, now))
  {
  }

  // ---- Exactly when a request is booked twice ----------------------------------------------

  /** Accepting makes at most one booking of a request. */
  ghost predicate OnePerRequest(cases: map<nat, Case>) {
    forall b, c ::
      (b in cases && c in cases && cases[b].booking.origin == Accepted && cases[c].booking.origin == Accepted
       && cases[b].booking.request == cases[c].booking.request)
      ==> b == c
  }

  /** What the statements of accepting ask of the rows as they are now. */
  predicate AcceptGoesThrough(t: Tables, p: Plan)
    requires p.Accept?
  {
    && p.quote in t.quotes && p.booking.request in t.requests
    && var row := t.quotes[p.quote].(status := Taken);
    && QuoteChecks(row) && !LiveConflict(t.quotes, p.quote, row) && !AcceptedConflict(t.quotes, p.quote, row)
    && Checks(p.booking) && p.id !in t.cases && !QuoteBooked(t.cases, p.booking.quote)
    && !SlotConflict(t.cases, p.id, p.booking)
  }

  lemma AcceptCommits(t: Tables, p: Plan)
    requires p.Accept?
    ensures Commit(t, p).Ok? <==> AcceptGoesThrough(t, p)
  {
    hide QuoteChecks, LiveConflict, AcceptedConflict, Checks, QuoteBooked, SlotConflict;
  }

  /** A booking made by accepting, on this request, whose quote is accepted no longer. */
  predicate Orphaned(t: Tables, b: nat, request: nat) {
    && b in t.cases && t.cases[b].booking.origin == Accepted && t.cases[b].booking.request == request
    && (t.cases[b].booking.quote in t.quotes ==> t.quotes[t.cases[b].booking.quote].status != Taken)
  }

  /** An acceptance lands on a request that has an orphaned booking. */
  predicate BooksAgain(s: Scene, e: Event) {
    && e.Land? && e.tx in s.underway && s.underway[e.tx].plan.Accept?
    && var p := s.underway[e.tx].plan;
    && AcceptGoesThrough(s.tables, p)
    && exists b :: b in s.tables.cases && Orphaned(s.tables, b, p.booking.request)
  }

  predicate NeverBooksAgain(s: Scene, events: seq<Event>)
    decreases |events|
  {
    events == [] || (!BooksAgain(s, events[0]) && NeverBooksAgain(Step(s, events[0]), events[1..]))
  }

  /** At every moment accepting has made at most one booking of each request. */
  ghost predicate StaysOnePerRequest(s: Scene, events: seq<Event>)
    decreases |events|
  {
    OnePerRequest(s.tables.cases) && (events == [] || StaysOnePerRequest(Step(s, events[0]), events[1..]))
  }

  /** While a request's booking has its quote accepted, the index refuses every other acceptance. */
  lemma IndexGuardsTheBooking(t: Tables, p: Plan, b: nat)
    requires p.Accept? && PlanAnchored(t, p) && Anchored(t) && AcceptGoesThrough(t, p)
    requires b in t.cases && t.cases[b].booking.origin == Accepted && t.cases[b].booking.request == p.booking.request
    ensures Orphaned(t, b, p.booking.request)
  {
    hide QuoteChecks, LiveConflict, Checks, SlotConflict;
    var q := t.cases[b].booking.quote;
    assert q != p.quote;
    assert !AcceptedConflict(t.quotes, p.quote, t.quotes[p.quote].(status := Taken));
  }

  lemma AddedBookingIsOneIff(cases: map<nat, Case>, id: nat, row: Booking)
    requires OnePerRequest(cases) && id !in cases && row.origin == Accepted
    ensures OnePerRequest(cases[id := Case(row, [])])
            <==> !exists b :: b in cases && cases[b].booking.origin == Accepted && cases[b].booking.request == row.request
  {
    var cases' := cases[id := Case(row, [])];
    if b :| b in cases && cases[b].booking.origin == Accepted && cases[b].booking.request == row.request {
      assert cases'[b] == cases[b] && b != id && cases'[id].booking == row;
    }
  }

  lemma RecordingKeepsOne(cases: map<nat, Case>, id: nat, row: Booking)
    requires OnePerRequest(cases) && id !in cases && row.origin != Accepted
    ensures OnePerRequest(cases[id := Case(row, [])])
  {
  }

  lemma LandingBooksOnceIff(s: Scene, tx: nat)
    requires Indexed(s) && OnePerRequest(s.tables.cases)
    ensures OnePerRequest(Step(s, Land(tx)).tables.cases) <==> !BooksAgain(s, Land(tx))
  {
    if tx in s.underway {
      var t, p := s.tables, s.underway[tx].plan;
      assert PlanAnchored(t, p) && Anchored(t);
      hide Indexed, Commit, Step, AcceptGoesThrough, OnePerRequest;
      LandingTables(s, tx);
      if p.Accept? {
        AcceptCommits(t, p);
        if Commit(t, p).Ok? {
          AcceptedBooking(t, p);
          AddedBookingIsOneIff(t.cases, p.id, p.booking);
          forall b | b in t.cases && t.cases[b].booking.origin == Accepted && t.cases[b].booking.request == p.booking.request
            ensures Orphaned(t, b, p.booking.request)
          {
            IndexGuardsTheBooking(t, p, b);
          }
        }
      } else if Commit(t, p).Ok? {
        BookingsAfterCommit(t, p);
        if p.RecordPlan? && p.id !in t.cases { RecordingKeepsOne(t.cases, p.id, p.booking); }
      }
    }
  }

  lemma AcceptedBooking(t: Tables, p: Plan)
    requires p.Accept? && Commit(t, p).Ok?
    ensures p.id !in t.cases && Commit(t, p).value.cases == t.cases[p.id := Case(p.booking, [])]
  {
    hide LiveConflict, AcceptedConflict, SlotConflict, Checks, QuoteBooked;
  }

  lemma BookingWriteKeepsOne(s: Scene, booking: nat, landing: Landing)
    requires OnePerRequest(s.tables.cases)
    ensures OnePerRequest(Step(s, BookingWrite(booking, landing)).tables.cases)
    ensures !BooksAgain(s, BookingWrite(booking, landing))
  {
    hide WriteBooking;
    BookingWriteKeepsIdentity(s.tables.cases, booking, landing);
  }

  lemma ReadsBookNothing(s: Scene, tx: nat, user: User, action: Action, now: int)
    ensures !BooksAgain(s, Begin(tx, user, action, now))
  {
  }

  lemma {:induction false} OneIffNeverBooksAgain(s: Scene, events: seq<Event>)
    requires Indexed(s) && OnePerRequest(s.tables.cases)
    ensures StaysOnePerRequest(s, events) <==> NeverBooksAgain(s, events)
    decreases |events|
  {
    hide Indexed, OnePerRequest, Step, BooksAgain;
    if events != [] {
      var s' := Step(s, events[0]);
      match events[0] {
        case Begin(tx, user, action, now) =>
          BeginKeepsIndexed(s, tx, user, action, now);
          ReadingTables(s, tx, user, action, now);
          ReadsBookNothing(s, tx, user, action, now);
        case Land(tx) =>
          LandKeepsIndexed(s, tx);
          LandingBooksOnceIff(s, tx);
        case BookingWrite(booking, landing) =>
          BookingWriteKeepsIndexed(s, booking, landing);
          BookingWriteKeepsOne(s, booking, landing);
      }
      if !BooksAgain(s, events[0]) { OneIffNeverBooksAgain(s', events[1..]); }
    }
  }

  lemma EmptyIsIndexed()
    ensures Indexed(Scene(EMPTY.tables, map[])) && OnePerRequest(EMPTY.tables.cases)
  {
  }

  /**
   The exact condition, for every interleaving from empty tables, booking calls included:
   accepting never makes two bookings of one request if and only if no acceptance lands on a
   request that has an accept-made booking whose quote is accepted no longer.
   */
  lemma OneBookingIffNeverBooksAgain(events: seq<Event>)
    ensures StaysOnePerRequest(Scene(EMPTY.tables, map[]), events)
            <==> NeverBooksAgain(Scene(EMPTY.tables, map[]), events)
  {
    EmptyIsIndexed();
    OneIffNeverBooksAgain(Scene(EMPTY.tables, map[]), events);
  }

  // ---- The race that books a request twice ---------------------------------------------

  const CUSTOMER := User(1, false, None)
  const BIDDER := User(2, false, Some(10))

  function RaceStart(): Scene {
    var request := Request(1, None, Quoted, None);
    var first := Quote(0, 10, Pending, 500, None, None);
    var second := Quote(0, 11, Pending, 600, None, None);
    Scene(Tables(map[0 := request], map[0 := first, 1 := second], map[]), map[])
  }

  /** The bidder withdraws, and the customer accepts both quotes, each having seen them pending. */
  function RaceEvents(): seq<Event> {
    [Begin(0, BIDDER, ReviseQuote(0, Revision(None, None, None, true)), 5),
     Begin(1, CUSTOMER, AcceptQuote(0, 70, 100), 5),
     Begin(2, CUSTOMER, AcceptQuote(1, 71, 100), 5),
     Land(1), Land(0), Land(2)]
  }

  lemma RunSix(s: Scene, e: seq<Event>)
    requires |e| == 6
    ensures Run(s, e) == Step(Step(Step(Step(Step(Step(s, e[0]), e[1]), e[2]), e[3]), e[4]), e[5])
  {
    hide Step;
    assert e[1..][0] == e[1] && e[1..][1..] == e[2..];
    assert e[2..][0] == e[2] && e[2..][1..] == e[3..];
    assert e[3..][0] == e[3] && e[3..][1..] == e[4..];
    assert e[4..][0] == e[4] && e[4..][1..] == e[5..];
    assert e[5..][0] == e[5] && e[5..][1..] == [];
    var s1 := Step(s, e[0]);
    var s2 := Step(s1, e[1]);
    var s3 := Step(s2, e[2]);
    var s4 := Step(s3, e[3]);
    var s5 := Step(s4, e[4]);
    assert Run(s, e) == Run(s1, e[1..]) == Run(s2, e[2..]) == Run(s3, e[3..]);
    assert Run(s3, e[3..]) == Run(s4, e[4..]) == Run(s5, e[5..]) == Run(Step(s5, e[5]), []);
  }

  const WITHDRAWAL := Revise(0, Revision(None, None, None, true))

  function Won(quote: nat, id: nat, provider: nat, amount: int): Plan {
    Accept(quote, id, Insert(quote, 0, 1, provider, Accepted, 100, None, amount))
  }

  lemma RaceReads()
    ensures var s := RaceStart().tables;
      && Guard(s, BIDDER, ReviseQuote(0, Revision(None, None, None, true)), 5) == Ok(WITHDRAWAL)
      && Guard(s, CUSTOMER, AcceptQuote(0, 70, 100), 5) == Ok(Won(0, 70, 10, 500))
      && Guard(s, CUSTOMER, AcceptQuote(1, 71, 100), 5) == Ok(Won(1, 71, 11, 600))
  {
  }

  /** The tables after the first acceptance has landed. */
  function RaceWon(): Tables {
    var t := RaceStart().tables;
    Tables(
      t.requests[0 := t.requests[0].(status := Booked)],
      t.quotes[0 := t.quotes[0].(status := Taken)][1 := t.quotes[1].(status := Rejected)],
      map[70 := Case(Won(0, 70, 10, 500).booking, [])])
  }

  lemma FirstAcceptLands()
    ensures Commit(RaceStart().tables, Won(0, 70, 10, 500)) == Ok(RaceWon())
  {
    var t := RaceStart().tables;
    var quotes := SaveQuote(t.quotes, 0, t.quotes[0].(status := Taken)).value;
    assert RejectSiblings(quotes, 0, 0) == RaceWon().quotes;
  }

  lemma WithdrawalLands()
    ensures Commit(RaceWon(), WITHDRAWAL) == Ok(RaceWithdrawn())
  {
  }

  function RaceWithdrawn(): Tables {
    var t := RaceWon();
    t.(quotes := t.quotes[0 := t.quotes[0].(status := Withdrawn)])
  }

  lemma SecondAcceptLands()
    ensures var r := Commit(RaceWithdrawn(), Won(1, 71, 11, 600));
      && r.Ok? && 71 in r.value.cases && r.value.cases[71].booking == Won(1, 71, 11, 600).booking
      && 70 in r.value.cases && r.value.cases[70] == RaceWithdrawn().cases[70]
      && 0 in r.value.quotes && r.value.quotes[0].status == Withdrawn
  {
    var t := RaceWithdrawn();
    assert SaveQuote(t.quotes, 1, t.quotes[1].(status := Taken)).Ok?;
    assert SaveBooking(t.cases, 71, Won(1, 71, 11, 600).booking).Ok?;
  }

  lemma RaceStartIsCoherent()
    ensures Coherent(RaceStart())
  {
  }

  lemma LandingShape(s: Scene, tx: nat)
    requires tx in s.underway && Commit(s.tables, s.underway[tx].plan).Ok?
    ensures Step(s, Land(tx)).tables == Commit(s.tables, s.underway[tx].plan).value
    ensures forall x :: x in s.underway && x != tx ==>
                          x in Step(s, Land(tx)).underway && Step(s, Land(tx)).underway[x].plan == s.underway[x].plan
  {
    hide Commit;
  }

  lemma ReadingShape(s: Scene, tx: nat, user: User, action: Action, now: int)
    requires QuoteWork(action) && Guard(s.tables, user, action, now).Ok?
    ensures Step(s, Begin(tx, user, action, now))
            == s.(underway := s.underway[tx := Underway(Guard(s.tables, user, action, now).value, false)])
  {
    hide Guard;
  }

  lemma WithdrawalAcrossAcceptBooksTwice()
    ensures var t := Run(RaceStart(), RaceEvents()).tables;
      && 70 in t.cases && 71 in t.cases
      && t.cases[70].booking.request == t.cases[71].booking.request == 0
      && t.cases[70].booking.origin == t.cases[71].booking.origin == Accepted
      && 0 in t.quotes && t.quotes[0].status == Withdrawn
  {
    hide Guard, Commit, Step, Run, RaceStart;
    var s, e := RaceStart(), RaceEvents();
    RunSix(s, e);
    RaceReads();
    FirstAcceptLands();
    WithdrawalLands();
    SecondAcceptLands();
    ReadingShape(s, 0, e[0].user, e[0].action, 5);
    var s1 := Step(s, e[0]);
    ReadingShape(s1, 1, e[1].user, e[1].action, 5);
    var s2 := Step(s1, e[1]);
    ReadingShape(s2, 2, e[2].user, e[2].action, 5);
    var s3 := Step(s2, e[2]);
    LandingShape(s3, 1);
    var s4 := Step(s3, e[3]);
    LandingShape(s4, 0);
    var s5 := Step(s4, e[4]);
    LandingShape(s5, 2);
  }
}
