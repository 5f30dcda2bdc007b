/**
 Requests, quotes and the bookings they lead to. Every call is a read phase, which runs
 the service's guards and decides what to write, and a write phase, which the unique
 indexes check against the rows as they then are. Here a call runs both at once.
 */
module Market {
  import opened Common
  import opened Bookings

  datatype RequestStatus = Draft | OpenForQuotes | Quoted | QuoteAccepted | Booked | Cancelled | Expired | Closed

  datatype Request = Request(customer: nat, addressee: Option<nat>, status: RequestStatus, expiresAt: Option<int>)

  datatype QuoteStatus = Pending | Taken | Rejected | Withdrawn | Lapsed

  datatype Quote = Quote(
    request: nat, provider: nat, status: QuoteStatus, amount: int, duration: Option<int>, validUntil: Option<int>)

  /** What sending a quote asks of the provider row. */
  datatype Standing = Standing(suspended: bool, approved: bool)

  datatype Tables = Tables(requests: map<nat, Request>, quotes: map<nat, Quote>, cases: map<nat, Case>)

  datatype Problem =
    | NoProviderProfile | ProviderNotFound | ProviderSuspended | ProviderNotVerified
    | RequestNotFound | RequestNotForYou | RequestNotOpen | RequestExpired | QuoteAlreadySent
    | InvalidRequestTransition | NotAllowedToMoveRequest
    | QuoteNotFound | NotQuoteOwner | NotRequestOwner | QuoteNotPending | QuoteExpired | StartInPast
    | UseQuoteAccept | NoSuchBooking | BookingProblem(error: Error)
    | DuplicateKey | LiveQuoteIndex | AcceptedQuoteIndex | BookingQuoteKey | SlotTaken | FailedCheck

  const MINUTE := 60_000
  const WEEK := 7 * 86_400_000
  const FORTNIGHT := 14 * 86_400_000

  datatype Revision = Revision(amount: Option<nat>, duration: Option<nat>, validUntil: Option<int>, withdraw: bool)

  datatype Action =
    | PostRequest(id: nat, addressee: Option<nat>)
    | MoveRequest(request: nat, to: RequestStatus)
    | SendQuote(id: nat, standing: Option<Standing>, request: nat, price: nat, duration: Option<nat>, validUntil: Option<int>)
    | ReviseQuote(quote: nat, change: Revision)
    | AcceptQuote(quote: nat, booking: nat, start: int)
    | RejectQuote(quote: nat)
    | RecordBooking(quote: nat, booking: nat, start: int)
    | BookingCall(booking: nat, call: Call)

  /** What the read phase has settled: the rows to write, with the values it read. */
  datatype Plan =
    | Insert_(id: nat, row: Request)
    | Move(request: nat, to: RequestStatus)
    | Send(id: nat, offer: Quote)
    | Revise(quote: nat, change: Revision)
    | Accept(quote: nat, id: nat, booking: Booking)
    | Reject(quote: nat)
    | RecordPlan(id: nat, booking: Booking)
    | Advance(id: nat, c: Case)

  // ---- Read phase ---------------------------------------------------------------

  predicate HasQuoted(t: Tables, provider: nat, request: nat) {
    exists q :: q in t.quotes && t.quotes[q].request == request && t.quotes[q].provider == provider
  }

  predicate SeesRequest(t: Tables, user: User, request: nat) {
    && request in t.requests
    && (user.admin || t.requests[request].customer == user.id
        || (user.provider.Some? && (t.requests[request].addressee == user.provider
                                    || HasQuoted(t, user.provider.value, request))))
  }

  predicate SeesQuote(t: Tables, user: User, quote: nat) {
    && quote in t.quotes
    && (user.admin || user.provider == Some(t.quotes[quote].provider)
        || (t.quotes[quote].request in t.requests && t.requests[t.quotes[quote].request].customer == user.id))
  }

  predicate TakesQuotes(s: RequestStatus) {
    s == OpenForQuotes || s == Quoted
  }

  predicate Live(s: QuoteStatus) {
    s == Pending || s == Taken
  }

  /** open_service_request_feed: broadcast, open or quoted, not expired. */
  predicate InFeed(t: Tables, request: nat, now: int) {
    && request in t.requests
    && var r := t.requests[request];
    && r.addressee.None? && TakesQuotes(r.status) && (r.expiresAt.Some? ==> r.expiresAt.value > now)
  }

  function MayQuote(t: Tables, user: User, request: nat, now: int): Option<Problem>
    requires user.provider.Some?
  {
    if SeesRequest(t, user, request) then
      var r := t.requests[request];
      if r.addressee.Some? && r.addressee != user.provider then Some(RequestNotForYou)
      else if !TakesQuotes(r.status) then Some(RequestNotOpen)
      else if r.expiresAt.Some? && r.expiresAt.value <= now then Some(RequestExpired)
      else None
    else if InFeed(t, request, now) then None
    else Some(RequestNotFound)
  }

  /** TRANSITIONS of a request. */
  function MayMove(from: RequestStatus, to: RequestStatus): set<Actor> {
    match (from, to)
    case (Draft, OpenForQuotes) => {Customer, Admin}
    case (Draft, Cancelled) => {Customer, Admin}
    case (OpenForQuotes, Quoted) => {Provider, Admin}
    case (OpenForQuotes, Cancelled) => {Customer, Admin}
    case (OpenForQuotes, Expired) => {Admin}
    case (Quoted, QuoteAccepted) => {Customer, Admin}
    case (Quoted, Cancelled) => {Customer, Admin}
    case (Quoted, Expired) => {Admin}
    case (QuoteAccepted, Booked) => {Customer, Admin}
    case (QuoteAccepted, Cancelled) => {Customer, Admin}
    case (Booked, Closed) => {Customer, Provider, Admin}
    case _ => {}
  }

  function RequestActor(user: User, r: Request): Actor {
    if user.admin then Admin else if r.customer == user.id then Customer else Provider
  }

  function GuardMove(t: Tables, user: User, request: nat, to: RequestStatus): Result<Plan, Problem> {
    if !SeesRequest(t, user, request) then Err(RequestNotFound)
    else
      var allowed := MayMove(t.requests[request].status, to);
      if allowed == {} then Err(InvalidRequestTransition)
      else if RequestActor(user, t.requests[request]) !in allowed then Err(NotAllowedToMoveRequest)
      else Ok(Move(request, to))
  }

  predicate HasLiveQuote(t: Tables, provider: nat, request: nat) {
    exists q :: q in t.quotes && t.quotes[q].request == request && t.quotes[q].provider == provider
                && Live(t.quotes[q].status)
  }

  function GuardSend(t: Tables, user: User, id: nat, standing: Option<Standing>, request: nat, price: nat,
                     duration: Option<nat>, validUntil: Option<int>, now: int): Result<Plan, Problem>
  {
    if user.provider.None? then Err(NoProviderProfile)
    else if standing.None? then Err(ProviderNotFound)
    else if standing.value.suspended then Err(ProviderSuspended)
    else if !standing.value.approved then Err(ProviderNotVerified)
    else
      var refused := MayQuote(t, user, request, now);
      if refused.Some? then Err(refused.value)
      else if HasLiveQuote(t, user.provider.value, request) then Err(QuoteAlreadySent)
      else
        Ok(Send(id, Quote(request, user.provider.value, Pending, price,
                          if duration.Some? then Some(duration.value) else None,
                          Some(if validUntil.Some? then validUntil.value else now + WEEK))))
  }

  function GuardRevise(t: Tables, user: User, quote: nat, change: Revision): Result<Plan, Problem> {
    if !SeesQuote(t, user, quote) then Err(QuoteNotFound)
    else if !user.admin && user.provider != Some(t.quotes[quote].provider) then Err(NotQuoteOwner)
    else if t.quotes[quote].status != Pending then Err(QuoteNotPending)
    else Ok(Revise(quote, change))
  }

  /** The customer's decisions share their first three guards. */
  function GuardDecision(t: Tables, user: User, quote: nat): Option<Problem> {
    if !SeesQuote(t, user, quote) || t.quotes[quote].request !in t.requests then Some(QuoteNotFound)
    else if !user.admin && t.requests[t.quotes[quote].request].customer != user.id then Some(NotRequestOwner)
    else if t.quotes[quote].status != Pending then Some(QuoteNotPending)
    else None
  }

  /** An absent or zero duration leaves the end open. */
  function EndOf(q: Quote, start: int): Option<int> {
    if q.duration.Some? && q.duration.value != 0 then Some(start + q.duration.value * MINUTE) else None
  }

  function BookingFor(t: Tables, quote: nat, origin: Origin, start: int, end: Option<int>): Booking
    requires quote in t.quotes && t.quotes[quote].request in t.requests
  {
    var q := t.quotes[quote];
    Insert(quote, q.request, t.requests[q.request].customer, q.provider, origin, start, end, q.amount)
  }

  function GuardAccept(t: Tables, user: User, quote: nat, booking: nat, start: int, now: int): Result<Plan, Problem> {
    var refused := GuardDecision(t, user, quote);
    if refused.Some? then Err(refused.value)
    else
      var q := t.quotes[quote];
      if q.validUntil.Some? && q.validUntil.value <= now then Err(QuoteExpired)
      else if start <= now then Err(StartInPast)
      else Ok(Accept(quote, booking, BookingFor(t, quote, Accepted, start, EndOf(q, start))))
  }

  function GuardReject(t: Tables, user: User, quote: nat): Result<Plan, Problem> {
    var refused := GuardDecision(t, user, quote);
    if refused.Some? then Err(refused.value) else Ok(Reject(quote))
  }

  function GuardRecord(t: Tables, user: User, quote: nat, booking: nat, start: int): Result<Plan, Problem> {
    if !user.admin then Err(UseQuoteAccept)
    else if quote !in t.quotes || t.quotes[quote].request !in t.requests then Err(QuoteNotFound)
    else Ok(RecordPlan(booking, BookingFor(t, quote, Recorded, start, None)))
  }

  function GuardCall(t: Tables, booking: nat, call: Call, now: int): Result<Plan, Problem> {
    if booking !in t.cases then Err(NoSuchBooking)
    else
      var r := Attempt(t.cases[booking], call, now);
      if r.Ok? then Ok(Advance(booking, r.value)) else Err(BookingProblem(r.error))
  }

  function Guard(t: Tables, user: User, a: Action, now: int): Result<Plan, Problem> {
    match a
    case PostRequest(id, addressee) =>
      Ok(Insert_(id, Request(user.id, addressee, OpenForQuotes, Some(now + FORTNIGHT))))
    case MoveRequest(request, to) => GuardMove(t, user, request, to)
    case SendQuote(id, standing, request, price, duration, validUntil) =>
      GuardSend(t, user, id, standing, request, price, duration, validUntil, now)
    case ReviseQuote(quote, change) => GuardRevise(t, user, quote, change)
    case AcceptQuote(quote, booking, start) => GuardAccept(t, user, quote, booking, start, now)
    case RejectQuote(quote) => GuardReject(t, user, quote)
    case RecordBooking(quote, booking, start) => GuardRecord(t, user, quote, booking, start)
    case BookingCall(booking, call) => GuardCall(t, booking, call, now)
  }

  // ---- Write phase --------------------------------------------------------------

  /** quotes_one_live_per_provider_per_request would refuse this row. */
  predicate LiveConflict(quotes: map<nat, Quote>, id: nat, row: Quote) {
    Live(row.status) && exists q :: q in quotes && q != id && Live(quotes[q].status)
                                    && quotes[q].request == row.request && quotes[q].provider == row.provider
  }

  /** quotes_one_accepted_per_request would refuse this row. */
  predicate AcceptedConflict(quotes: map<nat, Quote>, id: nat, row: Quote) {
    row.status == Taken && exists q :: q in quotes && q != id && quotes[q].status == Taken
                                       && quotes[q].request == row.request
  }

  predicate QuoteChecks(q: Quote) {
    q.amount > 0 && (q.duration.Some? ==> q.duration.value > 0)
  }

  function SaveQuote(quotes: map<nat, Quote>, id: nat, row: Quote): Result<map<nat, Quote>, Problem> {
    if !QuoteChecks(row) then Err(FailedCheck)
    else if LiveConflict(quotes, id, row) then Err(LiveQuoteIndex)
    else if AcceptedConflict(quotes, id, row) then Err(AcceptedQuoteIndex)
    else Ok(quotes[id := row])
  }

  /** Accepting turns every other pending quote on the request down. */
  function RejectSiblings(quotes: map<nat, Quote>, id: nat, request: nat): (r: map<nat, Quote>)
    ensures r.Keys == quotes.Keys
    ensures forall q :: q in r ==> r[q] == if q != id && quotes[q].request == request && quotes[q].status == Pending
                                           then quotes[q].(status := Rejected) else quotes[q]
  {
    map q | q in quotes :: if q != id && quotes[q].request == request && quotes[q].status == Pending
                           then quotes[q].(status := Rejected) else quotes[q]
  }

  predicate HoldsSlot(b: Booking) {
    b.status == PendingConfirmation || b.status == Confirmed || b.status == InProgress
  }

  /** bookings_provider_slot_unique would refuse this row. */
  predicate SlotConflict(cases: map<nat, Case>, id: nat, row: Booking) {
    HoldsSlot(row) && exists b :: b in cases && b != id && HoldsSlot(cases[b].booking)
                                  && cases[b].booking.provider == row.provider
                                  && cases[b].booking.scheduledStart == row.scheduledStart
  }

  predicate QuoteBooked(cases: map<nat, Case>, quote: nat) {
    exists b :: b in cases && cases[b].booking.quote == quote
  }

  function SaveBooking(cases: map<nat, Case>, id: nat, row: Booking): Result<map<nat, Case>, Problem> {
    if !Checks(row) then Err(FailedCheck)
    else if id in cases then Err(DuplicateKey)
    else if QuoteBooked(cases, row.quote) then Err(BookingQuoteKey)
    else if SlotConflict(cases, id, row) then Err(SlotTaken)
    else Ok(cases[id := Case(row, [])])
  }

  /** Only the fields given; a provider's own status change is always a withdrawal. */
  function Revised(q: Quote, c: Revision): Quote {
    q.(amount := if c.amount.Some? then c.amount.value else q.amount,
       duration := if c.duration.Some? then Some(c.duration.value) else q.duration,
       validUntil := if c.validUntil.Some? then c.validUntil else q.validUntil,
       status := if c.withdraw then Withdrawn else q.status)
  }

  function WriteSend(t: Tables, id: nat, offer: Quote): Result<Tables, Problem> {
    if id in t.quotes then Err(DuplicateKey)
    else
      var quotes := SaveQuote(t.quotes, id, offer);
      if quotes.Err? then Err(quotes.error)
      else Ok(t.(quotes := quotes.value, requests := MarkQuoted(t.requests, offer.request)))
  }

  function WriteQuote(t: Tables, quote: nat, row: Quote): Result<Tables, Problem> {
    var quotes := SaveQuote(t.quotes, quote, row);
    if quotes.Err? then Err(quotes.error) else Ok(t.(quotes := quotes.value))
  }

  /** The statements of accepting, in order; any refusal rolls all of them back. */
  function WriteAccept(t: Tables, quote: nat, id: nat, booking: Booking): Result<Tables, Problem> {
    if quote !in t.quotes || booking.request !in t.requests then Err(QuoteNotFound)
    else
      var quotes := SaveQuote(t.quotes, quote, t.quotes[quote].(status := Taken));
      if quotes.Err? then Err(quotes.error)
      else
        var cases := SaveBooking(t.cases, id, booking);
        if cases.Err? then Err(cases.error)
        else Ok(Tables(
                  t.requests[booking.request := t.requests[booking.request].(status := Booked)],
                  RejectSiblings(quotes.value, quote, booking.request),
                  cases.value))
  }

  function WriteRecord(t: Tables, id: nat, booking: Booking): Result<Tables, Problem> {
    var cases := SaveBooking(t.cases, id, booking);
    if cases.Err? then Err(cases.error) else Ok(t.(cases := cases.value))
  }

  function Commit(t: Tables, p: Plan): Result<Tables, Problem> {
    match p
    case Insert_(id, row) =>
      if id in t.requests then Err(DuplicateKey) else Ok(t.(requests := t.requests[id := row]))
    case Move(request, to) =>
      if request !in t.requests then Err(RequestNotFound)
      else Ok(t.(requests := t.requests[request := t.requests[request].(status := to)]))
    case Send(id, offer) => WriteSend(t, id, offer)
    case Revise(quote, change) =>
      if quote !in t.quotes then Err(QuoteNotFound) else WriteQuote(t, quote, Revised(t.quotes[quote], change))
    case Accept(quote, id, booking) => WriteAccept(t, quote, id, booking)
    case Reject(quote) =>
      if quote !in t.quotes then Err(QuoteNotFound)
      else WriteQuote(t, quote, t.quotes[quote].(status := Rejected))
    case RecordPlan(id, booking) => WriteRecord(t, id, booking)
    case Advance(id, c) =>
      if SlotConflict(t.cases, id, c.booking) then Err(SlotTaken)
      else Ok(t.(cases := t.cases[id := c]))
  }

  function MarkQuoted(requests: map<nat, Request>, request: nat): map<nat, Request> {
    if request in requests && requests[request].status == OpenForQuotes
    then requests[request := requests[request].(status := Quoted)]
    else requests
  }

  function Perform(t: Tables, user: User, a: Action, now: int): Result<Tables, Problem> {
    var plan := Guard(t, user, a, now);
    if plan.Err? then Err(plan.error) else Commit(t, plan.value)
  }
}
