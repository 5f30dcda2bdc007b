/**
 One booking row, its status trail and its disputes: the lifecycle edges, the CHECKs
 on the row, the trigger that writes the trail, and every service call that moves it.
 Calls of the last section run one after another; the first part allows any interleaving.
 */
module Bookings {
  import opened Common

  datatype Status =
    | PendingConfirmation | Confirmed | InProgress | Completed
    | CancelledByCustomer | CancelledByProvider
    | NoShowCustomer | NoShowProvider
    | Disputed

  datatype Actor = Customer | Provider | Admin

  /** TRANSITIONS: who may move a booking along an edge. Nobody means no such edge. */
  function Allowed(from: Status, to: Status): set<Actor> {
    match (from, to)
    case (PendingConfirmation, Confirmed) => {Provider, Admin}
    case (PendingConfirmation, CancelledByCustomer) => {Customer, Admin}
    case (PendingConfirmation, CancelledByProvider) => {Provider, Admin}
    case (Confirmed, InProgress) => {Provider, Admin}
    case (Confirmed, CancelledByCustomer) => {Customer, Admin}
    case (Confirmed, CancelledByProvider) => {Provider, Admin}
    case (Confirmed, NoShowCustomer) => {Provider, Admin}
    case (Confirmed, NoShowProvider) => {Customer, Admin}
    case (InProgress, Completed) => {Provider, Admin}
    case (InProgress, Disputed) => {Customer, Provider, Admin}
    case (Completed, Disputed) => {Customer, Admin}
    case (Disputed, Completed) => {Admin}
    case (Disputed, CancelledByCustomer) => {Admin}
    case (Disputed, CancelledByProvider) => {Admin}
    case _ => {}
  }

  /** A row of booking_status_history. */
  datatype Entry = Entry(from: Option<Status>, to: Status)

  /** Accepting a quote makes a booking; an administrator may also record one. */
  datatype Origin = Accepted | Recorded

  datatype Booking = Booking(
    quote: nat,
    request: nat,
    customer: nat,
    provider: nat,
    origin: Origin,
    status: Status,
    scheduledStart: int,
    scheduledEnd: Option<int>,
    actualStart: Option<int>,
    actualEnd: Option<int>,
    totalAmount: int,
    contactReleasedAt: Option<int>,
    cancelledAt: Option<int>,
    cancelledBy: Option<nat>,
    completedAt: Option<int>,
    trail: seq<Entry>)

  /** The CHECK constraints on the bookings table, in order. */
  predicate Checks(b: Booking) {
    && b.totalAmount >= 0
    && (b.scheduledEnd.Some? ==> b.scheduledEnd.value > b.scheduledStart)
    && (b.actualEnd.Some? && b.actualStart.Some? ==> b.actualEnd.value >= b.actualStart.value)
    && (b.contactReleasedAt.Some? ==> b.status != PendingConfirmation)
    && (b.status in {CancelledByCustomer, CancelledByProvider} ==> b.cancelledAt.Some? && b.cancelledBy.Some?)
    && (b.status == Completed ==> b.completedAt.Some?)
  }

  /** The INSERT, with the trigger's first trail entry. */
  function Insert(
    quote: nat, request: nat, customer: nat, provider: nat, origin: Origin,
    start: int, end: Option<int>, amount: int): Booking
  {
    Booking(quote, request, customer, provider, origin, PendingConfirmation, start, end, None, None, amount,
            None, None, None, None, [Entry(None, PendingConfirmation)])
  }

  /** Writing a status, with the trigger's trail entry when it differs. */
  function SetStatus(b: Booking, to: Status): Booking {
    b.(status := to, trail := Lengthened(b.trail, b.status, to))
  }

  function Lengthened(trail: seq<Entry>, from: Status, to: Status): seq<Entry> {
    if from == to then trail else trail + [Entry(Some(from), to)]
  }

  // ---- Writes, under any interleaving ----------------------------------------

  /** What the services' UPDATE statements set, whatever was read beforehand. */
  datatype Write =
    | Confirm(at: int)
    | Start(at: int)
    | Cancel(byProvider: bool, who: nat, at: int)
    | Complete(at: int, finalAmount: Option<int>)
    | Dispute
    | Reschedule(start: Option<int>, end: Option<int>)

  function Update(b: Booking, w: Write): Booking {
    match w
    case Confirm(at) => SetStatus(b, Confirmed).(contactReleasedAt := Some(at))
    case Start(at) => SetStatus(b, InProgress).(actualStart := Some(at))
    case Cancel(byProvider, who, at) =>
      SetStatus(b, if byProvider then CancelledByProvider else CancelledByCustomer)
      .(cancelledBy := Some(who), cancelledAt := Some(at))
    case Complete(at, finalAmount) =>
      var done := SetStatus(b, Completed).(completedAt := Some(at), actualEnd := Some(at));
      if finalAmount.Some? then done.(totalAmount := finalAmount.value) else done
    case Dispute => SetStatus(b, Disputed)
    case Reschedule(start, end) =>
      b.(scheduledStart := if start.Some? then start.value else b.scheduledStart, scheduledEnd := end)
  }

  /** Ruling on a dispute sets completedAt but, unlike completing, no actualEnd. */
  function Rule(b: Booking, refund: bool, admin: nat, at: int): Booking {
    if refund then Update(b, Cancel(true, admin, at))
    else SetStatus(b, Completed).(completedAt := Some(at))
  }

  datatype Landing = Landed(write: Write) | Ruled(refund: bool, admin: nat, at: int)

  function Moved(b: Booking, l: Landing): Booking {
    match l
    case Landed(w) => Update(b, w)
    case Ruled(refund, admin, at) => Rule(b, refund, admin, at)
  }

  /** A write reaches the row as it is now; a CHECK may send it back. */
  function Land(b: Booking, l: Landing): Booking {
    var target := Moved(b, l);
    if Checks(target) then target else b
  }

  function LandAll(b: Booking, ls: seq<Landing>): Booking
    decreases |ls|
  {
    if ls == [] then b else LandAll(Land(b, ls[0]), ls[1..])
  }

  /** The trail starts from nothing, links up, never stands still, and ends at the status. */
  ghost predicate IsChain(trail: seq<Entry>, status: Status) {
    && trail != [] && trail[0].from == None
    && (forall i :: 0 < i < |trail| ==> trail[i].from == Some(trail[i - 1].to) && trail[i - 1].to != trail[i].to)
    && trail[|trail| - 1].to == status
  }

  ghost predicate Passed(trail: seq<Entry>, s: Status) {
    exists i :: 0 <= i < |trail| && trail[i].to == s
  }

  /** booking_contact_for_provider shows the exact address only once contact is released. */
  predicate AddressRevealed(b: Booking) {
    b.contactReleasedAt.Some?
  }

  ghost predicate TrailInv(b: Booking) {
    && IsChain(b.trail, b.status)
    && (AddressRevealed(b) <==> Passed(b.trail, Confirmed))
    && Checks(b)
  }

  function Destination(b: Booking, l: Landing): Status {
    match l
    case Landed(Confirm(_)) => Confirmed
    case Landed(Start(_)) => InProgress
    case Landed(Cancel(byProvider, _, _)) => if byProvider then CancelledByProvider else CancelledByCustomer
    case Landed(Complete(_, _)) => Completed
    case Landed(Dispute) => Disputed
    case Landed(Reschedule(_, _)) => b.status
    case Ruled(refund, _, _) => if refund then CancelledByProvider else Completed
  }

  lemma MovedShape(b: Booking, l: Landing)
    ensures Moved(b, l).status == Destination(b, l)
    ensures Moved(b, l).trail == Lengthened(b.trail, b.status, Destination(b, l))
    ensures AddressRevealed(Moved(b, l)) <==> AddressRevealed(b) || (l.Landed? && l.write.Confirm?)
    ensures l.Landed? && l.write.Confirm? ==> Destination(b, l) == Confirmed
    ensures Destination(b, l) == Confirmed ==> (l.Landed? && l.write.Confirm?) || b.status == Confirmed
  {
  }

  lemma LengthenedIsChain(trail: seq<Entry>, from: Status, to: Status)
    requires IsChain(trail, from)
    ensures IsChain(Lengthened(trail, from, to), to)
    ensures forall s :: Passed(Lengthened(trail, from, to), s) <==> Passed(trail, s) || s == to
  {
    var n, t := |trail|, Lengthened(trail, from, to);
    assert forall i :: 0 <= i < n ==> t[i] == trail[i];
    assert t[|t| - 1].to == to;
    forall s ensures Passed(t, s) <==> Passed(trail, s) || s == to {
      if Passed(trail, s) {
        var i :| 0 <= i < n && trail[i].to == s;
        assert t[i].to == s;
      }
    }
  }

  lemma LandKeepsTrail(b: Booking, l: Landing)
    requires TrailInv(b)
    ensures TrailInv(Land(b, l))
  {
    MovedShape(b, l);
    LengthenedIsChain(b.trail, b.status, Destination(b, l));
    assert Passed(b.trail, b.status);
  }

  /**
   Whatever stale reads led to the writes, and in whatever order they land: the trail, in the
   order its rows are written, is the booking's path, and the provider sees the address iff the path passed Confirmed.
   */
  lemma {:induction false} TrailIsThePath(b: Booking, ls: seq<Landing>)
    requires TrailInv(b)
    ensures TrailInv(LandAll(b, ls))
    decreases |ls|
  {
    if ls != [] {
      LandKeepsTrail(b, ls[0]);
      TrailIsThePath(Land(b, ls[0]), ls[1..]);
    }
  }

  lemma InsertStartsATrail(
    quote: nat, request: nat, customer: nat, provider: nat, origin: Origin,
    start: int, end: Option<int>, amount: int)
    requires amount >= 0 && (end.Some? ==> end.value > start)
    ensures TrailInv(Insert(quote, request, customer, provider, origin, start, end, amount))
  {
  }

  // ---- Serial calls -----------------------------------------------------------

  datatype DisputeStatus =
    | Open | UnderReview | AwaitingCustomer | AwaitingProvider | Escalated
    | ResolvedRefund | ResolvedPartialRefund | ResolvedNoAction

  predicate IsOpen(d: DisputeStatus) {
    d in {Open, UnderReview, AwaitingCustomer, AwaitingProvider, Escalated}
  }

  /** A booking with the disputes raised on it, oldest first. */
  datatype Case = Case(booking: Booking, disputes: seq<DisputeStatus>)

  datatype Ruling = Refund | PartialRefund | NoAction

  function Ruled_(r: Ruling): DisputeStatus {
    match r
    case Refund => ResolvedRefund
    case PartialRefund => ResolvedPartialRefund
    case NoAction => ResolvedNoAction
  }

  datatype Error =
    | BookingNotFound | InvalidStatusTransition | NotAllowedToTransition
    | BookingNotReschedulable | ScheduleInPast | ScheduleEndsBeforeItStarts
    | BookingNotDisputable | DisputeAlreadyOpen | DisputeNotFound
    | ConstraintViolation

  datatype Call =
    | ConfirmCall(user: User)
    | StartCall(user: User)
    | CancelCall(user: User)
    | CompleteCall(user: User, finalAmount: Option<nat>)
    | RescheduleCall(user: User, start: Option<int>, end: Option<int>)
    | DisputeCall(user: User)
    | ResolveCall(admin: nat, dispute: nat, ruling: Ruling)

  /** Row level security hides a booking from everybody but its parties and admins. */
  function ActorOn(b: Booking, user: User): Option<Actor> {
    if user.admin then Some(Admin)
    else if b.customer == user.id then Some(Customer)
    else if user.provider == Some(b.provider) then Some(Provider)
    else None
  }

  /** assertTransition, then the write it guards. */
  function Guarded(c: Case, user: User, to: Status, w: Write): Result<Case, Error> {
    var refusal := Refusal(c.booking, user, to);
    if refusal.Some? then Err(refusal.value) else Ok(c.(booking := Update(c.booking, w)))
  }

  function Refusal(b: Booking, user: User, to: Status): Option<Error> {
    var actor := ActorOn(b, user);
    if actor.None? then Some(BookingNotFound)
    else if Allowed(b.status, to) == {} then Some(InvalidStatusTransition)
    else if actor.value !in Allowed(b.status, to) then Some(NotAllowedToTransition)
    else None
  }

  function CancelTarget(b: Booking, user: User): Status {
    if ActorOn(b, user) == Some(Provider) then CancelledByProvider else CancelledByCustomer
  }

  function Rescheduled(c: Case, user: User, start: Option<int>, end: Option<int>, now: int): Result<Case, Error> {
    var b := c.booking;
    if ActorOn(b, user).None? then Err(BookingNotFound)
    else if b.status != PendingConfirmation && b.status != Confirmed then Err(BookingNotReschedulable)
    else if start.Some? && start.value <= now then Err(ScheduleInPast)
    else
      var nextStart := if start.Some? then start.value else b.scheduledStart;
      var nextEnd :=
        if end.Some? then end
        else if start.Some? && b.scheduledEnd.Some? then Some(nextStart + (b.scheduledEnd.value - b.scheduledStart))
        else b.scheduledEnd;
      if nextEnd.Some? && nextEnd.value <= nextStart then Err(ScheduleEndsBeforeItStarts)
      else Ok(c.(booking := Update(b, Reschedule(start, nextEnd))))
  }

  predicate Disputable(s: Status) {
    s == InProgress || s == Completed || s == NoShowCustomer || s == NoShowProvider
  }

  function DisputeRaised(c: Case, user: User): Result<Case, Error> {
    var b := c.booking;
    if ActorOn(b, user).None? then Err(BookingNotFound)
    else if !Disputable(b.status) then Err(BookingNotDisputable)
    else if OpenCount(c.disputes) > 0 then Err(DisputeAlreadyOpen)
    else
      Ok(Case(
           if b.status == NoShowCustomer || b.status == NoShowProvider then b else Update(b, Dispute),
           c.disputes + [Open]))
  }

  function DisputeResolved(c: Case, admin: nat, dispute: nat, ruling: Ruling, now: int): Result<Case, Error> {
    if dispute >= |c.disputes| then Err(DisputeNotFound)
    else
      Ok(Case(
           if c.booking.status == Disputed then Rule(c.booking, ruling == Refund, admin, now) else c.booking,
           c.disputes[dispute := Ruled_(ruling)]))
  }

  function OpenCount(disputes: seq<DisputeStatus>): nat {
    if disputes == [] then 0
    else OpenCount(disputes[..|disputes| - 1]) + if IsOpen(disputes[|disputes| - 1]) then 1 else 0
  }

  /** What a call's guards and statements would leave, before the database has its say. */
  function Target(c: Case, call: Call, now: int): Result<Case, Error> {
    match call
    case ConfirmCall(user) => Guarded(c, user, Confirmed, Confirm(now))
    case StartCall(user) => Guarded(c, user, InProgress, Start(now))
    case CancelCall(user) =>
      var to := CancelTarget(c.booking, user);
      Guarded(c, user, to, Cancel(to == CancelledByProvider, user.id, now))
    case CompleteCall(user, finalAmount) =>
      Guarded(c, user, Completed, Complete(now, if finalAmount.Some? then Some(finalAmount.value) else None))
    case RescheduleCall(user, start, end) => Rescheduled(c, user, start, end, now)
    case DisputeCall(user) => DisputeRaised(c, user)
    case ResolveCall(admin, dispute, ruling) => DisputeResolved(c, admin, dispute, ruling, now)
  }

  /** CHECKs on the row and disputes_one_open_per_booking. */
  predicate DatabaseAccepts(c: Case) {
    Checks(c.booking) && OpenCount(c.disputes) <= 1
  }

  function Attempt(c: Case, call: Call, now: int): Result<Case, Error> {
    var t := Target(c, call, now);
    if t.Ok? && !DatabaseAccepts(t.value) then Err(ConstraintViolation) else t
  }

  ghost predicate LegalPath(trail: seq<Entry>) {
    forall i :: 0 < i < |trail| ==> Allowed(trail[i - 1].to, trail[i].to) != {}
  }

  ghost predicate CaseInv(c: Case, clock: int) {
    var b := c.booking;
    && TrailInv(b) && LegalPath(b.trail)
    && b.status !in {NoShowCustomer, NoShowProvider}
    && OpenCount(c.disputes) <= 1
    && (b.status == Disputed ==> OpenCount(c.disputes) == 1)
    && (b.actualStart.Some? ==> b.actualStart.value <= clock)
    && (b.status in {PendingConfirmation, Confirmed} ==> b.actualEnd.None?)
  }

  /** A write along an edge, or one that moves nothing, keeps the trail sound and legal. */
  lemma LegalMove(b: Booking, l: Landing)
    requires TrailInv(b) && LegalPath(b.trail) && Checks(Moved(b, l))
    requires Destination(b, l) == b.status || Allowed(b.status, Destination(b, l)) != {}
    ensures TrailInv(Moved(b, l)) && LegalPath(Moved(b, l).trail)
  {
    LandKeepsTrail(b, l);
    MovedShape(b, l);
    LegalLengthening(b.trail, b.status, Destination(b, l));
  }

  lemma LegalLengthening(trail: seq<Entry>, from: Status, to: Status)
    requires IsChain(trail, from) && LegalPath(trail)
    requires from == to || Allowed(from, to) != {}
    ensures LegalPath(Lengthened(trail, from, to))
  {
    var t := Lengthened(trail, from, to);
    forall i | 0 < i < |t| ensures Allowed(t[i - 1].to, t[i].to) != {} {
      assert t[i - 1] == trail[i - 1];
    }
  }

  lemma {:induction false} ClosingLowersOpenCount(disputes: seq<DisputeStatus>, i: nat, closed: DisputeStatus)
    requires i < |disputes| && !IsOpen(closed)
    ensures OpenCount(disputes[i := closed]) <= OpenCount(disputes)
  {
    var n := |disputes| - 1;
    if i < n {
      ClosingLowersOpenCount(disputes[..n], i, closed);
      assert disputes[i := closed][..n] == disputes[..n][i := closed];
    } else {
      assert disputes[i := closed][..n] == disputes[..n];
    }
  }

  lemma OpeningRaisesOpenCount(disputes: seq<DisputeStatus>)
    ensures OpenCount(disputes + [Open]) == OpenCount(disputes) + 1
  {
    assert (disputes + [Open])[..|disputes|] == disputes;
  }

  lemma MoveSuffices(c: Case, clock: int, user: User, to: Status, w: Write, now: int)
    requires CaseInv(c, clock) && clock <= now && Guarded(c, user, to, w).Ok?
    requires match w
      case Confirm(at) => to == Confirmed && at == now
      case Start(at) => to == InProgress && at == now
      case Cancel(p, _, _) => to == if p then CancelledByProvider else CancelledByCustomer
      case Complete(at, f) => to == Completed && at == now && (f.Some? ==> f.value >= 0)
      case _ => false
    ensures DatabaseAccepts(Guarded(c, user, to, w).value)
    ensures CaseInv(Guarded(c, user, to, w).value, now)
  {
    LegalMove(c.booking, Landed(w));
  }

  lemma RescheduleSuffices(c: Case, clock: int, user: User, start: Option<int>, end: Option<int>, now: int)
    requires CaseInv(c, clock) && clock <= now && Rescheduled(c, user, start, end, now).Ok?
    ensures DatabaseAccepts(Rescheduled(c, user, start, end, now).value)
    ensures CaseInv(Rescheduled(c, user, start, end, now).value, now)
    ensures start.Some? && end.None? && c.booking.scheduledEnd.Some? ==>
              var b' := Rescheduled(c, user, start, end, now).value.booking;
              && b'.scheduledEnd.Some?
              && b'.scheduledEnd.value - b'.scheduledStart == c.booking.scheduledEnd.value - c.booking.scheduledStart
  {
    var b' := Rescheduled(c, user, start, end, now).value.booking;
    LegalMove(c.booking, Landed(Reschedule(start, b'.scheduledEnd)));
  }

  lemma DisputeSuffices(c: Case, clock: int, user: User, now: int)
    requires CaseInv(c, clock) && clock <= now && DisputeRaised(c, user).Ok?
    ensures DatabaseAccepts(DisputeRaised(c, user).value)
    ensures CaseInv(DisputeRaised(c, user).value, now)
  {
    OpeningRaisesOpenCount(c.disputes);
    LegalMove(c.booking, Landed(Dispute));
  }

  lemma ResolveSuffices(c: Case, clock: int, admin: nat, dispute: nat, ruling: Ruling, now: int)
    requires CaseInv(c, clock) && clock <= now && dispute < |c.disputes|
    ensures DatabaseAccepts(DisputeResolved(c, admin, dispute, ruling, now).value)
    ensures CaseInv(DisputeResolved(c, admin, dispute, ruling, now).value, now)
    ensures DisputeResolved(c, admin, dispute, ruling, now).value.booking.status != Disputed
  {
    ClosingLowersOpenCount(c.disputes, dispute, Ruled_(ruling));
    if c.booking.status == Disputed {
      LegalMove(c.booking, Ruled(ruling == Refund, admin, now));
    }
  }

  /**
   A call that passes its guards is never stopped by a CHECK or by the dispute index, and
   it keeps the case sound: legal trail, one open dispute exactly while disputed.
   */
  lemma GuardsSuffice(c: Case, clock: int, call: Call, now: int)
    requires CaseInv(c, clock) && clock <= now
    ensures Attempt(c, call, now) == Target(c, call, now)
    ensures Attempt(c, call, now).Ok? ==> CaseInv(Attempt(c, call, now).value, now)
    ensures Attempt(c, call, now).Ok? && call.ResolveCall? ==>
              Attempt(c, call, now).value.booking.status != Disputed
  {
    if Target(c, call, now).Ok? {
      match call
      case ConfirmCall(user) => MoveSuffices(c, clock, user, Confirmed, Confirm(now), now);
      case StartCall(user) => MoveSuffices(c, clock, user, InProgress, Start(now), now);
      case CancelCall(user) =>
        var to := CancelTarget(c.booking, user);
        MoveSuffices(c, clock, user, to, Cancel(to == CancelledByProvider, user.id, now), now);
      case CompleteCall(user, f) =>
        MoveSuffices(c, clock, user, Completed, Complete(now, if f.Some? then Some(f.value) else None), now);
      case RescheduleCall(user, start, end) => RescheduleSuffices(c, clock, user, start, end, now);
      case DisputeCall(user) => DisputeSuffices(c, clock, user, now);
      case ResolveCall(admin, dispute, ruling) => ResolveSuffices(c, clock, admin, dispute, ruling, now);
    }
  }

  /** No call changes what a booking is for. */
  lemma IdentityKept(c: Case, call: Call, now: int)
    requires Target(c, call, now).Ok?
    ensures var b, b' := c.booking, Target(c, call, now).value.booking;
      b'.quote == b.quote && b'.request == b.request && b'.customer == b.customer
      && b'.provider == b.provider && b'.origin == b.origin
  {
  }

  /** What a successful call may change, and what it leaves sound. */
  lemma AttemptIsSound(c: Case, clock: int, call: Call, now: int)
    requires CaseInv(c, clock) && clock <= now && Attempt(c, call, now).Ok?
    ensures var b, b' := c.booking, Attempt(c, call, now).value.booking;
      b'.quote == b.quote && b'.request == b.request && b'.customer == b.customer
      && b'.provider == b.provider && b'.origin == b.origin
    ensures CaseInv(Attempt(c, call, now).value, now)
  {
    hide Target, CaseInv;
    GuardsSuffice(c, clock, call, now);
    IdentityKept(c, call, now);
  }

  datatype Timed = Timed(delay: nat, call: Call)

  datatype Clocked = Clocked(c: Case, clock: int)

  function Play(s: Clocked, calls: seq<Timed>): Clocked
    decreases |calls|
  {
    if calls == [] then s
    else
      var now := s.clock + calls[0].delay;
      var r := Attempt(s.c, calls[0].call, now);
      Play(Clocked(if r.Ok? then r.value else s.c, now), calls[1..])
  }

  lemma {:induction false} PlayKeepsInv(s: Clocked, calls: seq<Timed>)
    requires CaseInv(s.c, s.clock)
    ensures CaseInv(Play(s, calls).c, Play(s, calls).clock)
    decreases |calls|
  {
    if calls != [] {
      var now := s.clock + calls[0].delay;
      GuardsSuffice(s.c, s.clock, calls[0].call, now);
      var r := Attempt(s.c, calls[0].call, now);
      PlayKeepsInv(Clocked(if r.Ok? then r.value else s.c, now), calls[1..]);
    }
  }

  /** How far along the lifecycle a status is; only COMPLETED and DISPUTED share a place. */
  function Rank(s: Status): nat {
    match s
    case PendingConfirmation => 0
    case Confirmed => 1
    case InProgress => 2
    case Completed => 3
    case Disputed => 3
    case _ => 4
  }

  lemma {:induction false} RankClimbs(trail: seq<Entry>, i: nat, j: nat)
    requires LegalPath(trail) && i < j < |trail|
    ensures Rank(trail[i].to) <= Rank(trail[j].to) && Rank(trail[i].to) < 4
    ensures Rank(trail[i].to) == Rank(trail[j].to) ==> Rank(trail[i].to) == 3
    decreases j - i
  {
    assert Allowed(trail[(i + 1) - 1].to, trail[i + 1].to) != {};
    if i + 1 < j {
      RankClimbs(trail, i + 1, j);
    }
  }

  /**
   Over any serial run of calls, including the two that write a status without asserting
   the transition: every move is along an edge of TRANSITIONS, so a status that recurs is
   COMPLETED or DISPUTED, and nothing follows a cancellation. No booking is ever a no-show.
   */
  lemma {:induction false} SerialLifecycle(c: Case, clock: int, calls: seq<Timed>)
    requires CaseInv(c, clock)
    ensures var t := Play(Clocked(c, clock), calls).c.booking.trail;
      && (forall i :: 0 < i < |t| ==> Allowed(t[i - 1].to, t[i].to) != {} && t[i].from == Some(t[i - 1].to))
      && (forall i, j :: 0 <= i < j < |t| && t[i].to == t[j].to ==> t[i].to in {Completed, Disputed})
      && (forall i :: 0 <= i < |t| && t[i].to in {CancelledByCustomer, CancelledByProvider} ==> i == |t| - 1)
      && (forall i :: 0 <= i < |t| ==> t[i].to !in {NoShowCustomer, NoShowProvider})
  {
    PlayKeepsInv(Clocked(c, clock), calls);
    var b := Play(Clocked(c, clock), calls).c.booking;
    forall i, j | 0 <= i < j < |b.trail|
      ensures b.trail[i].to == b.trail[j].to ==> b.trail[i].to in {Completed, Disputed}
      ensures b.trail[i].to !in {CancelledByCustomer, CancelledByProvider, NoShowCustomer, NoShowProvider}
    {
      RankClimbs(b.trail, i, j);
    }
  }

  lemma {:induction false} DisputedHasOneOpenDispute(c: Case, clock: int, calls: seq<Timed>)
    requires CaseInv(c, clock)
    ensures var r := Play(Clocked(c, clock), calls).c;
      && OpenCount(r.disputes) <= 1
      && (r.booking.status == Disputed ==> OpenCount(r.disputes) == 1)
      && Checks(r.booking)
  {
    PlayKeepsInv(Clocked(c, clock), calls);
  }

  lemma NewCaseIsSound(
    quote: nat, request: nat, customer: nat, provider: nat, origin: Origin,
    start: int, end: Option<int>, amount: int, clock: int)
    requires amount >= 0 && (end.Some? ==> end.value > start)
    ensures CaseInv(Case(Insert(quote, request, customer, provider, origin, start, end, amount), []), clock)
  {
    InsertStartsATrail(quote, request, customer, provider, origin, start, end, amount);
  }

  // ---- The calls, statement by statement --------------------------------------

  /** A call that succeeds leaves what `Attempt` says; one that fails leaves everything. */
  ghost predicate Performed(before: Case, call: Call, now: int, r: Result<(), Error>, after: Case) {
    match Attempt(before, call, now)
    case Ok(c) => r == Ok(()) && after == c
    case Err(e) => r == Err(e) && after == before
  }

  /** No CHECK looks at the trail. */
  lemma TrailIsUnchecked(b: Booking, trail: seq<Entry>)
    ensures Checks(b.(trail := trail)) == Checks(b)
  {
  }

  lemma DisputeAttempt(c: Case, clock: int, user: User, now: int)
    requires CaseInv(c, clock) && clock <= now
    ensures Attempt(c, DisputeCall(user), now) == DisputeRaised(c, user)
    ensures DisputeRaised(c, user).Ok? ==>
              CaseInv(DisputeRaised(c, user).value, now) && Checks(DisputeRaised(c, user).value.booking)
  {
    hide DisputeRaised, CaseInv, Checks;
    GuardsSuffice(c, clock, DisputeCall(user), now);
    assert Target(c, DisputeCall(user), now) == DisputeRaised(c, user);
    if DisputeRaised(c, user).Ok? { DisputeSuffices(c, clock, user, now); }
  }

  lemma ResolveAttempt(c: Case, clock: int, admin: nat, dispute: nat, ruling: Ruling, now: int)
    requires CaseInv(c, clock) && clock <= now
    ensures var r := DisputeResolved(c, admin, dispute, ruling, now);
      && Attempt(c, ResolveCall(admin, dispute, ruling), now) == r
      && (r.Ok? ==> CaseInv(r.value, now) && Checks(r.value.booking) && r.value.booking.status != Disputed)
  {
    hide CaseInv, Checks, Rule;
    GuardsSuffice(c, clock, ResolveCall(admin, dispute, ruling), now);
    assert Target(c, ResolveCall(admin, dispute, ruling), now) == DisputeResolved(c, admin, dispute, ruling, now);
    if dispute < |c.disputes| { ResolveSuffices(c, clock, admin, dispute, ruling, now); }
  }

  // ---- Who gets through, from the row alone ---------------------------------------------------

  /** TRANSITIONS, read actor by actor. */
  lemma WhoMayTakeAnEdge(from: Status, to: Status)
    ensures Provider in Allowed(from, to) <==>
              || (from == PendingConfirmation && (to == Confirmed || to == CancelledByProvider))
              || (from == Confirmed && (to == InProgress || to == CancelledByProvider || to == NoShowCustomer))
              || (from == InProgress && (to == Completed || to == Disputed))
    ensures Customer in Allowed(from, to) <==>
              || (to == CancelledByCustomer && (from == PendingConfirmation || from == Confirmed))
              || (from == Confirmed && to == NoShowProvider)
              || (to == Disputed && (from == InProgress || from == Completed))
    ensures Admin in Allowed(from, to) <==>
              || Provider in Allowed(from, to) || Customer in Allowed(from, to)
              || (from == Disputed && (to == Completed || to == CancelledByCustomer || to == CancelledByProvider))
    ensures Allowed(from, to) == {} <==> Admin !in Allowed(from, to)
  {
  }

  predicate IsParty(b: Booking, user: User) {
    user.admin || b.customer == user.id || user.provider == Some(b.provider)
  }

  /** An administrator, or the provider when they are not the customer too. */
  predicate ActsForProvider(b: Booking, user: User) {
    user.admin || (b.customer != user.id && user.provider == Some(b.provider))
  }

  /** The booking after a change of status, with one more entry on its trail. */
  predicate MovedTo(before: Booking, after: Booking, changed: Booking) {
    after == changed.(trail := before.trail + [Entry(Some(before.status), changed.status)])
  }

  lemma ConfirmAnswers(c: Case, user: User, now: int)
    ensures var b, r := c.booking, Target(c, ConfirmCall(user), now);
      && (r == Err(BookingNotFound) <==> !IsParty(b, user))
      && (r == Err(InvalidStatusTransition) <==> IsParty(b, user) && b.status != PendingConfirmation)
      && (r == Err(NotAllowedToTransition) <==>
            IsParty(b, user) && !ActsForProvider(b, user) && b.status == PendingConfirmation)
      && (r.Ok? <==> ActsForProvider(b, user) && b.status == PendingConfirmation)
      && (r.Ok? ==>
            && r.value.disputes == c.disputes
            && MovedTo(b, r.value.booking, b.(status := Confirmed, contactReleasedAt := Some(now))))
  {
  }

  lemma StartAnswers(c: Case, user: User, now: int)
    ensures var b, r := c.booking, Target(c, StartCall(user), now);
      && (r == Err(BookingNotFound) <==> !IsParty(b, user))
      && (r == Err(InvalidStatusTransition) <==> IsParty(b, user) && b.status != Confirmed)
      && (r == Err(NotAllowedToTransition) <==> IsParty(b, user) && !ActsForProvider(b, user) && b.status == Confirmed)
      && (r.Ok? <==> ActsForProvider(b, user) && b.status == Confirmed)
      && (r.Ok? ==>
            && r.value.disputes == c.disputes
            && MovedTo(b, r.value.booking, b.(status := InProgress, actualStart := Some(now))))
  {
  }

  /** Before the work starts either side may cancel, afterwards only an administrator, out of a dispute. */
  lemma CancelAnswers(c: Case, user: User, now: int)
    ensures var b, r := c.booking, Target(c, CancelCall(user), now);
      && (r == Err(BookingNotFound) <==> !IsParty(b, user))
      && (r == Err(InvalidStatusTransition) <==>
            IsParty(b, user) && b.status != PendingConfirmation && b.status != Confirmed && b.status != Disputed)
      && (r == Err(NotAllowedToTransition) <==> IsParty(b, user) && !user.admin && b.status == Disputed)
      && (r.Ok? <==>
            && IsParty(b, user)
            && (b.status == PendingConfirmation || b.status == Confirmed || (b.status == Disputed && user.admin)))
      && (r.Ok? ==>
            && r.value.disputes == c.disputes
            && MovedTo(b, r.value.booking,
                       b.(status := if user.admin || b.customer == user.id then CancelledByCustomer else CancelledByProvider,
                          cancelledBy := Some(user.id), cancelledAt := Some(now))))
  {
  }

  lemma CompleteAnswers(c: Case, user: User, finalAmount: Option<nat>, now: int)
    ensures var b, r := c.booking, Target(c, CompleteCall(user, finalAmount), now);
      && (r == Err(BookingNotFound) <==> !IsParty(b, user))
      && (r == Err(InvalidStatusTransition) <==> IsParty(b, user) && b.status != InProgress && b.status != Disputed)
      && (r.Ok? <==> (ActsForProvider(b, user) && b.status == InProgress) || (user.admin && b.status == Disputed))
      && (r.Ok? ==>
            && r.value.disputes == c.disputes
            && MovedTo(b, r.value.booking,
                       b.(status := Completed, completedAt := Some(now), actualEnd := Some(now),
                          totalAmount := if finalAmount.Some? then finalAmount.value else b.totalAmount)))
  {
  }

  /** A start to come, and an end after it; an end that is not given keeps its distance. */
  lemma RescheduleAnswers(c: Case, user: User, start: Option<int>, end: Option<int>, now: int)
    requires c.booking.scheduledEnd.Some? ==> c.booking.scheduledEnd.value > c.booking.scheduledStart
    ensures var b, r := c.booking, Target(c, RescheduleCall(user, start, end), now);
      var from := if start.Some? then start.value else b.scheduledStart;
      var open := IsParty(b, user) && (b.status == PendingConfirmation || b.status == Confirmed);
      && (r == Err(BookingNotFound) <==> !IsParty(b, user))
      && (r == Err(BookingNotReschedulable) <==> IsParty(b, user) && !open)
      && (r == Err(ScheduleInPast) <==> open && start.Some? && start.value <= now)
      && (r == Err(ScheduleEndsBeforeItStarts) <==>
            open && (start.Some? ==> now < start.value) && end.Some? && end.value <= from)
      && (r.Ok? <==> open && (start.Some? ==> now < start.value) && (end.Some? ==> from < end.value))
      && (r.Ok? ==>
            && var b' := r.value.booking;
            && r.value.disputes == c.disputes
            && b' == b.(scheduledStart := from, scheduledEnd := b'.scheduledEnd)
            && (b'.scheduledEnd.Some? <==> end.Some? || b.scheduledEnd.Some?)
            && (end.Some? ==> b'.scheduledEnd == end)
            && (end.None? && b.scheduledEnd.Some? ==>
                  b'.scheduledEnd.value - b'.scheduledStart == b.scheduledEnd.value - b.scheduledStart))
  {
  }

  /** Either party, once the work has begun or ended, with every earlier dispute settled. */
  lemma DisputeAnswers(c: Case, user: User)
    ensures var b, r := c.booking, DisputeRaised(c, user);
      var begun := b.status in {InProgress, Completed, NoShowCustomer, NoShowProvider};
      var settled := forall i :: 0 <= i < |c.disputes| ==> c.disputes[i] in {ResolvedRefund, ResolvedPartialRefund, ResolvedNoAction};
      && (r == Err(BookingNotFound) <==> !IsParty(b, user))
      && (r == Err(BookingNotDisputable) <==> IsParty(b, user) && !begun)
      && (r == Err(DisputeAlreadyOpen) <==> IsParty(b, user) && begun && !settled)
      && (r.Ok? <==> IsParty(b, user) && begun && settled)
      && (r.Ok? ==>
            && r.value.disputes == c.disputes + [Open]
            && if b.status == NoShowCustomer || b.status == NoShowProvider then r.value.booking == b
               else MovedTo(b, r.value.booking, b.(status := Disputed)))
  {
    NoneOpenMeansSettled(c.disputes);
  }

  lemma OpenOrSettled(d: DisputeStatus)
    ensures !IsOpen(d) <==> d in {ResolvedRefund, ResolvedPartialRefund, ResolvedNoAction}
  {
    match d
    case Open =>
    case UnderReview =>
    case AwaitingCustomer =>
    case AwaitingProvider =>
    case Escalated =>
    case ResolvedRefund =>
    case ResolvedPartialRefund =>
    case ResolvedNoAction =>
  }

  lemma {:induction false} NoneOpenMeansSettled(disputes: seq<DisputeStatus>)
    ensures OpenCount(disputes) == 0 <==>
            forall i :: 0 <= i < |disputes| ==> disputes[i] in {ResolvedRefund, ResolvedPartialRefund, ResolvedNoAction}
  {
    if disputes != [] {
      var n := |disputes| - 1;
      NoneOpenMeansSettled(disputes[..n]);
      assert forall i :: 0 <= i < n ==> disputes[..n][i] == disputes[i];
      OpenOrSettled(disputes[n]);
    }
  }

  /** A refund cancels for the provider, every other ruling completes; a booking not in dispute is left alone. */
  lemma ResolveAnswers(c: Case, admin: nat, dispute: nat, ruling: Ruling, now: int)
    ensures var b, r := c.booking, DisputeResolved(c, admin, dispute, ruling, now);
      && (r == Err(DisputeNotFound) <==> dispute >= |c.disputes|)
      && (r.Ok? <==> dispute < |c.disputes|)
      && (r.Ok? ==>
            && |r.value.disputes| == |c.disputes|
            && (forall i :: 0 <= i < |c.disputes| && i != dispute ==> r.value.disputes[i] == c.disputes[i])
            && (ruling == Refund ==> r.value.disputes[dispute] == ResolvedRefund)
            && (ruling == PartialRefund ==> r.value.disputes[dispute] == ResolvedPartialRefund)
            && (ruling == NoAction ==> r.value.disputes[dispute] == ResolvedNoAction))
      && (r.Ok? && b.status != Disputed ==> r.value.booking == b)
      && (r.Ok? && b.status == Disputed && ruling == Refund ==>
            MovedTo(b, r.value.booking,
                    b.(status := CancelledByProvider, cancelledAt := Some(now), cancelledBy := Some(admin))))
      && (r.Ok? && b.status == Disputed && ruling != Refund ==>
            MovedTo(b, r.value.booking, b.(status := Completed, completedAt := Some(now))))
  {
  }

  class BookingRecord {
    var booking: Booking
    var disputes: seq<DisputeStatus>

    ghost function State(): Case
      reads this
    {
      Case(booking, disputes)
    }

    constructor (quote: nat, request: nat, customer: nat, provider: nat, origin: Origin,
                 start: int, end: Option<int>, amount: nat)
      requires end.Some? ==> end.value > start
      ensures forall clock :: CaseInv(State(), clock)
      ensures booking.quote == quote && booking.request == request && booking.customer == customer && booking.provider == provider
      ensures booking.origin == origin && booking.status == PendingConfirmation && booking.totalAmount == amount
      ensures booking.scheduledStart == start && booking.scheduledEnd == end && disputes == []
    {
      booking := Insert(quote, request, customer, provider, origin, start, end, amount);
      disputes := [];
      new;
      forall clock ensures CaseInv(State(), clock) {
        NewCaseIsSound(quote, request, customer, provider, origin, start, end, amount, clock);
      }
    }

    /** An UPDATE of the row: CHECKs first, then the trigger extends the trail. */
    method Save(next: Booking) returns (ok: bool)
      requires next.trail == booking.trail
      modifies this`booking
      ensures ok <==> Checks(next)
      ensures booking == if ok then next.(trail := Lengthened(next.trail, old(booking).status, next.status)) else old(booking)
    {
      if !Checks(next) { return false; }
      var entry := Entry(Some(booking.status), next.status);
      booking := if entry.from == Some(entry.to) then next else next.(trail := next.trail + [entry]);
      ok := true;
    }

    method AssertTransition(user: User, to: Status) returns (refused: Option<Error>)
      ensures refused == Refusal(booking, user, to)
      ensures refused.None? <==> ActorOn(booking, user).Some? && ActorOn(booking, user).value in Allowed(booking.status, to)
    {
      var actor := ActorOn(booking, user);
      if actor.None? { return Some(BookingNotFound); }
      if Allowed(booking.status, to) == {} { return Some(InvalidStatusTransition); }
      if actor.value !in Allowed(booking.status, to) { return Some(NotAllowedToTransition); }
      refused := None;
    }

    method Confirm(user: User, now: int, ghost clock: int) returns (r: Result<(), Error>)
      requires CaseInv(State(), clock) && clock <= now
      modifies this
      ensures Performed(old(State()), ConfirmCall(user), now, r, State())
      ensures CaseInv(State(), if r.Ok? then now else clock)
      ensures r == Err(BookingNotFound) <==> !IsParty(old(booking), user)
      ensures r == Err(InvalidStatusTransition) <==> IsParty(old(booking), user) && old(booking).status != PendingConfirmation
      ensures r.Ok? <==> ActsForProvider(old(booking), user) && old(booking).status == PendingConfirmation
      ensures r.Ok? ==>
                && disputes == old(disputes)
                && MovedTo(old(booking), booking,
                           old(booking).(status := Status.Confirmed, contactReleasedAt := Some(now)))
    {
      ConfirmAnswers(State(), user, now);
      GuardsSuffice(State(), clock, ConfirmCall(user), now);
      var refused := AssertTransition(user, Status.Confirmed);
      if refused.Some? { return Err(refused.value); }
      var ok := Save(booking.(status := Status.Confirmed, contactReleasedAt := Some(now)));
      r := if ok then Ok(()) else Err(ConstraintViolation);
    }

    method Start(user: User, now: int, ghost clock: int) returns (r: Result<(), Error>)
      requires CaseInv(State(), clock) && clock <= now
      modifies this
      ensures Performed(old(State()), StartCall(user), now, r, State())
      ensures CaseInv(State(), if r.Ok? then now else clock)
      ensures r == Err(BookingNotFound) <==> !IsParty(old(booking), user)
      ensures r == Err(InvalidStatusTransition) <==> IsParty(old(booking), user) && old(booking).status != Status.Confirmed
      ensures r.Ok? <==> ActsForProvider(old(booking), user) && old(booking).status == Status.Confirmed
      ensures r.Ok? ==>
                && disputes == old(disputes)
                && MovedTo(old(booking), booking, old(booking).(status := InProgress, actualStart := Some(now)))
    {
      StartAnswers(State(), user, now);
      GuardsSuffice(State(), clock, StartCall(user), now);
      var refused := AssertTransition(user, InProgress);
      if refused.Some? { return Err(refused.value); }
      var ok := Save(booking.(status := InProgress, actualStart := Some(now)));
      r := if ok then Ok(()) else Err(ConstraintViolation);
    }

    method Cancel(user: User, now: int, ghost clock: int) returns (r: Result<(), Error>)
      requires CaseInv(State(), clock) && clock <= now
      modifies this
      ensures Performed(old(State()), CancelCall(user), now, r, State())
      ensures CaseInv(State(), if r.Ok? then now else clock)
      ensures r == Err(BookingNotFound) <==> !IsParty(old(booking), user)
      ensures r == Err(NotAllowedToTransition) <==> IsParty(old(booking), user) && !user.admin && old(booking).status == Disputed
      ensures r.Ok? <==>
                && IsParty(old(booking), user)
                && (old(booking).status == PendingConfirmation || old(booking).status == Status.Confirmed
                    || (old(booking).status == Disputed && user.admin))
      ensures r.Ok? ==>
                && disputes == old(disputes)
                && MovedTo(old(booking), booking,
                           old(booking).(status := if user.admin || old(booking).customer == user.id
                                                   then CancelledByCustomer else CancelledByProvider,
                                         cancelledBy := Some(user.id), cancelledAt := Some(now)))
    {
      CancelAnswers(State(), user, now);
      GuardsSuffice(State(), clock, CancelCall(user), now);
      var target := if ActorOn(booking, user) == Some(Provider) then CancelledByProvider else CancelledByCustomer;
      var refused := AssertTransition(user, target);
      if refused.Some? { return Err(refused.value); }
      var ok := Save(booking.(status := target, cancelledBy := Some(user.id), cancelledAt := Some(now)));
      r := if ok then Ok(()) else Err(ConstraintViolation);
    }

    method Complete(user: User, finalAmount: Option<nat>, now: int, ghost clock: int)
      returns (r: Result<(), Error>)
      requires CaseInv(State(), clock) && clock <= now
      modifies this
      ensures Performed(old(State()), CompleteCall(user, finalAmount), now, r, State())
      ensures CaseInv(State(), if r.Ok? then now else clock)
      ensures r == Err(BookingNotFound) <==> !IsParty(old(booking), user)
      ensures r == Err(InvalidStatusTransition) <==>
                IsParty(old(booking), user) && old(booking).status != InProgress && old(booking).status != Disputed
      ensures r.Ok? <==>
                || (ActsForProvider(old(booking), user) && old(booking).status == InProgress)
                || (user.admin && old(booking).status == Disputed)
      ensures r.Ok? ==>
                && disputes == old(disputes)
                && MovedTo(old(booking), booking,
                           old(booking).(status := Completed, completedAt := Some(now), actualEnd := Some(now),
                                         totalAmount := if finalAmount.Some? then finalAmount.value else old(booking).totalAmount))
    {
      CompleteAnswers(State(), user, finalAmount, now);
      GuardsSuffice(State(), clock, CompleteCall(user, finalAmount), now);
      var refused := AssertTransition(user, Completed);
      if refused.Some? { return Err(refused.value); }
      var next := booking.(status := Completed, completedAt := Some(now), actualEnd := Some(now));
      if finalAmount.Some? { next := next.(totalAmount := finalAmount.value); }
      var ok := Save(next);
      r := if ok then Ok(()) else Err(ConstraintViolation);
    }

    method Reschedule(user: User, start: Option<int>, end: Option<int>, now: int, ghost clock: int)
      returns (r: Result<(), Error>)
      requires CaseInv(State(), clock) && clock <= now
      modifies this
      ensures Performed(old(State()), RescheduleCall(user, start, end), now, r, State())
      ensures CaseInv(State(), if r.Ok? then now else clock)
      ensures r.Ok? && start.Some? && end.None? && old(booking).scheduledEnd.Some? ==>
                && booking.scheduledEnd.Some?
                && booking.scheduledEnd.value - booking.scheduledStart
                   == old(booking).scheduledEnd.value - old(booking).scheduledStart
      ensures r == Err(ScheduleInPast) <==>
                && IsParty(old(booking), user)
                && (old(booking).status == PendingConfirmation || old(booking).status == Status.Confirmed)
                && start.Some? && start.value <= now
      ensures r.Ok? <==>
                && IsParty(old(booking), user)
                && (old(booking).status == PendingConfirmation || old(booking).status == Status.Confirmed)
                && (start.Some? ==> now < start.value)
                && (end.Some? ==> (if start.Some? then start.value else old(booking).scheduledStart) < end.value)
      ensures r.Ok? ==>
                && disputes == old(disputes)
                && booking == old(booking).(scheduledStart := booking.scheduledStart, scheduledEnd := booking.scheduledEnd)
                && booking.scheduledStart == (if start.Some? then start.value else old(booking).scheduledStart)
                && (end.Some? ==> booking.scheduledEnd == end)
    {
      RescheduleAnswers(State(), user, start, end, now);
      GuardsSuffice(State(), clock, RescheduleCall(user, start, end), now);
      if ActorOn(booking, user).None? { return Err(BookingNotFound); }
      if booking.status != PendingConfirmation && booking.status != Status.Confirmed {
        return Err(BookingNotReschedulable);
      }
      if start.Some? && start.value <= now { return Err(ScheduleInPast); }
      var nextStart := if start.Some? then start.value else booking.scheduledStart;
      var nextEnd := if end.Some? then end else booking.scheduledEnd;
      if start.Some? && end.None? && booking.scheduledEnd.Some? {
        var length := booking.scheduledEnd.value - booking.scheduledStart;
        nextEnd := Some(nextStart + length);
      }
      if nextEnd.Some? && nextEnd.value <= nextStart { return Err(ScheduleEndsBeforeItStarts); }
      var ok := Save(booking.(scheduledStart := nextStart, scheduledEnd := nextEnd));
      r := if ok then Ok(()) else Err(ConstraintViolation);
    }

    method RaiseDispute(user: User, now: int, ghost clock: int) returns (r: Result<(), Error>)
      requires CaseInv(State(), clock) && clock <= now
      modifies this
      ensures Performed(old(State()), DisputeCall(user), now, r, State())
      ensures CaseInv(State(), if r.Ok? then now else clock)
      ensures r == Err(BookingNotDisputable) <==>
                && IsParty(old(booking), user)
                && old(booking).status !in {InProgress, Completed, NoShowCustomer, NoShowProvider}
      ensures r.Ok? <==>
                && IsParty(old(booking), user)
                && old(booking).status in {InProgress, Completed, NoShowCustomer, NoShowProvider}
                && forall i :: 0 <= i < |old(disputes)| ==>
                     old(disputes)[i] in {ResolvedRefund, ResolvedPartialRefund, ResolvedNoAction}
      ensures r.Ok? ==>
                && disputes == old(disputes) + [Open]
                && if old(booking).status == NoShowCustomer || old(booking).status == NoShowProvider
                   then booking == old(booking)
                   else MovedTo(old(booking), booking, old(booking).(status := Disputed))
    {
      DisputeAnswers(State(), user);
      hide CaseInv, Checks, Attempt, OpenCount;
      DisputeAttempt(State(), clock, user, now);
      if ActorOn(booking, user).None? { return Err(BookingNotFound); }
      if !Disputable(booking.status) { return Err(BookingNotDisputable); }
      if OpenCount(disputes) > 0 { return Err(DisputeAlreadyOpen); }
      // Either write may be refused; the dispute goes in last, so a refusal leaves nothing behind.
      if booking.status != NoShowCustomer && booking.status != NoShowProvider {
        TrailIsUnchecked(booking.(status := Disputed), Lengthened(booking.trail, booking.status, Disputed));
        var ok := Save(booking.(status := Disputed));
        if !ok { return Err(ConstraintViolation); }
      }
      disputes := disputes + [Open];
      r := Ok(());
    }

    method ResolveDispute(admin: nat, dispute: nat, ruling: Ruling, now: int, ghost clock: int)
      returns (r: Result<(), Error>)
      requires CaseInv(State(), clock) && clock <= now
      modifies this
      ensures Performed(old(State()), ResolveCall(admin, dispute, ruling), now, r, State())
      ensures CaseInv(State(), if r.Ok? then now else clock)
      ensures r.Ok? ==> booking.status != Disputed
      ensures r.Ok? <==> dispute < |old(disputes)|
      ensures r.Ok? ==>
                disputes == old(disputes)[dispute := match ruling
                                                     case Refund => ResolvedRefund
                                                     case PartialRefund => ResolvedPartialRefund
                                                     case NoAction => ResolvedNoAction]
      ensures r.Ok? && old(booking).status != Disputed ==> booking == old(booking)
      ensures r.Ok? && old(booking).status == Disputed && ruling == Refund ==>
                MovedTo(old(booking), booking,
                        old(booking).(status := CancelledByProvider, cancelledAt := Some(now), cancelledBy := Some(admin)))
      ensures r.Ok? && old(booking).status == Disputed && ruling != Refund ==>
                MovedTo(old(booking), booking, old(booking).(status := Completed, completedAt := Some(now)))
    {
      ResolveAnswers(State(), admin, dispute, ruling, now);
      hide CaseInv, Checks, Attempt, OpenCount;
      ResolveAttempt(State(), clock, admin, dispute, ruling, now);
      if dispute >= |disputes| { return Err(DisputeNotFound); }
      if booking.status == Disputed {
        var target := if ruling == Refund then CancelledByProvider else Completed;
        var next := booking.(status := target);
        if target == Completed {
          next := next.(completedAt := Some(now));
        } else {
          next := next.(cancelledAt := Some(now), cancelledBy := Some(admin));
        }
        TrailIsUnchecked(next, Lengthened(booking.trail, booking.status, target));
        var ok := Save(next);
        if !ok { return Err(ConstraintViolation); }
      }
      disputes := disputes[dispute := Ruled_(ruling)];
      r := Ok(());
    }
  }
}
