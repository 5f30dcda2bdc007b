/**
 Proving an inbox: a code is mailed, at most once per cooldown, and typed back. One user's
 tokens, oldest first; calls run one after another. Addresses are case-folded and opaque,
 as are codes and their hashes. Times are milliseconds.
 */
module EmailVerification {
  import opened Common
  import opened GuessBudget

  datatype Config = Config(ttl: nat, maxAttempts: nat, lockout: nat, cooldown: nat)

  datatype Token = Token(
    email: nat, code: nat, attempts: nat, lockedUntil: Option<nat>, expiresAt: nat, usedAt: Option<nat>, createdAt: nat)

  /** A wrong code checked against the token at position `token`. */
  datatype Guess = Guess(token: nat, at: nat)

  datatype State = State(email: nat, verifiedAt: Option<nat>, tokens: seq<Token>, wrong: seq<Guess>)

  datatype Error =
    | EmailAlreadyVerified | EmailCodeTooSoon | EmailCodeNotRequested | EmailCodeLocked
    | EmailCodeExpired | EmailChanged | EmailCodeInvalid

  datatype Outcome = Outcome(state: State, answer: Result<nat, Error>)

  /** `Moved` is a change of address made elsewhere. */
  datatype Event =
    | Send(code: nat, now: nat)
    | Confirm(guess: nat, now: nat, later: nat)
    | Moved(email: nat, now: nat)

  /** A new code uses up whatever was still open. */
  function Retire(tokens: seq<Token>, now: nat): (r: seq<Token>)
    ensures |r| == |tokens|
    ensures forall i :: 0 <= i < |tokens| ==>
              r[i] == if tokens[i].usedAt.None? then tokens[i].(usedAt := Some(now)) else tokens[i]
  {
    seq(|tokens|, i requires 0 <= i < |tokens| =>
      if tokens[i].usedAt.None? then tokens[i].(usedAt := Some(now)) else tokens[i])
  }

  /** The newest unused token. */
  function Newest(tokens: seq<Token>): (i: Option<nat>)
    ensures i.Some? ==> i.value < |tokens| && tokens[i.value].usedAt.None?
    ensures i.Some? ==> forall k :: i.value < k < |tokens| ==> tokens[k].usedAt.Some?
    ensures i.None? ==> forall k :: 0 <= k < |tokens| ==> tokens[k].usedAt.Some?
  {
    var n := |tokens| - 1;
    if tokens == [] then None
    else if tokens[n].usedAt.None? then Some(n)
    else Newest(tokens[..n])
  }

  function NewToken(c: Config, email: nat, code: nat, now: nat): Token {
    Token(email, code, 0, None, now + c.ttl, None, now)
  }

  function Sending(c: Config, s: State, code: nat, now: nat): Outcome {
    var recent := Newest(s.tokens);
    if s.verifiedAt.Some? then Outcome(s, Err(EmailAlreadyVerified))
    else if recent.Some? && now < s.tokens[recent.value].createdAt + c.cooldown then Outcome(s, Err(EmailCodeTooSoon))
    else Outcome(s.(tokens := Retire(s.tokens, now) + [NewToken(c, s.email, code, now)]), Ok(c.ttl))
  }

  /** A wrong code below the limit leaves an old lockout in place. */
  function Missed(c: Config, t: Token, later: nat): Token {
    if t.attempts + 1 >= c.maxAttempts then t.(attempts := t.attempts + 1, lockedUntil := Some(later + c.lockout))
    else t.(attempts := t.attempts + 1)
  }

  function Checking(c: Config, s: State, i: nat, guess: nat, now: nat, later: nat): Outcome
    requires i < |s.tokens|
  {
    var t := s.tokens[i];
    if guess != t.code then
      Outcome(s.(tokens := s.tokens[i := Missed(c, t, later)], wrong := s.wrong + [Guess(i, now)]),
              Err(if t.attempts + 1 >= c.maxAttempts then EmailCodeLocked else EmailCodeInvalid))
    else
      Outcome(s.(tokens := s.tokens[i := t.(usedAt := Some(later))], verifiedAt := Some(later)), Ok(later))
  }

  function Confirming(c: Config, s: State, guess: nat, now: nat, later: nat): Outcome {
    var found := Newest(s.tokens);
    if s.verifiedAt.Some? then Outcome(s, Ok(s.verifiedAt.value))
    else if found.None? then Outcome(s, Err(EmailCodeNotRequested))
    else
      var t := s.tokens[found.value];
      if t.lockedUntil.Some? && t.lockedUntil.value > now then Outcome(s, Err(EmailCodeLocked))
      else if t.expiresAt <= now then Outcome(s, Err(EmailCodeExpired))
      else if t.email != s.email then Outcome(s, Err(EmailChanged))
      else Checking(c, s, found.value, guess, now, later)
  }

  function Step(c: Config, s: State, e: Event): State {
    match e
    case Send(code, now) => Sending(c, s, code, now).state
    case Confirm(guess, now, later) => Confirming(c, s, guess, now, later).state
    case Moved(email, now) => s.(email := email)
  }

  function EndOf(e: Event): nat {
    if e.Confirm? then e.later else e.now
  }

  predicate Timely(clock: nat, e: Event) {
    clock <= e.now && (e.Confirm? ==> e.now <= e.later)
  }

  predicate TimelyRun(clock: nat, events: seq<Event>)
    decreases |events|
  {
    events == [] || (Timely(clock, events[0]) && TimelyRun(EndOf(events[0]), events[1..]))
  }

  function Run(c: Config, s: State, events: seq<Event>): State
    decreases |events|
  {
    if events == [] then s else Run(c, Step(c, s, events[0]), events[1..])
  }

  function Fresh(email: nat): State {
    State(email, None, [], [])
  }

  // ---- What every run keeps ----------------------------------------------------------

  function WrongTimes(wrong: seq<Guess>, token: nat): seq<nat> {
    if wrong == [] then []
    else
      var g := wrong[|wrong| - 1];
      WrongTimes(wrong[..|wrong| - 1], token) + if g.token == token then [g.at] else []
  }

  lemma WrongTimesAppend(wrong: seq<Guess>, g: Guess, token: nat)
    ensures WrongTimes(wrong + [g], token) == if g.token == token then WrongTimes(wrong, token) + [g.at] else WrongTimes(wrong, token)
  {
    assert (wrong + [g])[..|wrong|] == wrong;
  }

  lemma {:induction false} NoWrongYet(wrong: seq<Guess>, token: nat)
    requires forall p :: 0 <= p < |wrong| ==> wrong[p].token < token
    ensures WrongTimes(wrong, token) == []
  {
    if wrong != [] { NoWrongYet(wrong[..|wrong| - 1], token); }
  }

  ghost predicate Ordered(wrong: seq<Guess>) {
    forall p, q :: 0 <= p < q < |wrong| ==> wrong[p].at <= wrong[q].at && wrong[p].token <= wrong[q].token
  }

  /** Sends keep their distance, and only the newest token can still be used. */
  ghost predicate SendsInv(c: Config, tokens: seq<Token>, clock: nat) {
    && (forall i :: 0 <= i < |tokens| ==> tokens[i].createdAt <= clock && tokens[i].expiresAt == tokens[i].createdAt + c.ttl)
    && (forall i :: 0 < i < |tokens| ==> tokens[i - 1].createdAt + c.cooldown <= tokens[i].createdAt)
    && (forall i :: 0 <= i < |tokens| - 1 ==> tokens[i].usedAt.Some?)
  }

  /** While the address is unproved the newest token is unused, so the cooldown sees it. */
  predicate Watched(s: State) {
    s.verifiedAt.None? && s.tokens != [] ==> s.tokens[|s.tokens| - 1].usedAt.None?
  }

  /** Codes are checked against a token only while it is the newest, and before it expires. */
  ghost predicate WrongInv(c: Config, tokens: seq<Token>, wrong: seq<Guess>, clock: nat) {
    && Ordered(wrong)
    && forall p :: 0 <= p < |wrong| ==>
         && wrong[p].token < |tokens| && wrong[p].at <= clock
         && tokens[wrong[p].token].createdAt <= wrong[p].at < tokens[wrong[p].token].createdAt + c.ttl
         && (wrong[p].token + 1 < |tokens| ==> wrong[p].at <= tokens[wrong[p].token + 1].createdAt)
  }

  ghost predicate CountInv(c: Config, t: Token, w: seq<nat>, clock: nat) {
    && LockedApart(w, c.maxAttempts, c.lockout)
    && (forall i :: 0 <= i < |w| ==> t.createdAt <= w[i] <= clock && w[i] < t.createdAt + c.ttl)
    && (t.usedAt.None? ==>
          && t.attempts == |w|
          && (|w| >= c.maxAttempts > 0 ==> t.lockedUntil.Some? && t.lockedUntil.value >= w[|w| - 1] + c.lockout))
  }

  ghost predicate Inv(c: Config, s: State, clock: nat) {
    && SendsInv(c, s.tokens, clock) && Watched(s)
    && WrongInv(c, s.tokens, s.wrong, clock)
    && (forall i :: 0 <= i < |s.tokens| ==> CountInv(c, s.tokens[i], WrongTimes(s.wrong, i), clock))
  }

  lemma NewestIsLast(c: Config, s: State, clock: nat)
    requires Inv(c, s, clock) && s.verifiedAt.None?
    ensures Newest(s.tokens) == if s.tokens == [] then None else Some(|s.tokens| - 1)
  {
    hide WrongInv, CountInv, WrongTimes;
  }

  lemma SendKeepsSends(c: Config, tokens: seq<Token>, clock: nat, t: Token, now: nat)
    requires SendsInv(c, tokens, clock) && clock <= now && t.createdAt == now && t.expiresAt == now + c.ttl
    requires tokens != [] ==> tokens[|tokens| - 1].createdAt + c.cooldown <= now
    ensures SendsInv(c, Retire(tokens, now) + [t], now)
  {
  }

  lemma SendKeepsWrong(c: Config, tokens: seq<Token>, wrong: seq<Guess>, clock: nat, t: Token, now: nat)
    requires WrongInv(c, tokens, wrong, clock) && clock <= now == t.createdAt
    ensures WrongInv(c, Retire(tokens, now) + [t], wrong, now)
  {
    hide Ordered;
    var tokens' := Retire(tokens, now) + [t];
    forall p | 0 <= p < |wrong|
      ensures wrong[p].token + 1 < |tokens'| ==> wrong[p].at <= tokens'[wrong[p].token + 1].createdAt
    {
      assert wrong[p].token + 1 < |tokens| ==> tokens'[wrong[p].token + 1].createdAt == tokens[wrong[p].token + 1].createdAt;
    }
  }

  lemma CountLater(c: Config, t: Token, w: seq<nat>, clock: nat, now: nat)
    requires CountInv(c, t, w, clock) && clock <= now
    ensures CountInv(c, t, w, now) && CountInv(c, t.(usedAt := Some(now)), w, now)
  {
    hide LockedApart;
  }

  lemma InvParts(c: Config, s: State, clock: nat)
    requires Inv(c, s, clock)
    ensures SendsInv(c, s.tokens, clock) && WrongInv(c, s.tokens, s.wrong, clock)
    ensures forall i :: 0 <= i < |s.tokens| ==> CountInv(c, s.tokens[i], WrongTimes(s.wrong, i), clock)
  {
    hide SendsInv, WrongInv, CountInv, WrongTimes;
  }

  lemma InvFrom(c: Config, s: State, clock: nat)
    requires SendsInv(c, s.tokens, clock) && Watched(s) && WrongInv(c, s.tokens, s.wrong, clock)
    requires forall i :: 0 <= i < |s.tokens| ==> CountInv(c, s.tokens[i], WrongTimes(s.wrong, i), clock)
    ensures Inv(c, s, clock)
  {
    hide SendsInv, Watched, WrongInv, CountInv, WrongTimes;
  }

  lemma SendParts(c: Config, s: State, code: nat, now: nat)
    requires Newest(s.tokens) == if s.tokens == [] then None else Some(|s.tokens| - 1)
    requires Sending(c, s, code, now).answer.Ok?
    ensures var s' := Sending(c, s, code, now).state;
      && s'.tokens == Retire(s.tokens, now) + [NewToken(c, s.email, code, now)] && s'.wrong == s.wrong && Watched(s')
    ensures s.tokens != [] ==> s.tokens[|s.tokens| - 1].createdAt + c.cooldown <= now
    ensures s.verifiedAt.None?
  {
    hide Newest;
  }

  lemma SentKeepsCounts(c: Config, s: State, clock: nat, t: Token, now: nat)
    requires Inv(c, s, clock) && clock <= now && t.attempts == 0
    ensures var tokens := Retire(s.tokens, now) + [t];
      forall i :: 0 <= i < |tokens| ==> CountInv(c, tokens[i], WrongTimes(s.wrong, i), now)
  {
    hide SendsInv, WrongInv, CountInv, WrongTimes;
    var tokens := Retire(s.tokens, now) + [t];
    forall i | 0 <= i < |tokens|
      ensures CountInv(c, tokens[i], WrongTimes(s.wrong, i), now)
    {
      if i < |s.tokens| { CountLater(c, s.tokens[i], WrongTimes(s.wrong, i), clock, now); }
      else { NewCount(c, s.tokens, s.wrong, clock, t, now); }
    }
  }

  lemma RefusedSend(c: Config, s: State, code: nat, now: nat)
    ensures Sending(c, s, code, now).answer.Err? ==> Sending(c, s, code, now).state == s
    ensures Sending(c, s, code, now).answer.Ok? ==> s.verifiedAt.None?
  {
  }

  lemma SendKeepsInv(c: Config, s: State, clock: nat, code: nat, now: nat)
    requires Inv(c, s, clock) && clock <= now
    ensures Inv(c, Sending(c, s, code, now).state, now)
  {
    hide *;
    LaterClock(c, s, clock, now);
    RefusedSend(c, s, code, now);
    if Sending(c, s, code, now).answer.Ok? {
      var t := NewToken(c, s.email, code, now);
      NewTokenParts(c, s.email, code, now);
      NewestIsLast(c, s, clock);
      InvParts(c, s, clock);
      SendParts(c, s, code, now);
      SendKeepsSends(c, s.tokens, clock, t, now);
      SendKeepsWrong(c, s.tokens, s.wrong, clock, t, now);
      SentKeepsCounts(c, s, clock, t, now);
      InvFrom(c, Sending(c, s, code, now).state, now);
    }
  }

  lemma NewTokenParts(c: Config, email: nat, code: nat, now: nat)
    ensures var t := NewToken(c, email, code, now); t.createdAt == now && t.expiresAt == now + c.ttl && t.attempts == 0
  {
  }

  lemma NewCount(c: Config, tokens: seq<Token>, wrong: seq<Guess>, clock: nat, t: Token, now: nat)
    requires WrongInv(c, tokens, wrong, clock) && t.attempts == 0
    ensures CountInv(c, t, WrongTimes(wrong, |tokens|), now)
  {
    NoWrongYet(wrong, |tokens|);
  }

  lemma LaterClock(c: Config, s: State, clock: nat, now: nat)
    requires Inv(c, s, clock) && clock <= now
    ensures Inv(c, s, now)
  {
    hide LockedApart, Ordered, WrongTimes, CountInv;
    forall i | 0 <= i < |s.tokens|
      ensures CountInv(c, s.tokens[i], WrongTimes(s.wrong, i), now)
    {
      CountLater(c, s.tokens[i], WrongTimes(s.wrong, i), clock, now);
    }
  }

  lemma MissKeepsCount(c: Config, t: Token, w: seq<nat>, clock: nat, now: nat, later: nat)
    requires CountInv(c, t, w, clock) && t.usedAt.None? && t.createdAt <= clock <= now <= later && now < t.createdAt + c.ttl
    requires !(t.lockedUntil.Some? && t.lockedUntil.value > now)
    ensures CountInv(c, Missed(c, t, later), w + [now], later)
  {
    AppendLockedApart(w, c.maxAttempts, c.lockout, now);
    hide LockedApart;
  }

  lemma MissKeepsWrong(c: Config, tokens: seq<Token>, wrong: seq<Guess>, clock: nat, t: Token, now: nat, later: nat)
    requires WrongInv(c, tokens, wrong, clock) && clock <= now <= later && tokens != []
    requires t.createdAt == tokens[|tokens| - 1].createdAt <= clock && now < t.createdAt + c.ttl
    ensures WrongInv(c, tokens[|tokens| - 1 := t], wrong + [Guess(|tokens| - 1, now)], later)
  {
  }

  lemma MissKeepsSends(c: Config, tokens: seq<Token>, clock: nat, i: nat, later: nat)
    requires SendsInv(c, tokens, clock) && clock <= later && i < |tokens|
    ensures SendsInv(c, tokens[i := Missed(c, tokens[i], later)], later)
  {
  }

  /** The guards under which a code is checked. */
  predicate Open(t: Token, now: nat) {
    now < t.expiresAt && !(t.lockedUntil.Some? && t.lockedUntil.value > now)
  }

  /** What a check can do: miss or hit. */
  lemma CheckParts(c: Config, s: State, i: nat, guess: nat, now: nat, later: nat)
    requires i < |s.tokens|
    ensures var s', t := Checking(c, s, i, guess, now, later).state, s.tokens[i];
      && (guess != t.code ==>
            s'.tokens == s.tokens[i := Missed(c, t, later)] && s'.wrong == s.wrong + [Guess(i, now)]
            && s'.verifiedAt == s.verifiedAt)
      && (guess == t.code ==>
            s'.tokens == s.tokens[i := t.(usedAt := Some(later))] && s'.wrong == s.wrong && s'.verifiedAt == Some(later))
  {
    hide Missed;
  }

  lemma LastToken(c: Config, tokens: seq<Token>, clock: nat)
    requires SendsInv(c, tokens, clock) && tokens != []
    ensures var t := tokens[|tokens| - 1]; t.createdAt <= clock && t.expiresAt == t.createdAt + c.ttl
  {
  }

  lemma MissKeepsInv(c: Config, s: State, clock: nat, guess: nat, now: nat, later: nat)
    requires Inv(c, s, clock) && clock <= now <= later && s.tokens != [] && s.verifiedAt.None?
    requires guess != s.tokens[|s.tokens| - 1].code && Open(s.tokens[|s.tokens| - 1], now)
    requires s.tokens[|s.tokens| - 1].usedAt.None?
    ensures Inv(c, Checking(c, s, |s.tokens| - 1, guess, now, later).state, later)
  {
    hide SendsInv, WrongInv, CountInv, WrongTimes, Checking, Inv, Newest;
    var i := |s.tokens| - 1;
    var t := s.tokens[i];
    var s' := Checking(c, s, i, guess, now, later).state;
    InvParts(c, s, clock);
    CheckParts(c, s, i, guess, now, later);
    LastToken(c, s.tokens, clock);
    MissKeepsSends(c, s.tokens, clock, i, later);
    MissKeepsWrong(c, s.tokens, s.wrong, clock, Missed(c, t, later), now, later);
    assert Watched(s');
    hide Missed;
    forall k | 0 <= k < |s'.tokens|
      ensures CountInv(c, s'.tokens[k], WrongTimes(s'.wrong, k), later)
    {
      WrongTimesAppend(s.wrong, Guess(i, now), k);
      if k < i { CountLater(c, s.tokens[k], WrongTimes(s.wrong, k), clock, later); }
      else { MissKeepsCount(c, t, WrongTimes(s.wrong, i), clock, now, later); }
    }
    InvFrom(c, s', later);
  }

  lemma HitKeepsSends(c: Config, tokens: seq<Token>, wrong: seq<Guess>, clock: nat, i: nat, later: nat)
    requires SendsInv(c, tokens, clock) && WrongInv(c, tokens, wrong, clock) && i < |tokens|
    ensures var tokens' := tokens[i := tokens[i].(usedAt := Some(later))];
      SendsInv(c, tokens', clock) && WrongInv(c, tokens', wrong, clock)
  {
    hide Ordered;
  }

  lemma HitKeepsInv(c: Config, s: State, clock: nat, guess: nat, now: nat, later: nat)
    requires Inv(c, s, clock) && clock <= later && s.tokens != [] && guess == s.tokens[|s.tokens| - 1].code
    ensures Inv(c, Checking(c, s, |s.tokens| - 1, guess, now, later).state, later)
  {
    hide SendsInv, WrongInv, CountInv, WrongTimes, Checking, Inv;
    var i := |s.tokens| - 1;
    var s' := Checking(c, s, i, guess, now, later).state;
    LaterClock(c, s, clock, later);
    InvParts(c, s, clock);
    InvParts(c, s, later);
    CheckParts(c, s, i, guess, now, later);
    HitKeepsSends(c, s.tokens, s.wrong, later, i, later);
    CountLater(c, s.tokens[i], WrongTimes(s.wrong, i), clock, later);
    InvFrom(c, s', later);
  }

  /** A confirmation that gets as far as the code checks it against the newest token. */
  lemma ConfirmParts(c: Config, s: State, guess: nat, now: nat, later: nat)
    requires Newest(s.tokens) == if s.tokens == [] then None else Some(|s.tokens| - 1)
    ensures var s' := Confirming(c, s, guess, now, later).state;
      || s' == s
      || (s.verifiedAt.None? && s.tokens != [] && Open(s.tokens[|s.tokens| - 1], now)
          && s' == Checking(c, s, |s.tokens| - 1, guess, now, later).state)
  {
    hide Checking, Newest;
  }

  lemma ConfirmKeepsInv(c: Config, s: State, clock: nat, guess: nat, now: nat, later: nat)
    requires Inv(c, s, clock) && clock <= now <= later
    ensures Inv(c, Confirming(c, s, guess, now, later).state, later)
  {
    hide Inv, Checking, Confirming, Newest;
    LaterClock(c, s, clock, later);
    if s.verifiedAt.None? && s.tokens != [] {
      NewestIsLast(c, s, clock);
      ConfirmParts(c, s, guess, now, later);
      var t := s.tokens[|s.tokens| - 1];
      if guess == t.code { HitKeepsInv(c, s, clock, guess, now, later); }
      else if Open(t, now) { MissKeepsInv(c, s, clock, guess, now, later); }
    } else {
      NothingToConfirm(c, s, guess, now, later);
    }
  }

  lemma NothingToConfirm(c: Config, s: State, guess: nat, now: nat, later: nat)
    requires s.verifiedAt.Some? || s.tokens == []
    ensures Confirming(c, s, guess, now, later).state == s
  {
  }

  lemma StepKeepsInv(c: Config, s: State, clock: nat, e: Event)
    requires Inv(c, s, clock) && Timely(clock, e)
    ensures Inv(c, Step(c, s, e), EndOf(e))
  {
    hide SendsInv, WrongInv, CountInv, WrongTimes;
    match e
    case Send(code, now) => SendKeepsInv(c, s, clock, code, now);
    case Confirm(guess, now, later) => ConfirmKeepsInv(c, s, clock, guess, now, later);
    case Moved(email, now) => LaterClock(c, s, clock, now);
  }

  function LastClock(clock: nat, events: seq<Event>): nat {
    if events == [] then clock else EndOf(events[|events| - 1])
  }

  lemma {:induction false} RunKeepsInv(c: Config, s: State, clock: nat, events: seq<Event>)
    requires Inv(c, s, clock) && TimelyRun(clock, events)
    ensures Inv(c, Run(c, s, events), LastClock(clock, events))
    decreases |events|
  {
    hide Inv, Step;
    if events != [] {
      StepKeepsInv(c, s, clock, events[0]);
      RunKeepsInv(c, Step(c, s, events[0]), EndOf(events[0]), events[1..]);
      assert LastClock(EndOf(events[0]), events[1..]) == LastClock(clock, events);
    }
  }

  lemma FreshInv(c: Config, email: nat)
    ensures Inv(c, Fresh(email), 0)
  {
  }

  // ---- The budgets --------------------------------------------------------------------

  lemma TokenBudget(c: Config, t: Token, w: seq<nat>, clock: nat)
    requires CountInv(c, t, w, clock) && c.maxAttempts > 0 && c.ttl > 0 && c.lockout > 0
    ensures |w| <= c.maxAttempts + (c.ttl - 1) / c.lockout && (c.lockout >= c.ttl ==> |w| <= c.maxAttempts)
  {
    GuessesInSpan(w, c.maxAttempts, c.lockout, t.createdAt, t.createdAt + c.ttl - 1);
    assert t.createdAt + c.ttl - 1 - t.createdAt == c.ttl - 1;
    if c.lockout >= c.ttl { NoQuotient(c.ttl - 1, c.lockout); }
  }

  predicate Within(g: Guess, from: nat, to: nat) {
    from <= g.at <= to
  }

  /** Wrong codes checked in a window of time. */
  function Hits(wrong: seq<Guess>, from: nat, to: nat): nat {
    if wrong == [] then 0
    else Hits(wrong[..|wrong| - 1], from, to) + if Within(wrong[|wrong| - 1], from, to) then 1 else 0
  }

  /** Wrong codes checked against tokens `lo` up to, not including, `hi`. */
  function Against(wrong: seq<Guess>, lo: nat, hi: nat): nat {
    if wrong == [] then 0
    else Against(wrong[..|wrong| - 1], lo, hi) + if lo <= wrong[|wrong| - 1].token < hi then 1 else 0
  }

  lemma {:induction false} AgainstOneMore(wrong: seq<Guess>, lo: nat, hi: nat)
    requires lo <= hi
    ensures Against(wrong, lo, hi + 1) == Against(wrong, lo, hi) + |WrongTimes(wrong, hi)|
  {
    if wrong != [] { AgainstOneMore(wrong[..|wrong| - 1], lo, hi); }
  }

  lemma {:induction false} AgainstBound(wrong: seq<Guess>, lo: nat, hi: nat, each: nat)
    requires lo <= hi && forall i :: lo <= i < hi ==> |WrongTimes(wrong, i)| <= each
    ensures Against(wrong, lo, hi) <= each * (hi - lo)
    decreases hi
  {
    if lo == hi {
      AgainstNone(wrong, lo);
    } else {
      AgainstOneMore(wrong, lo, hi - 1);
      AgainstBound(wrong, lo, hi - 1, each);
      assert each * (hi - lo) == each * (hi - 1 - lo) + each;
    }
  }

  lemma {:induction false} AgainstNone(wrong: seq<Guess>, lo: nat)
    ensures Against(wrong, lo, lo) == 0
  {
    if wrong != [] { AgainstNone(wrong[..|wrong| - 1], lo); }
  }

  lemma {:induction false} HitsAreAgainst(wrong: seq<Guess>, from: nat, to: nat, lo: nat, hi: nat)
    requires forall p :: 0 <= p < |wrong| && Within(wrong[p], from, to) ==> lo <= wrong[p].token < hi
    ensures Hits(wrong, from, to) <= Against(wrong, lo, hi)
  {
    if wrong != [] {
      var rest := wrong[..|wrong| - 1];
      assert forall p :: 0 <= p < |rest| ==> rest[p] == wrong[p];
      HitsAreAgainst(rest, from, to, lo, hi);
    }
  }

  /** The first and the last wrong code in the window. */
  lemma {:induction false} Ends(wrong: seq<Guess>, from: nat, to: nat) returns (p: nat, q: nat)
    requires Hits(wrong, from, to) > 0
    ensures p <= q < |wrong| && Within(wrong[p], from, to) && Within(wrong[q], from, to)
    ensures forall k :: 0 <= k < |wrong| && Within(wrong[k], from, to) ==> p <= k <= q
  {
    hide Within;
    var n := |wrong| - 1;
    var rest := wrong[..n];
    assert forall k :: 0 <= k < n ==> rest[k] == wrong[k];
    if Hits(rest, from, to) == 0 {
      NoHits(rest, from, to);
      p, q := n, n;
    } else {
      p, q := Ends(rest, from, to);
      if Within(wrong[n], from, to) { q := n; }
    }
  }

  lemma {:induction false} NoHits(wrong: seq<Guess>, from: nat, to: nat)
    requires Hits(wrong, from, to) == 0
    ensures forall k :: 0 <= k < |wrong| ==> !Within(wrong[k], from, to)
  {
    hide Within;
    if wrong != [] {
      var rest := wrong[..|wrong| - 1];
      NoHits(rest, from, to);
      assert forall k :: 0 <= k < |rest| ==> rest[k] == wrong[k];
    }
  }

  lemma {:induction false} SendsAddUp(c: Config, tokens: seq<Token>, clock: nat, i: nat, j: nat)
    requires SendsInv(c, tokens, clock) && i <= j < |tokens|
    ensures tokens[i].createdAt + c.cooldown * (j - i) <= tokens[j].createdAt
    decreases j
  {
    if i < j {
      SendsAddUp(c, tokens, clock, i, j - 1);
      assert c.cooldown * (j - i) == c.cooldown * (j - 1 - i) + c.cooldown;
    }
  }

  /** Of two tokens guessed at, every one after the first was sent between the two guesses. */
  lemma SentBetween(c: Config, tokens: seq<Token>, wrong: seq<Guess>, clock: nat, p: nat, q: nat)
    requires WrongInv(c, tokens, wrong, clock) && p <= q < |wrong|
    ensures wrong[p].token <= wrong[q].token < |tokens|
    ensures wrong[p].token < wrong[q].token ==>
              wrong[p].at <= tokens[wrong[p].token + 1].createdAt && tokens[wrong[q].token].createdAt <= wrong[q].at
  {
  }

  /** Tokens guessed at in one window: the cooldown limits how many there can be. */
  lemma TokensInWindow(c: Config, tokens: seq<Token>, wrong: seq<Guess>, clock: nat, p: nat, q: nat, from: nat, to: nat)
    requires SendsInv(c, tokens, clock) && WrongInv(c, tokens, wrong, clock) && c.cooldown > 0 && from <= to
    requires p <= q < |wrong| && from <= wrong[p].at && wrong[q].at <= to
    ensures wrong[p].token <= wrong[q].token < |tokens|
    ensures wrong[q].token + 1 - wrong[p].token <= (to - from) / c.cooldown + 2
  {
    hide SendsInv, WrongInv;
    var lo, hi := wrong[p].token, wrong[q].token;
    SentBetween(c, tokens, wrong, clock, p, q);
    if lo < hi {
      SendsAddUp(c, tokens, clock, lo + 1, hi);
      assert hi - (lo + 1) == hi - lo - 1;
      QuotientBound(to - from, c.cooldown, hi - lo - 1);
    } else {
      assert (to - from) / c.cooldown >= 0;
    }
  }

  lemma WindowBudgetOf(c: Config, s: State, clock: nat, each: nat, from: nat, to: nat)
    requires SendsInv(c, s.tokens, clock) && WrongInv(c, s.tokens, s.wrong, clock) && from <= to && c.cooldown > 0
    requires forall i :: 0 <= i < |s.tokens| ==> |WrongTimes(s.wrong, i)| <= each
    ensures Hits(s.wrong, from, to) <= each * ((to - from) / c.cooldown + 2)
  {
    hide SendsInv, Ordered, Hits, Against, WrongTimes;
    var room := (to - from) / c.cooldown + 2;
    if Hits(s.wrong, from, to) > 0 {
      var p, q := Ends(s.wrong, from, to);
      TokensInWindow(c, s.tokens, s.wrong, clock, p, q, from, to);
      var lo, hi := s.wrong[p].token, s.wrong[q].token + 1;
      TokensBetween(c, s.tokens, s.wrong, clock, p, q);
      hide WrongInv;
      HitsAreAgainst(s.wrong, from, to, lo, hi);
      AgainstBound(s.wrong, lo, hi, each);
      TimesGrows(each, hi - lo, room);
    } else {
      TimesGrows(each, 0, room);
    }
  }

  lemma TokensBetween(c: Config, tokens: seq<Token>, wrong: seq<Guess>, clock: nat, p: nat, q: nat)
    requires WrongInv(c, tokens, wrong, clock) && p <= q < |wrong|
    ensures forall k :: p <= k <= q ==> wrong[p].token <= wrong[k].token < wrong[q].token + 1
  {
  }

  lemma TimesGrows(a: nat, m: nat, n: nat)
    requires m <= n
    ensures a * m <= a * n
  {
    assert a * n == a * m + a * (n - m);
  }

  /** Against one code: at most maxAttempts + (ttl - 1) / lockout wrong guesses are ever checked. */
  lemma GuessBudgetPerCode(c: Config, email: nat, events: seq<Event>, i: nat)
    requires TimelyRun(0, events) && c.maxAttempts > 0 && c.ttl > 0 && c.lockout > 0
    ensures var n := |WrongTimes(Run(c, Fresh(email), events).wrong, i)|;
      n <= c.maxAttempts + (c.ttl - 1) / c.lockout && (c.lockout >= c.ttl ==> n <= c.maxAttempts)
  {
    hide *;
    FreshInv(c, email);
    RunKeepsInv(c, Fresh(email), 0, events);
    BudgetOfState(c, Run(c, Fresh(email), events), LastClock(0, events), i);
  }

  lemma BudgetOfState(c: Config, s: State, clock: nat, i: nat)
    requires Inv(c, s, clock) && c.maxAttempts > 0 && c.ttl > 0 && c.lockout > 0
    ensures var n := |WrongTimes(s.wrong, i)|;
      n <= c.maxAttempts + (c.ttl - 1) / c.lockout && (c.lockout >= c.ttl ==> n <= c.maxAttempts)
  {
    hide CountInv, WrongTimes, SendsInv, Ordered;
    InvParts(c, s, clock);
    hide Inv;
    if i < |s.tokens| {
      TokenBudget(c, s.tokens[i], WrongTimes(s.wrong, i), clock);
    } else {
      NoWrongYet(s.wrong, i);
      assert (c.ttl - 1) / c.lockout >= 0;
    }
  }

  /**
   Across all resends: in any window of time the wrong codes checked for one user are at most
   the budget of one code times the resends the cooldown allows, plus two.
   */
  lemma WindowBudget(c: Config, email: nat, events: seq<Event>, from: nat, to: nat)
    requires TimelyRun(0, events) && from <= to
    requires c.maxAttempts > 0 && c.ttl > 0 && c.lockout > 0 && c.cooldown > 0
    ensures var n := Hits(Run(c, Fresh(email), events).wrong, from, to);
      && n <= (c.maxAttempts + (c.ttl - 1) / c.lockout) * ((to - from) / c.cooldown + 2)
      && (c.lockout >= c.ttl ==> n <= c.maxAttempts * ((to - from) / c.cooldown + 2))
  {
    hide *;
    FreshInv(c, email);
    RunKeepsInv(c, Fresh(email), 0, events);
    var s, clock := Run(c, Fresh(email), events), LastClock(0, events);
    InvParts(c, s, clock);
    forall i | 0 <= i < |s.tokens|
      ensures |WrongTimes(s.wrong, i)| <= c.maxAttempts + (c.ttl - 1) / c.lockout
      ensures c.lockout >= c.ttl ==> |WrongTimes(s.wrong, i)| <= c.maxAttempts
    {
      TokenBudget(c, s.tokens[i], WrongTimes(s.wrong, i), clock);
    }
    WindowBudgetOf(c, s, clock, c.maxAttempts + (c.ttl - 1) / c.lockout, from, to);
    if c.lockout >= c.ttl { WindowBudgetOf(c, s, clock, c.maxAttempts, from, to); }
  }

  /**
   After any run, a code proves the address exactly when it is the latest one sent, was sent
   to the address the account has now, is younger than its lifetime and is not locked. An
   earlier code, or one sent to an earlier address, proves nothing.
   */
  lemma OnlyTheLatestCodeProves(c: Config, email: nat, events: seq<Event>, guess: nat, now: nat, later: nat)
    requires TimelyRun(0, events) && LastClock(0, events) <= now <= later
    requires Run(c, Fresh(email), events).verifiedAt.None?
    ensures var s := Run(c, Fresh(email), events);
      Confirming(c, s, guess, now, later).state.verifiedAt.Some? <==>
        && s.tokens != []
        && var t := s.tokens[|s.tokens| - 1];
          t.code == guess && t.email == s.email && now < t.createdAt + c.ttl
          && !(t.lockedUntil.Some? && t.lockedUntil.value > now)
  {
    hide Run, TimelyRun, Inv, SendsInv, WrongInv, CountInv, WrongTimes, Newest;
    FreshInv(c, email);
    RunKeepsInv(c, Fresh(email), 0, events);
    var s, clock := Run(c, Fresh(email), events), LastClock(0, events);
    NewestIsLast(c, s, clock);
    InvParts(c, s, clock);
    if s.tokens != [] { LastToken(c, s.tokens, clock); }
  }

  // ---- The service --------------------------------------------------------------------

  /** The newest unused token, read off the rows. */
  predicate IsLatest(tokens: seq<Token>, i: nat) {
    && i < |tokens| && tokens[i].usedAt.None?
    && forall k :: i < k < |tokens| ==> tokens[k].usedAt.Some?
  }

  predicate Unlocked(t: Token, now: nat) {
    t.lockedUntil.Some? ==> t.lockedUntil.value <= now
  }

  class EmailVerificationService {
    const config: Config
    var email: nat
    var emailVerifiedAt: Option<nat>
    var tokens: seq<Token>
    ghost var wrong: seq<Guess>

    ghost function Snapshot(): State
      reads this
    {
      State(email, emailVerifiedAt, tokens, wrong)
    }

    constructor (config: Config, email: nat)
      ensures this.config == config && Snapshot() == Fresh(email)
    {
      this.config := config;
      this.email := email;
      emailVerifiedAt, tokens, wrong := None, [], [];
    }

    method Send(code: nat, now: nat) returns (r: Result<nat, Error>)
      modifies this
      ensures var o := Sending(config, old(Snapshot()), code, now); Snapshot() == o.state && r == o.answer
      ensures r.Err? ==> tokens == old(tokens)
      ensures r.Ok? ==>
                && |tokens| == |old(tokens)| + 1 && tokens[|old(tokens)|] == NewToken(config, email, code, now)
                && (forall i :: 0 <= i < |old(tokens)| ==> tokens[i].usedAt.Some?)
                && Newest(tokens) == Some(|old(tokens)|)
      ensures r == Err(EmailAlreadyVerified) <==> old(emailVerifiedAt).Some?
      ensures r == Err(EmailCodeTooSoon) <==>
                && old(emailVerifiedAt).None?
                && exists i :: 0 <= i < |old(tokens)| && IsLatest(old(tokens), i) && now < old(tokens)[i].createdAt + config.cooldown
      ensures r.Ok? <==>
                && old(emailVerifiedAt).None?
                && forall i :: 0 <= i < |old(tokens)| && IsLatest(old(tokens), i) ==> now >= old(tokens)[i].createdAt + config.cooldown
      ensures r.Ok? ==>
                && r.value == config.ttl
                && tokens[|old(tokens)|] == Token(email, code, 0, None, now + config.ttl, None, now)
                && forall i :: 0 <= i < |old(tokens)| ==>
                     tokens[i] == if old(tokens)[i].usedAt.None? then old(tokens)[i].(usedAt := Some(now)) else old(tokens)[i]
      ensures email == old(email) && emailVerifiedAt == old(emailVerifiedAt) && wrong == old(wrong)
    {
      if emailVerifiedAt.Some? { return Err(EmailAlreadyVerified); }
      var recent := Newest(tokens);
      if recent.Some? {
        var waited := now - tokens[recent.value].createdAt;
        if waited < config.cooldown { return Err(EmailCodeTooSoon); }
      }
      tokens := Retire(tokens, now);
      tokens := tokens + [Token(email, code, 0, None, now + config.ttl, None, now)];
      r := Ok(config.ttl);
    }

    method Confirm(guess: nat, now: nat, later: nat) returns (r: Result<nat, Error>)
      modifies this
      ensures var o := Confirming(config, old(Snapshot()), guess, now, later); Snapshot() == o.state && r == o.answer
      ensures r.Err? ==> emailVerifiedAt == old(emailVerifiedAt) == None
      ensures r.Ok? ==> emailVerifiedAt == Some(r.value) && wrong == old(wrong)
      ensures r.Ok? && old(emailVerifiedAt).None? ==>
                exists i :: 0 <= i < |old(tokens)| && old(tokens)[i].code == guess && old(tokens)[i].email == email
                            && now < old(tokens)[i].expiresAt && tokens[i].usedAt == Some(later)
      ensures old(emailVerifiedAt).Some? ==> r == Ok(old(emailVerifiedAt).value) && tokens == old(tokens)
      ensures old(emailVerifiedAt).None? ==>
                (r == Err(EmailCodeNotRequested) <==> forall i :: 0 <= i < |old(tokens)| ==> old(tokens)[i].usedAt.Some?)
      ensures old(emailVerifiedAt).None? ==> forall i | 0 <= i < |old(tokens)| && IsLatest(old(tokens), i) ::
                var t := old(tokens)[i];
                && (!Unlocked(t, now) ==> r == Err(EmailCodeLocked) && tokens == old(tokens))
                && (r == Err(EmailCodeExpired) <==> Unlocked(t, now) && t.expiresAt <= now)
                && (r == Err(EmailChanged) <==> Unlocked(t, now) && now < t.expiresAt && t.email != email)
                && (Unlocked(t, now) && now < t.expiresAt && t.email == email && guess != t.code ==>
                      if t.attempts + 1 >= config.maxAttempts
                      then r == Err(EmailCodeLocked)
                           && tokens == old(tokens)[i := t.(attempts := t.attempts + 1, lockedUntil := Some(later + config.lockout))]
                      else r == Err(EmailCodeInvalid) && tokens == old(tokens)[i := t.(attempts := t.attempts + 1)])
                && (r.Ok? <==> Unlocked(t, now) && now < t.expiresAt && t.email == email && guess == t.code)
                && (r.Ok? ==> r.value == later && tokens == old(tokens)[i := t.(usedAt := Some(later))])
      ensures email == old(email)
    {
      if emailVerifiedAt.Some? { return Ok(emailVerifiedAt.value); }
      var found := Newest(tokens);
      if found.None? { return Err(EmailCodeNotRequested); }
      var record := tokens[found.value];
      if record.lockedUntil.Some? && record.lockedUntil.value > now { return Err(EmailCodeLocked); }
      if record.expiresAt <= now { return Err(EmailCodeExpired); }
      if record.email != email { return Err(EmailChanged); }
      if guess != record.code {
        var attempts := record.attempts + 1;
        var locked := attempts >= config.maxAttempts;
        record := record.(attempts := attempts);
        if locked { record := record.(lockedUntil := Some(later + config.lockout)); }
        tokens := tokens[found.value := record];
        wrong := wrong + [Guess(found.value, now)];
        return Err(if locked then EmailCodeLocked else EmailCodeInvalid);
      }
      tokens := tokens[found.value := record.(usedAt := Some(later))];
      emailVerifiedAt := Some(later);
      r := Ok(later);
    }
  }
}
