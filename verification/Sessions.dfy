/**
 Refresh tokens: rotation with reuse detection, and every way a session starts or ends. A
 token's secret and its digest are one opaque number; a random family identifier never
 repeats, so families are numbered. Calls run one after another; times are milliseconds.
 */
module Sessions {
  import opened Common
  import opened Accounts

  datatype Token = Token(
    user: nat, family: nat, secret: nat, expiresAt: nat, revokedAt: Option<nat>, replacedBy: Option<nat>)

  datatype State = State(status: map<nat, Status>, tokens: seq<Token>, families: nat)

  datatype Error =
    | AccountExists | InvalidCredentials | Refused(why: Unusable) | DuplicateToken
    | InvalidRefreshToken | RefreshTokenReused | RefreshTokenExpired | AccountUnavailable
    | UserNotFound | CannotSuspendSelf

  /** A successful call that opens a session answers with the new token's position. */
  datatype Outcome = Outcome(state: State, answer: Result<Option<nat>, Error>)

  /** `Login` carries valid credentials, `Google` a verified profile; `link` is a first sign-in on an existing account. */
  datatype Event =
    | Register(user: nat, secret: nat, now: nat)
    | Login(user: nat, secret: nat, now: nat)
    | Google(user: nat, link: bool, secret: nat, now: nat)
    | Refresh(presented: nat, secret: nat, now: nat)
    | Logout(cookie: Option<nat>, now: nat)
    | ResetPassword(user: nat, now: nat)
    | Suspend(admin: nat, user: nat, now: nat)
    | Reinstate(user: nat, now: nat)

  function Revoked(t: Token, now: nat): Token {
    if t.revokedAt.None? then t.(revokedAt := Some(now)) else t
  }

  function RevokeUser(tokens: seq<Token>, user: nat, now: nat): (r: seq<Token>)
    ensures |r| == |tokens|
    ensures forall i :: 0 <= i < |tokens| ==> r[i] == if tokens[i].user == user then Revoked(tokens[i], now) else tokens[i]
  {
    seq(|tokens|, i requires 0 <= i < |tokens| => if tokens[i].user == user then Revoked(tokens[i], now) else tokens[i])
  }

  function RevokeFamily(tokens: seq<Token>, family: nat, now: nat): (r: seq<Token>)
    ensures |r| == |tokens|
    ensures forall i :: 0 <= i < |tokens| ==> r[i] == if tokens[i].family == family then Revoked(tokens[i], now) else tokens[i]
  {
    seq(|tokens|, i requires 0 <= i < |tokens| => if tokens[i].family == family then Revoked(tokens[i], now) else tokens[i])
  }

  function Lookup(tokens: seq<Token>, secret: nat): (i: Option<nat>)
    ensures i.Some? ==> i.value < |tokens| && tokens[i.value].secret == secret
    ensures i.None? ==> forall k :: 0 <= k < |tokens| ==> tokens[k].secret != secret
  {
    var n := |tokens| - 1;
    if tokens == [] then None else if tokens[n].secret == secret then Some(n) else Lookup(tokens[..n], secret)
  }

  /** A new token in a family; the digest is unique in the table. */
  function Issue(ttl: nat, s: State, user: nat, family: nat, secret: nat, now: nat): Outcome {
    if Lookup(s.tokens, secret).Some? then Outcome(s, Err(DuplicateToken))
    else Outcome(s.(tokens := s.tokens + [Token(user, family, secret, now + ttl, None, None)]), Ok(Some(|s.tokens|)))
  }

  function OpenSession(ttl: nat, s: State, user: nat, secret: nat, now: nat): Outcome {
    Issue(ttl, s.(families := s.families + 1), user, s.families, secret, now)
  }

  function Registering(ttl: nat, s: State, user: nat, secret: nat, now: nat): Outcome {
    if user in s.status then Outcome(s, Err(AccountExists))
    else OpenSession(ttl, s.(status := s.status[user := Active]), user, secret, now)
  }

  function LoggingIn(ttl: nat, s: State, user: nat, secret: nat, now: nat): Outcome {
    if user !in s.status then Outcome(s, Err(InvalidCredentials))
    else if WhyUnusable(s.status[user]).Some? then Outcome(s, Err(Refused(WhyUnusable(s.status[user]).value)))
    else OpenSession(ttl, s, user, secret, now)
  }

  /** Somebody new becomes an active user; linking an existing account ends its other sessions first. */
  function SigningIn(ttl: nat, s: State, user: nat, link: bool, secret: nat, now: nat): Outcome {
    if user !in s.status then OpenSession(ttl, s.(status := s.status[user := Active]), user, secret, now)
    else if WhyUnusable(s.status[user]).Some? then Outcome(s, Err(Refused(WhyUnusable(s.status[user]).value)))
    else OpenSession(ttl, if link then s.(tokens := RevokeUser(s.tokens, user, now)) else s, user, secret, now)
  }

  function Rotate(ttl: nat, s: State, i: nat, secret: nat, now: nat): Outcome
    requires i < |s.tokens|
  {
    var o := Issue(ttl, s, s.tokens[i].user, s.tokens[i].family, secret, now);
    if o.answer.Err? then o
    else
      var tokens := o.state.tokens;
      Outcome(o.state.(tokens := tokens[i := tokens[i].(revokedAt := Some(now), replacedBy := Lookup(tokens, secret))]),
              o.answer)
  }

  function Refreshing(ttl: nat, s: State, presented: nat, secret: nat, now: nat): Outcome {
    var found := Lookup(s.tokens, presented);
    if found.None? then Outcome(s, Err(InvalidRefreshToken))
    else
      var record := s.tokens[found.value];
      if record.revokedAt.Some? || record.replacedBy.Some? then
        Outcome(s.(tokens := RevokeFamily(s.tokens, record.family, now)), Err(RefreshTokenReused))
      else if record.expiresAt <= now then Outcome(s, Err(RefreshTokenExpired))
      else if record.user !in s.status || s.status[record.user] != Active then Outcome(s, Err(AccountUnavailable))
      else Rotate(ttl, s, found.value, secret, now)
  }

  function LoggingOut(s: State, presented: Option<nat>, now: nat): Outcome {
    if presented.None? then Outcome(s, Ok(None))
    else
      var found := Lookup(s.tokens, presented.value);
      if found.None? then Outcome(s, Ok(None))
      else Outcome(s.(tokens := RevokeFamily(s.tokens, s.tokens[found.value].family, now)), Ok(None))
  }

  function Suspending(s: State, admin: nat, user: nat, now: nat): Outcome {
    if user !in s.status then Outcome(s, Err(UserNotFound))
    else if user == admin then Outcome(s, Err(CannotSuspendSelf))
    else Outcome(s.(status := s.status[user := Suspended], tokens := RevokeUser(s.tokens, user, now)), Ok(None))
  }

  function Reinstating(s: State, user: nat): Outcome {
    if user !in s.status then Outcome(s, Err(UserNotFound))
    else Outcome(s.(status := s.status[user := Active]), Ok(None))
  }

  function Do(ttl: nat, s: State, e: Event): Outcome {
    match e
    case Register(user, secret, now) => Registering(ttl, s, user, secret, now)
    case Login(user, secret, now) => LoggingIn(ttl, s, user, secret, now)
    case Google(user, link, secret, now) => SigningIn(ttl, s, user, link, secret, now)
    case Refresh(presented, secret, now) => Refreshing(ttl, s, presented, secret, now)
    case Logout(cookie, now) => LoggingOut(s, cookie, now)
    case ResetPassword(user, now) => Outcome(s.(tokens := RevokeUser(s.tokens, user, now)), Ok(None))
    case Suspend(admin, user, now) => Suspending(s, admin, user, now)
    case Reinstate(user, now) => Reinstating(s, user)
  }

  function Run(ttl: nat, s: State, events: seq<Event>): State
    decreases |events|
  {
    if events == [] then s else Run(ttl, Do(ttl, s, events[0]).state, events[1..])
  }

  function Fresh(status: map<nat, Status>): State {
    State(status, [], 0)
  }

  // ---- What every run keeps ----------------------------------------------------------

  /** Tokens of one family belong to one user; only its newest is not replaced, and links skip nobody. */
  ghost predicate Chained(tokens: seq<Token>) {
    && (forall i, j :: 0 <= i < j < |tokens| && tokens[i].family == tokens[j].family ==>
          tokens[i].user == tokens[j].user && tokens[i].replacedBy.Some?)
    && (forall i :: 0 <= i < |tokens| && tokens[i].replacedBy.Some? ==>
          && i < tokens[i].replacedBy.value < |tokens|
          && tokens[tokens[i].replacedBy.value].family == tokens[i].family
          && tokens[i].revokedAt.Some?)
    && (forall i, k :: 0 <= i < k < |tokens| && tokens[i].family == tokens[k].family ==>
          tokens[i].replacedBy.value <= k)
  }

  ghost predicate Distinct(tokens: seq<Token>) {
    forall i, j :: 0 <= i < j < |tokens| ==> tokens[i].secret != tokens[j].secret
  }

  predicate Numbered(tokens: seq<Token>, families: nat) {
    forall i :: 0 <= i < |tokens| ==> tokens[i].family < families
  }

  /** Every token has its user, and a suspended user has no session left. */
  predicate Owned(tokens: seq<Token>, status: map<nat, Status>) {
    forall i :: 0 <= i < |tokens| ==>
      tokens[i].user in status && (status[tokens[i].user] == Suspended ==> tokens[i].revokedAt.Some?)
  }

  ghost predicate Inv(s: State) {
    Chained(s.tokens) && Distinct(s.tokens) && Numbered(s.tokens, s.families) && Owned(s.tokens, s.status)
  }

  /** Same tokens, some of them newly revoked. */
  predicate OnlyRevoked(before: seq<Token>, after: seq<Token>) {
    && |before| == |after|
    && forall i :: 0 <= i < |before| ==>
         after[i] == before[i] || (before[i].revokedAt.None? && after[i].revokedAt.Some?
                                   && after[i] == before[i].(revokedAt := after[i].revokedAt))
  }

  lemma RevokingKeepsChains(before: seq<Token>, after: seq<Token>)
    requires OnlyRevoked(before, after)
    ensures Chained(before) ==> Chained(after)
    ensures Distinct(before) ==> Distinct(after)
    ensures forall families :: Numbered(before, families) ==> Numbered(after, families)
    ensures forall status :: Owned(before, status) ==> Owned(after, status)
  {
  }

  lemma RevokeUserOnlyRevokes(tokens: seq<Token>, user: nat, now: nat)
    ensures OnlyRevoked(tokens, RevokeUser(tokens, user, now))
  {
  }

  lemma RevokeFamilyOnlyRevokes(tokens: seq<Token>, family: nat, now: nat)
    ensures OnlyRevoked(tokens, RevokeFamily(tokens, family, now))
  {
  }

  lemma AppendKeepsChains(tokens: seq<Token>, families: nat, t: Token)
    requires Chained(tokens) && Numbered(tokens, families) && t.family == families && t.replacedBy.None?
    ensures Chained(tokens + [t]) && Numbered(tokens + [t], families + 1)
  {
  }

  lemma AppendKeepsRest(tokens: seq<Token>, status: map<nat, Status>, t: Token)
    requires Distinct(tokens) && Owned(tokens, status) && Lookup(tokens, t.secret).None?
    requires t.user in status && status[t.user] != Suspended
    ensures Distinct(tokens + [t]) && Owned(tokens + [t], status)
  {
  }

  lemma StillNumbered(tokens: seq<Token>, families: nat)
    requires Numbered(tokens, families)
    ensures Numbered(tokens, families + 1)
  {
  }

  lemma OpenKeepsInv(ttl: nat, s: State, user: nat, secret: nat, now: nat)
    requires Inv(s) && user in s.status && s.status[user] != Suspended
    ensures Inv(OpenSession(ttl, s, user, secret, now).state)
  {
    hide Chained, Distinct, Numbered, Owned;
    StillNumbered(s.tokens, s.families);
    if Lookup(s.tokens, secret).None? {
      var t := Token(user, s.families, secret, now + ttl, None, None);
      AppendKeepsChains(s.tokens, s.families, t);
      AppendKeepsRest(s.tokens, s.status, t);
    }
  }

  lemma NewUserKeepsInv(s: State, user: nat)
    requires Inv(s) && user !in s.status
    ensures Inv(s.(status := s.status[user := Active]))
  {
  }

  lemma LookupFinds(tokens: seq<Token>, i: nat)
    requires Distinct(tokens) && i < |tokens|
    ensures Lookup(tokens, tokens[i].secret) == Some(i)
  {
  }

  /** A token replaced by the one just issued in its family. */
  function Replaced(tokens: seq<Token>, i: nat, t: Token, now: nat): seq<Token>
    requires i < |tokens|
  {
    (tokens + [t])[i := tokens[i].(revokedAt := Some(now), replacedBy := Some(|tokens|))]
  }

  lemma RotateParts(ttl: nat, s: State, i: nat, secret: nat, now: nat)
    requires Distinct(s.tokens) && i < |s.tokens|
    ensures var o, t := Rotate(ttl, s, i, secret, now), s.tokens[i];
      if Lookup(s.tokens, secret).Some? then o == Outcome(s, Err(DuplicateToken))
      else o == Outcome(s.(tokens := Replaced(s.tokens, i, Token(t.user, t.family, secret, now + ttl, None, None), now)),
                        Ok(Some(|s.tokens|)))
  {
    if Lookup(s.tokens, secret).None? {
      var tokens := s.tokens + [Token(s.tokens[i].user, s.tokens[i].family, secret, now + ttl, None, None)];
      LookupFinds(tokens, |s.tokens|);
    }
  }

  lemma ReplacedKeepsChains(tokens: seq<Token>, i: nat, t: Token, now: nat)
    requires Chained(tokens) && i < |tokens| && tokens[i].replacedBy.None?
    requires t.user == tokens[i].user && t.family == tokens[i].family && t.replacedBy.None?
    ensures Chained(Replaced(tokens, i, t, now))
  {
  }

  lemma ReplacedKeepsOwned(tokens: seq<Token>, status: map<nat, Status>, i: nat, t: Token, now: nat)
    requires Owned(tokens, status) && i < |tokens| && t.user == tokens[i].user && status[t.user] != Suspended
    ensures Owned(Replaced(tokens, i, t, now), status)
  {
  }

  lemma ReplacedKeepsRest(tokens: seq<Token>, families: nat, i: nat, t: Token, now: nat)
    requires Distinct(tokens) && Numbered(tokens, families) && i < |tokens| && t.family == tokens[i].family
    requires Lookup(tokens, t.secret).None?
    ensures Distinct(Replaced(tokens, i, t, now)) && Numbered(Replaced(tokens, i, t, now), families)
  {
  }

  lemma RotateKeepsInv(ttl: nat, s: State, i: nat, secret: nat, now: nat)
    requires Inv(s) && i < |s.tokens| && s.tokens[i].replacedBy.None?
    requires s.tokens[i].user in s.status && s.status[s.tokens[i].user] == Active
    ensures Inv(Rotate(ttl, s, i, secret, now).state)
  {
    hide Chained, Distinct, Numbered, Owned, Rotate, Replaced;
    RotateParts(ttl, s, i, secret, now);
    if Lookup(s.tokens, secret).None? {
      var t := Token(s.tokens[i].user, s.tokens[i].family, secret, now + ttl, None, None);
      ReplacedKeepsChains(s.tokens, i, t, now);
      ReplacedKeepsOwned(s.tokens, s.status, i, t, now);
      ReplacedKeepsRest(s.tokens, s.families, i, t, now);
    }
  }

  lemma RefreshKeepsInv(ttl: nat, s: State, presented: nat, secret: nat, now: nat)
    requires Inv(s)
    ensures Inv(Refreshing(ttl, s, presented, secret, now).state)
  {
    var found := Lookup(s.tokens, presented);
    if found.Some? {
      var record := s.tokens[found.value];
      hide Chained, Distinct, Numbered, Owned, Rotate, OnlyRevoked;
      RevokeFamilyOnlyRevokes(s.tokens, record.family, now);
      RevokingKeepsChains(s.tokens, RevokeFamily(s.tokens, record.family, now));
      if record.replacedBy.None? && record.user in s.status && s.status[record.user] == Active {
        RotateKeepsInv(ttl, s, found.value, secret, now);
      }
    }
  }

  lemma SuspendKeepsInv(s: State, admin: nat, user: nat, now: nat)
    requires Inv(s)
    ensures Inv(Suspending(s, admin, user, now).state)
  {
    var tokens := RevokeUser(s.tokens, user, now);
    RevokeUserOnlyRevokes(s.tokens, user, now);
    assert Owned(tokens, s.status[user := Suspended]) by { hide Chained, Distinct, Numbered, OnlyRevoked; }
    hide Chained, Distinct, Numbered, Owned, OnlyRevoked;
    RevokingKeepsChains(s.tokens, tokens);
  }

  lemma ReinstateKeepsInv(s: State, user: nat)
    requires Inv(s)
    ensures Inv(Reinstating(s, user).state)
  {
    hide Chained, Distinct, Numbered;
  }

  lemma StepKeepsInv(ttl: nat, s: State, e: Event)
    requires Inv(s)
    ensures Inv(Do(ttl, s, e).state)
  {
    hide Chained, Distinct, Numbered, Owned, OpenSession, Refreshing, Suspending, Reinstating, OnlyRevoked;
    match e
    case Register(user, secret, now) =>
      if user !in s.status {
        NewUserKeepsInv(s, user);
        OpenKeepsInv(ttl, s.(status := s.status[user := Active]), user, secret, now);
      }
    case Login(user, secret, now) =>
      if user in s.status && s.status[user] != Suspended { OpenKeepsInv(ttl, s, user, secret, now); }
    case Google(user, link, secret, now) =>
      if user !in s.status {
        NewUserKeepsInv(s, user);
        OpenKeepsInv(ttl, s.(status := s.status[user := Active]), user, secret, now);
      } else if s.status[user] != Suspended {
        RevokeUserOnlyRevokes(s.tokens, user, now);
        RevokingKeepsChains(s.tokens, RevokeUser(s.tokens, user, now));
        OpenKeepsInv(ttl, s, user, secret, now);
        OpenKeepsInv(ttl, s.(tokens := RevokeUser(s.tokens, user, now)), user, secret, now);
      }
    case Refresh(presented, secret, now) => RefreshKeepsInv(ttl, s, presented, secret, now);
    case Logout(cookie, now) =>
      if cookie.Some? && Lookup(s.tokens, cookie.value).Some? {
        var family := s.tokens[Lookup(s.tokens, cookie.value).value].family;
        RevokeFamilyOnlyRevokes(s.tokens, family, now);
        RevokingKeepsChains(s.tokens, RevokeFamily(s.tokens, family, now));
      }
    case ResetPassword(user, now) =>
      RevokeUserOnlyRevokes(s.tokens, user, now);
      RevokingKeepsChains(s.tokens, RevokeUser(s.tokens, user, now));
    case Suspend(admin, user, now) => SuspendKeepsInv(s, admin, user, now);
    case Reinstate(user, now) => ReinstateKeepsInv(s, user);
  }

  lemma {:induction false} RunKeepsInv(ttl: nat, s: State, events: seq<Event>)
    requires Inv(s)
    ensures Inv(Run(ttl, s, events))
    decreases |events|
  {
    hide Inv, Do;
    if events != [] {
      StepKeepsInv(ttl, s, events[0]);
      RunKeepsInv(ttl, Do(ttl, s, events[0]).state, events[1..]);
    }
  }

  // ---- Families ------------------------------------------------------------------------

  /** The family's tokens from position `i` on, oldest first. */
  function Members(tokens: seq<Token>, family: nat, i: nat): seq<nat>
    requires i <= |tokens|
    decreases |tokens| - i
  {
    if i == |tokens| then []
    else (if tokens[i].family == family then [i] else []) + Members(tokens, family, i + 1)
  }

  /** Where the links lead from a token. */
  ghost function Follow(tokens: seq<Token>, i: nat): seq<nat>
    requires Chained(tokens) && i < |tokens|
    decreases |tokens| - i
  {
    [i] + if tokens[i].replacedBy.Some? then Follow(tokens, tokens[i].replacedBy.value) else []
  }

  lemma {:induction false} NoMembers(tokens: seq<Token>, family: nat, i: nat, j: nat)
    requires i <= j <= |tokens| && forall k :: i <= k < j ==> tokens[k].family != family
    ensures Members(tokens, family, i) == Members(tokens, family, j)
    decreases j - i
  {
    if i < j { NoMembers(tokens, family, i + 1, j); }
  }

  lemma {:induction false} FollowIsMembers(tokens: seq<Token>, i: nat)
    requires Chained(tokens) && i < |tokens|
    ensures Follow(tokens, i) == Members(tokens, tokens[i].family, i)
    decreases |tokens| - i
  {
    var family := tokens[i].family;
    if tokens[i].replacedBy.Some? {
      var j := tokens[i].replacedBy.value;
      NoMembers(tokens, family, i + 1, j);
      FollowIsMembers(tokens, j);
    } else {
      NoMembers(tokens, family, i + 1, |tokens|);
    }
  }

  /**
   After any run: the links of a family, from its oldest token on, visit exactly its tokens in
   order of issue; at most its newest is unrevoked; and a suspended user has no session.
   */
  lemma FamiliesAreChains(ttl: nat, status: map<nat, Status>, events: seq<Event>, first: nat)
    requires first < |Run(ttl, Fresh(status), events).tokens|
    requires var tokens := Run(ttl, Fresh(status), events).tokens;
      forall k :: 0 <= k < first ==> tokens[k].family != tokens[first].family
    ensures var s := Run(ttl, Fresh(status), events);
      && Chained(s.tokens)
      && Follow(s.tokens, first) == Members(s.tokens, s.tokens[first].family, 0)
      && (forall i, j :: 0 <= i < j < |s.tokens| && s.tokens[i].family == s.tokens[j].family ==> s.tokens[i].revokedAt.Some?)
      && (forall i :: 0 <= i < |s.tokens| ==>
            s.tokens[i].user in s.status && (s.status[s.tokens[i].user] == Suspended ==> s.tokens[i].revokedAt.Some?))
  {
    FreshInv(status);
    RunKeepsInv(ttl, Fresh(status), events);
    var tokens := Run(ttl, Fresh(status), events).tokens;
    hide Run, Follow, Members;
    FollowIsMembers(tokens, first);
    NoMembers(tokens, tokens[first].family, 0, first);
  }

  /** No token of the family is left to refresh with, and no new family can take its number. */
  predicate Dead(s: State, family: nat) {
    family < s.families && forall i :: 0 <= i < |s.tokens| && s.tokens[i].family == family ==> s.tokens[i].revokedAt.Some?
  }

  /** Tokens are only ever added or revoked, and only an unrevoked token gains a successor. */
  ghost predicate Evolves(s: State, s': State) {
    && s.families <= s'.families && |s.tokens| <= |s'.tokens|
    && (forall i :: 0 <= i < |s.tokens| ==>
          && s'.tokens[i].family == s.tokens[i].family && s'.tokens[i].secret == s.tokens[i].secret
          && (s.tokens[i].revokedAt.Some? ==> s'.tokens[i].revokedAt.Some?))
    && (forall i :: |s.tokens| <= i < |s'.tokens| ==> s'.tokens[i].family >= s.families || !Dead(s, s'.tokens[i].family))
  }

  lemma StepEvolves(ttl: nat, s: State, e: Event)
    requires Inv(s)
    ensures Evolves(s, Do(ttl, s, e).state)
  {
    hide Chained, Numbered, Owned;
    match e
    case Refresh(presented, secret, now) => RefreshEvolves(ttl, s, presented, secret, now);
    case _ =>
  }

  lemma RefreshEvolves(ttl: nat, s: State, presented: nat, secret: nat, now: nat)
    requires Inv(s)
    ensures Evolves(s, Refreshing(ttl, s, presented, secret, now).state)
  {
    hide Chained, Numbered, Owned, Distinct, Rotate;
    var found := Lookup(s.tokens, presented);
    if found.Some? { RotateParts(ttl, s, found.value, secret, now); }
  }

  lemma EvolvingKeepsDead(s: State, s': State, family: nat)
    requires Evolves(s, s') && Dead(s, family)
    ensures Dead(s', family)
  {
  }

  lemma {:induction false} DeadStaysDead(ttl: nat, s: State, events: seq<Event>, family: nat)
    requires Inv(s) && Dead(s, family)
    ensures Dead(Run(ttl, s, events), family)
    decreases |events|
  {
    hide Inv, Dead, Evolves, Do;
    if events != [] {
      var s' := Do(ttl, s, events[0]).state;
      StepKeepsInv(ttl, s, events[0]);
      StepEvolves(ttl, s, events[0]);
      EvolvingKeepsDead(s, s', family);
      DeadStaysDead(ttl, s', events[1..], family);
    }
  }

  /** A token keeps its place, its family and its revocation through any run. */
  lemma {:induction false} TokensKeepTheirPlace(ttl: nat, s: State, events: seq<Event>, i: nat)
    requires Inv(s) && i < |s.tokens|
    ensures var s' := Run(ttl, s, events);
      && i < |s'.tokens| && s'.tokens[i].family == s.tokens[i].family && s'.tokens[i].secret == s.tokens[i].secret
      && (s.tokens[i].revokedAt.Some? ==> s'.tokens[i].revokedAt.Some?)
    decreases |events|
  {
    hide Inv, Do, Dead;
    if events != [] {
      StepKeepsInv(ttl, s, events[0]);
      StepEvolves(ttl, s, events[0]);
      TokensKeepTheirPlace(ttl, Do(ttl, s, events[0]).state, events[1..], i);
    }
  }

  lemma ReuseKills(ttl: nat, s: State, presented: nat, secret: nat, now: nat)
    requires Inv(s) && Lookup(s.tokens, presented).Some?
    requires s.tokens[Lookup(s.tokens, presented).value].revokedAt.Some?
    ensures var o, family := Refreshing(ttl, s, presented, secret, now), s.tokens[Lookup(s.tokens, presented).value].family;
      o.answer == Err(RefreshTokenReused) && Dead(o.state, family)
  {
    hide Chained, Distinct, Owned;
  }

  /**
   Presenting a token that was already rotated or revoked ends its family: whatever happens
   next, no refresh with any token of that family succeeds again.
   */
  lemma ReuseEndsTheFamily(ttl: nat, status: map<nat, Status>, events: seq<Event>, presented: nat, secret: nat, now: nat,
                           more: seq<Event>, later: nat, secret': nat, now': nat)
    requires var tokens := Run(ttl, Fresh(status), events).tokens;
      Lookup(tokens, presented).Some? && tokens[Lookup(tokens, presented).value].revokedAt.Some?
    requires var s := Run(ttl, Fresh(status), events);
      var s' := Run(ttl, Do(ttl, s, Refresh(presented, secret, now)).state, more);
      && Lookup(s'.tokens, later).Some?
      && s'.tokens[Lookup(s'.tokens, later).value].family == s.tokens[Lookup(s.tokens, presented).value].family
    ensures var s := Run(ttl, Fresh(status), events);
      var o := Do(ttl, s, Refresh(presented, secret, now));
      && o.answer == Err(RefreshTokenReused)
      && Do(ttl, Run(ttl, o.state, more), Refresh(later, secret', now')).answer == Err(RefreshTokenReused)
  {
    FreshInv(status);
    hide Run, Inv, Lookup, Refreshing, Dead;
    var s := Run(ttl, Fresh(status), events);
    var s1 := Do(ttl, s, Refresh(presented, secret, now)).state;
    RunKeepsInv(ttl, Fresh(status), events);
    StepKeepsInv(ttl, s, Refresh(presented, secret, now));
    var family := s.tokens[Lookup(s.tokens, presented).value].family;
    ReuseKills(ttl, s, presented, secret, now);
    DeadStaysDead(ttl, s1, more, family);
    RunKeepsInv(ttl, s1, more);
    var s2 := Run(ttl, s1, more);
    DeadIsReused(ttl, s2, family, Lookup(s2.tokens, later).value, secret', now');
  }

  lemma DeadIsReused(ttl: nat, s: State, family: nat, i: nat, secret: nat, now: nat)
    requires Inv(s) && Dead(s, family) && i < |s.tokens| && s.tokens[i].family == family
    ensures Do(ttl, s, Refresh(s.tokens[i].secret, secret, now)).answer == Err(RefreshTokenReused)
  {
    hide Inv, Lookup, Refreshing;
    RevokedIsReused(ttl, s, i, secret, now);
  }

  /** A refresh that succeeds moves the session from the presented token to a new one and touches no other. */
  lemma RefreshMovesTheSession(ttl: nat, s: State, presented: nat, secret: nat, now: nat)
    requires Inv(s) && Refreshing(ttl, s, presented, secret, now).answer.Ok?
    ensures var s', i, n := Refreshing(ttl, s, presented, secret, now).state, Lookup(s.tokens, presented), |s.tokens|;
      && i.Some? && s.tokens[i.value].revokedAt.None? && now < s.tokens[i.value].expiresAt
      && Refreshing(ttl, s, presented, secret, now).answer == Ok(Some(n)) && |s'.tokens| == n + 1
      && s'.tokens[n] == Token(s.tokens[i.value].user, s.tokens[i.value].family, secret, now + ttl, None, None)
      && s'.tokens[i.value] == s.tokens[i.value].(revokedAt := Some(now), replacedBy := Some(n))
      && (forall k :: 0 <= k < n && k != i.value ==> s'.tokens[k] == s.tokens[k])
      && s'.status == s.status && s'.families == s.families
  {
    hide Chained, Numbered, Owned, Rotate, Distinct;
    RotateParts(ttl, s, Lookup(s.tokens, presented).value, secret, now);
  }

  lemma RevokedIsReused(ttl: nat, s: State, i: nat, secret: nat, now: nat)
    requires Inv(s) && i < |s.tokens| && s.tokens[i].revokedAt.Some?
    ensures Do(ttl, s, Refresh(s.tokens[i].secret, secret, now)).answer == Err(RefreshTokenReused)
  {
    hide Chained, Numbered, Owned, Lookup;
    LookupFinds(s.tokens, i);
  }

  /** A refresh token is spent once: after it was rotated no run makes it work again. */
  lemma RefreshIsSingleUse(ttl: nat, status: map<nat, Status>, events: seq<Event>, presented: nat, secret: nat, now: nat,
                           more: seq<Event>, secret': nat, now': nat)
    requires Do(ttl, Run(ttl, Fresh(status), events), Refresh(presented, secret, now)).answer.Ok?
    ensures var s' := Do(ttl, Run(ttl, Fresh(status), events), Refresh(presented, secret, now)).state;
      Do(ttl, Run(ttl, s', more), Refresh(presented, secret', now')).answer == Err(RefreshTokenReused)
  {
    FreshInv(status);
    hide Run, Inv, Refreshing;
    var s := Run(ttl, Fresh(status), events);
    var s1 := Do(ttl, s, Refresh(presented, secret, now)).state;
    RunKeepsInv(ttl, Fresh(status), events);
    StepKeepsInv(ttl, s, Refresh(presented, secret, now));
    RefreshMovesTheSession(ttl, s, presented, secret, now);
    var i := Lookup(s.tokens, presented).value;
    TokensKeepTheirPlace(ttl, s1, more, i);
    RunKeepsInv(ttl, s1, more);
    RevokedIsReused(ttl, Run(ttl, s1, more), i, secret', now');
  }

  lemma FreshInv(status: map<nat, Status>)
    ensures Inv(Fresh(status))
  {
  }

  lemma {:induction false} SuspensionLasts(ttl: nat, s: State, events: seq<Event>, user: nat)
    requires user in s.status && s.status[user] == Suspended
    requires forall k :: 0 <= k < |events| ==> events[k] != Reinstate(user, events[k].now)
    ensures var s' := Run(ttl, s, events); user in s'.status && s'.status[user] == Suspended
    decreases |events|
  {
    if events != [] {
      var s' := Do(ttl, s, events[0]).state;
      StaysSuspended(ttl, s, events[0], user);
      hide Do;
      SuspensionLasts(ttl, s', events[1..], user);
    }
  }

  lemma StaysSuspended(ttl: nat, s: State, e: Event, user: nat)
    requires user in s.status && s.status[user] == Suspended && e != Reinstate(user, e.now)
    ensures var s' := Do(ttl, s, e).state; user in s'.status && s'.status[user] == Suspended
  {
    hide Lookup;
  }

  /** From a suspension until a reinstatement, the user opens no session and refreshes none. */
  lemma SuspendedIsOut(ttl: nat, status: map<nat, Status>, events: seq<Event>, admin: nat, user: nat, at: nat,
                       more: seq<Event>, link: bool, secret: nat, now: nat)
    requires Do(ttl, Run(ttl, Fresh(status), events), Suspend(admin, user, at)).answer.Ok?
    requires forall k :: 0 <= k < |more| ==> more[k] != Reinstate(user, more[k].now)
    ensures var s := Run(ttl, Do(ttl, Run(ttl, Fresh(status), events), Suspend(admin, user, at)).state, more);
      && Do(ttl, s, Login(user, secret, now)).answer == Err(Refused(AccountSuspended))
      && Do(ttl, s, Google(user, link, secret, now)).answer == Err(Refused(AccountSuspended))
      && (forall i :: 0 <= i < |s.tokens| && s.tokens[i].user == user ==>
            s.tokens[i].revokedAt.Some? && Do(ttl, s, Refresh(s.tokens[i].secret, secret, now)).answer == Err(RefreshTokenReused))
  {
    FreshInv(status);
    RunKeepsInv(ttl, Fresh(status), events);
    var s0 := Run(ttl, Fresh(status), events);
    var s1 := Do(ttl, s0, Suspend(admin, user, at)).state;
    StepKeepsInv(ttl, s0, Suspend(admin, user, at));
    RunKeepsInv(ttl, s1, more);
    SuspensionLasts(ttl, s1, more, user);
    var s := Run(ttl, s1, more);
    hide Run, Chained, Numbered, Distinct, Refreshing, Lookup;
    forall i | 0 <= i < |s.tokens| && s.tokens[i].user == user
      ensures s.tokens[i].revokedAt.Some? && Do(ttl, s, Refresh(s.tokens[i].secret, secret, now)).answer == Err(RefreshTokenReused)
    {
      RevokedIsReused(ttl, s, i, secret, now);
    }
  }

  // ---- The service ---------------------------------------------------------------------

  /** Neither revoked nor rotated. */
  predicate StillGood(t: Token) {
    t.revokedAt.None? && t.replacedBy.None?
  }

  predicate OwnerActive(status: map<nat, Status>, t: Token) {
    t.user in status && status[t.user] == Active
  }

  predicate Unissued(tokens: seq<Token>, secret: nat) {
    forall i :: 0 <= i < |tokens| ==> tokens[i].secret != secret
  }

  predicate MaySignIn(status: map<nat, Status>, user: nat) {
    user in status && (status[user] == Active || status[user] == PendingVerification)
  }

  /** These tokens were revoked at `now`, as far as they were not before; the others are as they were. */
  predicate Ended(before: seq<Token>, after: seq<Token>, ended: set<nat>, now: nat) {
    && |after| >= |before|
    && forall i :: 0 <= i < |before| ==>
         after[i] == if i in ended && before[i].revokedAt.None? then before[i].(revokedAt := Some(now)) else before[i]
  }

  function TokensOf(tokens: seq<Token>, user: nat): (ids: set<nat>)
    ensures forall i :: i in ids <==> 0 <= i < |tokens| && tokens[i].user == user
  {
    set i | 0 <= i < |tokens| && tokens[i].user == user
  }

  function Family(tokens: seq<Token>, family: nat): (ids: set<nat>)
    ensures forall i :: i in ids <==> 0 <= i < |tokens| && tokens[i].family == family
  {
    set i | 0 <= i < |tokens| && tokens[i].family == family
  }

  /** The four refusals of a refresh, the clash of digests, and the rotation: when each is the answer. */
  lemma RefreshAnswers(ttl: nat, s: State, i: nat, secret: nat, now: nat)
    requires Distinct(s.tokens) && i < |s.tokens|
    ensures var t, r := s.tokens[i], Refreshing(ttl, s, s.tokens[i].secret, secret, now);
      && (r.answer == Err(RefreshTokenReused) <==> t.revokedAt.Some? || t.replacedBy.Some?)
      && (r.answer == Err(RefreshTokenExpired) <==> StillGood(t) && t.expiresAt <= now)
      && (r.answer == Err(AccountUnavailable) <==> StillGood(t) && now < t.expiresAt && !OwnerActive(s.status, t))
      && (r.answer == Err(DuplicateToken) <==>
            StillGood(t) && now < t.expiresAt && OwnerActive(s.status, t) && !Unissued(s.tokens, secret))
      && (r.answer.Ok? <==> StillGood(t) && now < t.expiresAt && OwnerActive(s.status, t) && Unissued(s.tokens, secret))
      && r.answer != Err(InvalidRefreshToken)
      && (r.answer.Ok? ==>
            && r.answer.value == Some(|s.tokens|)
            && r.state.tokens == s.tokens[i := t.(revokedAt := Some(now), replacedBy := Some(|s.tokens|))]
                                 + [Token(t.user, t.family, secret, now + ttl, None, None)])
      && (r.answer == Err(RefreshTokenReused) ==>
            |r.state.tokens| == |s.tokens| && Ended(s.tokens, r.state.tokens, Family(s.tokens, t.family), now))
  {
    LookupFinds(s.tokens, i);
    RotateParts(ttl, s, i, secret, now);
    hide Distinct, Rotate, Lookup;
  }

  class SessionService {
    const refreshTtl: nat
    var status: map<nat, Status>
    var tokens: seq<Token>
    var families: nat

    ghost function Snapshot(): State
      reads this
    {
      State(status, tokens, families)
    }

    constructor (refreshTtl: nat, status: map<nat, Status>)
      ensures this.refreshTtl == refreshTtl && Snapshot() == Fresh(status)
    {
      this.refreshTtl := refreshTtl;
      this.status := status;
      tokens, families := [], 0;
    }

    method IssueTokens(user: nat, family: nat, secret: nat, now: nat) returns (r: Result<Option<nat>, Error>)
      modifies `tokens
      ensures Outcome(Snapshot(), r) == Issue(refreshTtl, old(Snapshot()), user, family, secret, now)
      ensures r.Ok? <==> forall t :: t in old(tokens) ==> t.secret != secret
      ensures r.Ok? ==> tokens == old(tokens) + [Token(user, family, secret, now + refreshTtl, None, None)]
    {
      if Lookup(tokens, secret).Some? { return Err(DuplicateToken); }
      tokens := tokens + [Token(user, family, secret, now + refreshTtl, None, None)];
      r := Ok(Some(|tokens| - 1));
    }

    method NewFamily() returns (family: nat)
      modifies `families
      ensures family == old(families) && families == old(families) + 1
    {
      family := families;
      families := families + 1;
    }

    method Register(user: nat, secret: nat, now: nat) returns (r: Result<Option<nat>, Error>)
      modifies this
      ensures Outcome(Snapshot(), r) == Registering(refreshTtl, old(Snapshot()), user, secret, now)
      ensures r.Ok? ==> user !in old(status) && status == old(status)[user := Active]
      ensures r.Ok? <==> user !in old(status) && Unissued(old(tokens), secret)
      ensures r == Err(AccountExists) <==> user in old(status)
      ensures r.Err? ==> tokens == old(tokens)
      ensures r.Ok? ==> tokens == old(tokens) + [Token(user, old(families), secret, now + refreshTtl, None, None)]
    {
      if user in status { return Err(AccountExists); }
      status := status[user := Active];
      var family := NewFamily();
      r := IssueTokens(user, family, secret, now);
    }

    method Login(user: nat, secret: nat, now: nat) returns (r: Result<Option<nat>, Error>)
      modifies this
      ensures Outcome(Snapshot(), r) == LoggingIn(refreshTtl, old(Snapshot()), user, secret, now)
      ensures status == old(status)
      ensures r.Ok? <==> MaySignIn(status, user) && Unissued(old(tokens), secret)
      ensures r == Err(InvalidCredentials) <==> user !in status
      ensures r == Err(Refused(AccountSuspended)) <==> user in status && status[user] == Suspended
      ensures r == Err(Refused(AccountDeactivated)) <==> user in status && status[user] == Deactivated
      ensures r.Err? ==> tokens == old(tokens)
      ensures r.Ok? ==> tokens == old(tokens) + [Token(user, old(families), secret, now + refreshTtl, None, None)]
    {
      if user !in status { return Err(InvalidCredentials); }
      if status[user] == Suspended { return Err(Refused(AccountSuspended)); }
      if status[user] == Deactivated { return Err(Refused(AccountDeactivated)); }
      var family := NewFamily();
      r := IssueTokens(user, family, secret, now);
    }

    method GoogleSignIn(user: nat, link: bool, secret: nat, now: nat) returns (r: Result<Option<nat>, Error>)
      modifies this
      ensures Outcome(Snapshot(), r) == SigningIn(refreshTtl, old(Snapshot()), user, link, secret, now)
      ensures r.Ok? ==> user in status && status[user] != Suspended && status[user] != Deactivated
      ensures r.Ok? <==> (user !in old(status) || MaySignIn(old(status), user)) && Unissued(old(tokens), secret)
      ensures status == if user in old(status) then old(status) else old(status)[user := Active]
      ensures r == Err(Refused(AccountSuspended)) <==> user in old(status) && old(status)[user] == Suspended
      ensures r == Err(Refused(AccountDeactivated)) <==> user in old(status) && old(status)[user] == Deactivated
      ensures Ended(old(tokens), tokens,
                    if link && MaySignIn(old(status), user) then TokensOf(old(tokens), user) else {}, now)
      ensures r.Ok? ==> tokens[|old(tokens)|..] == [Token(user, old(families), secret, now + refreshTtl, None, None)]
      ensures r.Ok? && link && user in old(status) ==>
                forall i :: 0 <= i < |old(tokens)| && tokens[i].user == user ==> tokens[i].revokedAt.Some?
    {
      if user in status {
        if WhyUnusable(status[user]).Some? { return Err(Refused(WhyUnusable(status[user]).value)); }
        if link { tokens := RevokeUser(tokens, user, now); }
      } else {
        status := status[user := Active];
      }
      var family := NewFamily();
      r := IssueTokens(user, family, secret, now);
    }

    method Refresh(presented: nat, secret: nat, now: nat) returns (r: Result<Option<nat>, Error>)
      modifies this
      ensures Outcome(Snapshot(), r) == Refreshing(refreshTtl, old(Snapshot()), presented, secret, now)
      ensures r.Ok? ==>
                && Lookup(old(tokens), presented).Some? && |tokens| == |old(tokens)| + 1
                && tokens[|old(tokens)|].secret == secret && tokens[|old(tokens)|].revokedAt.None?
                && tokens[Lookup(old(tokens), presented).value].revokedAt == Some(now)
      ensures r == Err(RefreshTokenReused) ==>
                && Lookup(old(tokens), presented).Some? && |tokens| == |old(tokens)|
                && var family := old(tokens)[Lookup(old(tokens), presented).value].family;
                forall i :: 0 <= i < |tokens| && tokens[i].family == family ==> tokens[i].revokedAt.Some?
      ensures r.Err? && r.error != RefreshTokenReused ==> tokens == old(tokens)
      ensures status == old(status) && families == old(families)
      ensures r == Err(InvalidRefreshToken) <==> Unissued(old(tokens), presented)
      ensures Distinct(old(tokens)) ==> forall i | 0 <= i < |old(tokens)| && old(tokens)[i].secret == presented ::
                var t := old(tokens)[i];
                && (r == Err(RefreshTokenReused) <==> t.revokedAt.Some? || t.replacedBy.Some?)
                && (r == Err(RefreshTokenExpired) <==> StillGood(t) && t.expiresAt <= now)
                && (r == Err(AccountUnavailable) <==> StillGood(t) && now < t.expiresAt && !OwnerActive(status, t))
                && (r == Err(DuplicateToken) <==>
                      StillGood(t) && now < t.expiresAt && OwnerActive(status, t) && !Unissued(old(tokens), secret))
                && (r.Ok? <==> StillGood(t) && now < t.expiresAt && OwnerActive(status, t) && Unissued(old(tokens), secret))
                && (r.Ok? ==>
                      tokens == old(tokens)[i := t.(revokedAt := Some(now), replacedBy := Some(|old(tokens)|))]
                                + [Token(t.user, t.family, secret, now + refreshTtl, None, None)])
                && (r == Err(RefreshTokenReused) ==> Ended(old(tokens), tokens, Family(old(tokens), t.family), now))
    {
      if Distinct(tokens) {
        forall i | 0 <= i < |tokens| && tokens[i].secret == presented { RefreshAnswers(refreshTtl, Snapshot(), i, secret, now); }
      }
      var found := Lookup(tokens, presented);
      if found.None? { return Err(InvalidRefreshToken); }
      var id := found.value;
      var record := tokens[id];
      if record.revokedAt.Some? || record.replacedBy.Some? {
        tokens := RevokeFamily(tokens, record.family, now);
        return Err(RefreshTokenReused);
      }
      if record.expiresAt <= now { return Err(RefreshTokenExpired); }
      if record.user !in status || status[record.user] != Active { return Err(AccountUnavailable); }
      r := IssueTokens(record.user, record.family, secret, now);
      if r.Ok? {
        var replacement := Lookup(tokens, secret);
        tokens := tokens[id := tokens[id].(revokedAt := Some(now), replacedBy := replacement)];
      }
    }

    method Logout(presented: Option<nat>, now: nat)
      modifies this
      ensures Snapshot() == LoggingOut(old(Snapshot()), presented, now).state
      ensures presented.Some? && Distinct(old(tokens)) ==>
                forall i, j | 0 <= i < |tokens| && 0 <= j < |tokens| ::
                  tokens[i].secret == presented.value && tokens[j].family == tokens[i].family ==> tokens[j].revokedAt.Some?
      ensures presented.None? || Unissued(old(tokens), presented.value) ==> tokens == old(tokens)
      ensures presented.Some? && Distinct(old(tokens)) ==>
                forall i | 0 <= i < |old(tokens)| && old(tokens)[i].secret == presented.value ::
                  |tokens| == |old(tokens)| && Ended(old(tokens), tokens, Family(old(tokens), old(tokens)[i].family), now)
      ensures status == old(status) && families == old(families)
    {
      if presented.None? { return; }
      var found := Lookup(tokens, presented.value);
      if found.None? { return; }
      tokens := RevokeFamily(tokens, tokens[found.value].family, now);
    }

    method SuspendUser(admin: nat, user: nat, now: nat) returns (r: Result<Option<nat>, Error>)
      modifies this
      ensures Outcome(Snapshot(), r) == Suspending(old(Snapshot()), admin, user, now)
      ensures r.Ok? ==> user != admin && user in status && status[user] == Suspended
                        && forall i :: 0 <= i < |tokens| && tokens[i].user == user ==> tokens[i].revokedAt.Some?
      ensures r == Err(UserNotFound) <==> user !in old(status)
      ensures r == Err(CannotSuspendSelf) <==> user in old(status) && user == admin
      ensures r.Ok? <==> user in old(status) && user != admin
      ensures r.Ok? ==>
                && status == old(status)[user := Suspended] && |tokens| == |old(tokens)|
                && Ended(old(tokens), tokens, TokensOf(old(tokens), user), now)
      ensures r.Err? ==> status == old(status) && tokens == old(tokens)
    {
      if user !in status { return Err(UserNotFound); }
      if user == admin { return Err(CannotSuspendSelf); }
      status := status[user := Suspended];
      tokens := RevokeUser(tokens, user, now);
      r := Ok(None);
    }

    method ReinstateUser(user: nat) returns (r: Result<Option<nat>, Error>)
      modifies this
      ensures Outcome(Snapshot(), r) == Reinstating(old(Snapshot()), user)
      ensures tokens == old(tokens)
      ensures r.Ok? <==> user in old(status)
      ensures status == if user in old(status) then old(status)[user := Active] else old(status)
    {
      if user !in status { return Err(UserNotFound); }
      status := status[user := Active];
      r := Ok(None);
    }
  }
}
