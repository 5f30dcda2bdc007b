/**
 Refreshes that overlap. A refresh reads its token and passes the checks; later it issues the
 new token and marks the old one, whatever has become of the family in between.
 */
module SessionRaces {
  import opened Common
  import opened Accounts
  import opened Sessions

  /** `underway` maps a refresh between its checks and its writes to the position of its token. */
  datatype Scene = Scene(state: State, underway: map<nat, nat>)

  datatype Race =
    | Begin(tx: nat, presented: nat, now: nat)
    | Land(tx: nat, secret: nat, now: nat)
    | Whole(event: Event)

  predicate MayRefresh(s: State, presented: nat, now: nat) {
    var found := Lookup(s.tokens, presented);
    && found.Some?
    && var t := s.tokens[found.value];
    && t.revokedAt.None? && t.replacedBy.None? && t.expiresAt > now
    && t.user in s.status && s.status[t.user] == Active
  }

  /** The checks are the ones a refresh that runs alone has to pass. */
  lemma ChecksOfARefresh(s: State, i: nat, now: nat)
    requires Distinct(s.tokens) && i < |s.tokens|
    ensures MayRefresh(s, s.tokens[i].secret, now) <==>
              StillGood(s.tokens[i]) && now < s.tokens[i].expiresAt && OwnerActive(s.status, s.tokens[i])
  {
    LookupFinds(s.tokens, i);
  }

  /** A refresh that is refused at its checks does at once whatever that refusal does. */
  function Advance(ttl: nat, s: Scene, e: Race): Scene {
    match e
    case Begin(tx, presented, now) =>
      if tx in s.underway then s
      else if MayRefresh(s.state, presented, now) then s.(underway := s.underway[tx := Lookup(s.state.tokens, presented).value])
      else s.(state := Refreshing(ttl, s.state, presented, 0, now).state)
    case Land(tx, secret, now) =>
      if tx !in s.underway || s.underway[tx] >= |s.state.tokens| then s
      else Scene(Rotate(ttl, s.state, s.underway[tx], secret, now).state, s.underway - {tx})
    case Whole(event) => if event.Refresh? then s else s.(state := Do(ttl, s.state, event).state)
  }

  /** A family has at most one unrevoked token. */
  ghost predicate OneLive(tokens: seq<Token>) {
    forall i, j :: 0 <= i < j < |tokens| && tokens[i].family == tokens[j].family ==>
      tokens[i].revokedAt.Some? || tokens[j].revokedAt.Some?
  }

  ghost predicate Inv(s: Scene) {
    && Distinct(s.state.tokens) && Numbered(s.state.tokens, s.state.families)
    && forall tx :: tx in s.underway ==> s.underway[tx] < |s.state.tokens|
  }

  predicate HasLive(tokens: seq<Token>, family: nat) {
    exists i :: 0 <= i < |tokens| && tokens[i].family == family && tokens[i].revokedAt.None?
  }

  /** The refresh lands on a token revoked since its checks, in a family that is still live. */
  predicate Forks(s: Scene, e: Race) {
    && e.Land? && e.tx in s.underway && s.underway[e.tx] < |s.state.tokens|
    && var t := s.state.tokens[s.underway[e.tx]];
    t.revokedAt.Some? && HasLive(s.state.tokens, t.family) && Lookup(s.state.tokens, e.secret).None?
  }

  /** The refresh lands in this family, by now or all along without a live token of its own. */
  predicate Revives(s: Scene, e: Race, family: nat) {
    && e.Land? && e.tx in s.underway && s.underway[e.tx] < |s.state.tokens|
    && s.state.tokens[s.underway[e.tx]].family == family && Lookup(s.state.tokens, e.secret).None?
  }

  // ---- One step --------------------------------------------------------------------------------

  lemma RevokingKeepsOne(before: seq<Token>, after: seq<Token>)
    requires OnlyRevoked(before, after)
    ensures OneLive(before) ==> OneLive(after)
    ensures Distinct(before) ==> Distinct(after)
    ensures forall families :: Numbered(before, families) ==> Numbered(after, families)
  {
  }

  lemma OpeningKeepsOne(ttl: nat, s: State, user: nat, secret: nat, now: nat)
    requires Distinct(s.tokens) && Numbered(s.tokens, s.families)
    ensures var s' := OpenSession(ttl, s, user, secret, now).state;
      && Distinct(s'.tokens) && Numbered(s'.tokens, s'.families) && |s'.tokens| >= |s.tokens|
      && (OneLive(s.tokens) ==> OneLive(s'.tokens))
  {
  }

  /** Whole calls only revoke, or open a family of their own. */
  lemma WholeKeepsOne(ttl: nat, s: State, e: Event)
    requires Distinct(s.tokens) && Numbered(s.tokens, s.families) && !e.Refresh?
    ensures var s' := Do(ttl, s, e).state;
      && Distinct(s'.tokens) && Numbered(s'.tokens, s'.families) && |s'.tokens| >= |s.tokens|
      && (OneLive(s.tokens) ==> OneLive(s'.tokens))
  {
    hide Distinct, Numbered, OneLive, OpenSession, OnlyRevoked;
    match e
    case Register(user, secret, now) => OpeningKeepsOne(ttl, s.(status := s.status[user := Active]), user, secret, now);
    case Login(user, secret, now) => OpeningKeepsOne(ttl, s, user, secret, now);
    case Google(user, link, secret, now) =>
      RevokeUserOnlyRevokes(s.tokens, user, now);
      RevokingKeepsOne(s.tokens, RevokeUser(s.tokens, user, now));
      OpeningKeepsOne(ttl, s.(status := s.status[user := Active]), user, secret, now);
      OpeningKeepsOne(ttl, s, user, secret, now);
      OpeningKeepsOne(ttl, s.(tokens := RevokeUser(s.tokens, user, now)), user, secret, now);
    case Logout(cookie, now) =>
      if cookie.Some? && Lookup(s.tokens, cookie.value).Some? {
        var family := s.tokens[Lookup(s.tokens, cookie.value).value].family;
        RevokeFamilyOnlyRevokes(s.tokens, family, now);
        RevokingKeepsOne(s.tokens, RevokeFamily(s.tokens, family, now));
      }
    case ResetPassword(user, now) =>
      RevokeUserOnlyRevokes(s.tokens, user, now);
      RevokingKeepsOne(s.tokens, RevokeUser(s.tokens, user, now));
    case Suspend(admin, user, now) =>
      RevokeUserOnlyRevokes(s.tokens, user, now);
      RevokingKeepsOne(s.tokens, RevokeUser(s.tokens, user, now));
    case Reinstate(user, now) =>
  }

  /** A refresh that does not pass its checks changes nothing or revokes a family. */
  lemma RefusedRefresh(ttl: nat, s: State, presented: nat, now: nat)
    requires !MayRefresh(s, presented, now)
    ensures var s' := Refreshing(ttl, s, presented, 0, now).state;
      OnlyRevoked(s.tokens, s'.tokens) && s'.families == s.families
  {
    var found := Lookup(s.tokens, presented);
    if found.Some? { RevokeFamilyOnlyRevokes(s.tokens, s.tokens[found.value].family, now); }
    hide Lookup, Rotate;
  }

  lemma RotatingForksIff(tokens: seq<Token>, i: nat, t: Token, now: nat)
    requires OneLive(tokens) && i < |tokens| && t.family == tokens[i].family && t.revokedAt.None?
    ensures OneLive(Replaced(tokens, i, t, now)) <==> !(tokens[i].revokedAt.Some? && HasLive(tokens, t.family))
  {
    var after := Replaced(tokens, i, t, now);
    if tokens[i].revokedAt.Some? && HasLive(tokens, t.family) {
      var j :| 0 <= j < |tokens| && tokens[j].family == t.family && tokens[j].revokedAt.None?;
      assert after[j] == tokens[j] && after[|tokens|] == t;
    } else {
      forall j, k | 0 <= j < k < |after| && after[j].family == after[k].family
        ensures after[j].revokedAt.Some? || after[k].revokedAt.Some?
      {
        assert tokens[j].family == after[j].family;
        if k < |tokens| { assert tokens[k].family == after[k].family; }
      }
    }
  }

  lemma LandParts(ttl: nat, s: Scene, tx: nat, secret: nat, now: nat)
    requires Inv(s) && tx in s.underway
    ensures var i, tokens := s.underway[tx], s.state.tokens;
      var t := Token(tokens[i].user, tokens[i].family, secret, now + ttl, None, None);
      var s' := Advance(ttl, s, Land(tx, secret, now));
      && s'.underway == s.underway - {tx}
      && s'.state == if Lookup(tokens, secret).Some? then s.state else s.state.(tokens := Replaced(tokens, i, t, now))
  {
    RotateParts(ttl, s.state, s.underway[tx], secret, now);
    hide Rotate, Replaced, Lookup;
  }

  lemma LandKeepsInv(ttl: nat, s: Scene, tx: nat, secret: nat, now: nat)
    requires Inv(s) && tx in s.underway
    ensures Inv(Advance(ttl, s, Land(tx, secret, now)))
  {
    LandParts(ttl, s, tx, secret, now);
    if Lookup(s.state.tokens, secret).None? {
      var i := s.underway[tx];
      var t := Token(s.state.tokens[i].user, s.state.tokens[i].family, secret, now + ttl, None, None);
      ReplacedKeepsRest(s.state.tokens, s.state.families, i, t, now);
    }
    hide Advance, Distinct, Numbered, Lookup;
  }

  lemma AdvanceKeepsInv(ttl: nat, s: Scene, e: Race)
    requires Inv(s)
    ensures Inv(Advance(ttl, s, e))
  {
    hide Distinct, Numbered, OneLive, Refreshing, Do, OnlyRevoked, MayRefresh, Rotate;
    match e
    case Begin(tx, presented, now) =>
      if !MayRefresh(s.state, presented, now) {
        RefusedRefresh(ttl, s.state, presented, now);
        var tokens := Refreshing(ttl, s.state, presented, 0, now).state.tokens;
        RevokingKeepsOne(s.state.tokens, tokens);
        SameLength(s.state.tokens, tokens);
      } else {
        assert Lookup(s.state.tokens, presented).Some? by { FoundWhenMay(s.state, presented, now); }
      }
    case Land(tx, secret, now) => if tx in s.underway { LandKeepsInv(ttl, s, tx, secret, now); }
    case Whole(event) => if !event.Refresh? { WholeKeepsOne(ttl, s.state, event); }
  }

  lemma SameLength(before: seq<Token>, after: seq<Token>)
    requires OnlyRevoked(before, after)
    ensures |before| == |after|
  {
  }

  lemma FoundWhenMay(s: State, presented: nat, now: nat)
    requires MayRefresh(s, presented, now)
    ensures Lookup(s.tokens, presented).Some?
  {
  }

  lemma AdvanceForksIff(ttl: nat, s: Scene, e: Race)
    requires Inv(s) && OneLive(s.state.tokens)
    ensures OneLive(Advance(ttl, s, e).state.tokens) <==> !Forks(s, e)
  {
    hide Distinct, Numbered, OneLive, Refreshing, Do, OnlyRevoked, MayRefresh, Rotate, HasLive, Replaced;
    match e
    case Begin(tx, presented, now) =>
      if !MayRefresh(s.state, presented, now) {
        RefusedRefresh(ttl, s.state, presented, now);
        RevokingKeepsOne(s.state.tokens, Refreshing(ttl, s.state, presented, 0, now).state.tokens);
      }
    case Land(tx, secret, now) =>
      if tx in s.underway {
        LandParts(ttl, s, tx, secret, now);
        var i := s.underway[tx];
        RotatingForksIff(s.state.tokens, i,
                         Token(s.state.tokens[i].user, s.state.tokens[i].family, secret, now + ttl, None, None), now);
      }
    case Whole(event) => if !event.Refresh? { WholeKeepsOne(ttl, s.state, event); }
  }

  // ---- Whole runs ------------------------------------------------------------------------------

  ghost predicate StaysOneLive(ttl: nat, s: Scene, events: seq<Race>)
    decreases |events|
  {
    OneLive(s.state.tokens) && (events == [] || StaysOneLive(ttl, Advance(ttl, s, events[0]), events[1..]))
  }

  predicate NeverForks(ttl: nat, s: Scene, events: seq<Race>)
    decreases |events|
  {
    events == [] || (!Forks(s, events[0]) && NeverForks(ttl, Advance(ttl, s, events[0]), events[1..]))
  }

  lemma {:induction false} OneLiveIff(ttl: nat, s: Scene, events: seq<Race>)
    requires Inv(s) && OneLive(s.state.tokens)
    ensures StaysOneLive(ttl, s, events) <==> NeverForks(ttl, s, events)
    decreases |events|
  {
    hide Inv, OneLive, Forks, Advance;
    if events != [] {
      AdvanceKeepsInv(ttl, s, events[0]);
      AdvanceForksIff(ttl, s, events[0]);
      if !Forks(s, events[0]) { OneLiveIff(ttl, Advance(ttl, s, events[0]), events[1..]); }
    }
  }

  /**
   However refreshes overlap with each other and with every other call, a family has at most one
   unrevoked token at every moment if and only if no refresh lands on a token revoked since its
   checks while the family is still live.
   */
  lemma FamilyStaysSingleIffNeverForks(ttl: nat, status: map<nat, Status>, events: seq<Race>)
    ensures var s := Scene(Fresh(status), map[]);
      StaysOneLive(ttl, s, events) <==> NeverForks(ttl, s, events)
  {
    OneLiveIff(ttl, Scene(Fresh(status), map[]), events);
  }

  ghost predicate StaysDead(ttl: nat, s: Scene, events: seq<Race>, family: nat)
    decreases |events|
  {
    Dead(s.state, family) && (events == [] || StaysDead(ttl, Advance(ttl, s, events[0]), events[1..], family))
  }

  predicate NeverRevives(ttl: nat, s: Scene, events: seq<Race>, family: nat)
    decreases |events|
  {
    events == [] || (!Revives(s, events[0], family) && NeverRevives(ttl, Advance(ttl, s, events[0]), events[1..], family))
  }

  lemma RevokingKeepsDead(before: State, after: State, family: nat)
    requires OnlyRevoked(before.tokens, after.tokens) && after.families == before.families && Dead(before, family)
    ensures Dead(after, family)
  {
  }

  lemma OpeningKeepsDead(ttl: nat, s: State, user: nat, secret: nat, now: nat, family: nat)
    requires Dead(s, family)
    ensures Dead(OpenSession(ttl, s, user, secret, now).state, family)
  {
  }

  lemma WholeKeepsDead(ttl: nat, s: State, e: Event, family: nat)
    requires Dead(s, family) && !e.Refresh?
    ensures Dead(Do(ttl, s, e).state, family)
  {
    hide OpenSession;
    match e
    case Register(user, secret, now) => OpeningKeepsDead(ttl, s.(status := s.status[user := Active]), user, secret, now, family);
    case Login(user, secret, now) => OpeningKeepsDead(ttl, s, user, secret, now, family);
    case Google(user, link, secret, now) =>
      OpeningKeepsDead(ttl, s.(status := s.status[user := Active]), user, secret, now, family);
      OpeningKeepsDead(ttl, s, user, secret, now, family);
      OpeningKeepsDead(ttl, s.(tokens := RevokeUser(s.tokens, user, now)), user, secret, now, family);
    case _ =>
  }

  lemma AdvanceRevivesIff(ttl: nat, s: Scene, e: Race, family: nat)
    requires Inv(s) && Dead(s.state, family)
    ensures Dead(Advance(ttl, s, e).state, family) <==> !Revives(s, e, family)
  {
    hide Distinct, Numbered, Refreshing, Do, OnlyRevoked, MayRefresh, Rotate, Lookup;
    match e
    case Begin(tx, presented, now) =>
      if !MayRefresh(s.state, presented, now) {
        RefusedRefresh(ttl, s.state, presented, now);
        RevokingKeepsDead(s.state, Refreshing(ttl, s.state, presented, 0, now).state, family);
      }
    case Land(tx, secret, now) =>
      if tx in s.underway {
        LandParts(ttl, s, tx, secret, now);
        var i, tokens := s.underway[tx], s.state.tokens;
        var t := Token(tokens[i].user, tokens[i].family, secret, now + ttl, None, None);
        var after := Replaced(tokens, i, t, now);
        assert after[|tokens|] == t;
        assert forall k :: 0 <= k < |tokens| ==> after[k].family == tokens[k].family
                                                 && (tokens[k].revokedAt.Some? ==> after[k].revokedAt.Some?);
      }
    case Whole(event) => if !event.Refresh? { WholeKeepsDead(ttl, s.state, event, family); }
  }

  /**
   A family that logout, reuse, suspension or a reset has ended stays ended at every moment if and
   only if no refresh that had passed its checks before lands in it afterwards.
   */
  lemma {:induction false} DeadIffNeverRevived(ttl: nat, s: Scene, events: seq<Race>, family: nat)
    requires Inv(s) && Dead(s.state, family)
    ensures StaysDead(ttl, s, events, family) <==> NeverRevives(ttl, s, events, family)
    decreases |events|
  {
    hide Inv, Dead, Revives, Advance;
    if events != [] {
      AdvanceKeepsInv(ttl, s, events[0]);
      AdvanceRevivesIff(ttl, s, events[0], family);
      if !Revives(s, events[0], family) { DeadIffNeverRevived(ttl, Advance(ttl, s, events[0]), events[1..], family); }
    }
  }

  /** One session, opened by user 1 with secret 10. */
  function OneSession(): Scene {
    Scene(State(map[1 := Active], [Token(1, 0, 10, 100, None, None)], 1), map[])
  }

  /** Two refreshes read the token, and both land: the family has two live tokens. */
  lemma OverlappingRefreshesFork()
    ensures var s1 := Advance(90, Advance(90, OneSession(), Begin(0, 10, 5)), Begin(1, 10, 5));
      var s2 := Advance(90, Advance(90, s1, Land(0, 11, 6)), Land(1, 12, 7));
      && |s2.state.tokens| == 3 && s2.state.tokens[1].family == s2.state.tokens[2].family == 0
      && s2.state.tokens[1].revokedAt.None? && s2.state.tokens[2].revokedAt.None?
  {
    var s0 := OneSession();
    assert MayRefresh(s0.state, 10, 5);
    var s1 := Advance(90, Advance(90, s0, Begin(0, 10, 5)), Begin(1, 10, 5));
    assert s1 == Scene(s0.state, map[0 := 0, 1 := 0]);
    LandParts(90, s1, 0, 11, 6);
    var s2 := Advance(90, s1, Land(0, 11, 6));
    assert s2.state.tokens == [Token(1, 0, 10, 100, Some(6), Some(1)), Token(1, 0, 11, 96, None, None)];
    assert Lookup(s2.state.tokens, 12).None?;
    LandKeepsInv(90, s1, 0, 11, 6);
    LandParts(90, s2, 1, 12, 7);
    hide Advance;
    assert s2.underway == map[1 := 0];
  }
}
