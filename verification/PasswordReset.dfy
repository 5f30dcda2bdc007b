/**
 Resetting a password in three steps: a code is mailed, the code earns a token, the token
 is spent. Calls run one after another; hashes and mailed codes are opaque numbers, equal
 exactly when what they stand for is equal. Times are milliseconds.
 */
module PasswordReset {
  import opened Common
  import opened GuessBudget

  datatype Config = Config(ttl: nat, maxAttempts: nat, lockout: nat)

  datatype Row = Row(
    user: nat, code: nat, token: Option<nat>, attempts: nat, lockedUntil: Option<nat>,
    expiresAt: nat, verifiedAt: Option<nat>, usedAt: Option<nat>, createdAt: nat)

  datatype Account = Account(password: Option<nat>, failedLogins: nat, lockedUntil: Option<nat>)

  /** What happened, in order. `row` is the request's position in the table. */
  datatype Entry =
    | Requested(row: nat, user: nat, at: nat)
    | Wrong(row: nat, at: nat)
    | Verified(row: nat, at: nat, until: nat)
    | Changed(row: nat, user: nat, token: nat, at: nat)

  /** Where in the log a row's request and its verification are. */
  datatype Story = Story(requested: nat, verified: Option<nat>)

  datatype State = State(accounts: map<nat, Account>, rows: seq<Row>, log: seq<Entry>, stories: seq<Story>)

  datatype Error =
    | InvalidResetCode | ResetCodeLocked | ResetCodeExpired | ResetCodeAlreadyUsed
    | DuplicateToken | InvalidResetToken | PasswordUnchanged

  /** `later` is the clock when a call writes, `now` when it checks. */
  datatype Event =
    | Request(user: nat, code: nat, now: nat)
    | Verify(user: nat, guess: nat, token: nat, now: nat, later: nat)
    | Reset(token: nat, password: nat, now: nat)

  datatype Outcome = Outcome(state: State, error: Option<Error>)

  /** A newer request retires every unused one. */
  function Retire(rows: seq<Row>, user: nat, now: nat): (r: seq<Row>)
    ensures |r| == |rows|
    ensures forall i :: 0 <= i < |rows| ==>
              r[i] == if rows[i].user == user && rows[i].usedAt.None? then rows[i].(usedAt := Some(now)) else rows[i]
  {
    seq(|rows|, i requires 0 <= i < |rows| =>
      if rows[i].user == user && rows[i].usedAt.None? then rows[i].(usedAt := Some(now)) else rows[i])
  }

  function Requesting(c: Config, s: State, user: nat, code: nat, now: nat): State {
    if user !in s.accounts then s
    else
      s.(rows := Retire(s.rows, user, now) + [NewRow(c, user, code, now)],
         log := s.log + [Requested(|s.rows|, user, now)],
         stories := s.stories + [Story(|s.log|, None)])
  }

  /** The newest unused request of the user. */
  function Newest(rows: seq<Row>, user: nat): (i: Option<nat>)
    ensures i.Some? ==> i.value < |rows| && rows[i.value].user == user && rows[i.value].usedAt.None?
    ensures i.None? ==> forall k :: 0 <= k < |rows| && rows[k].user == user ==> rows[k].usedAt.Some?
  {
    var n := |rows| - 1;
    if rows == [] then None
    else if rows[n].user == user && rows[n].usedAt.None? then Some(n)
    else Newest(rows[..n], user)
  }

  function Holder(rows: seq<Row>, token: nat): (i: Option<nat>)
    ensures i.Some? ==> i.value < |rows| && rows[i.value].token == Some(token)
    ensures i.None? ==> forall k :: 0 <= k < |rows| ==> rows[k].token != Some(token)
  {
    var n := |rows| - 1;
    if rows == [] then None else if rows[n].token == Some(token) then Some(n) else Holder(rows[..n], token)
  }

  /** One more wrong guess; at the limit, and at every one after it, a lockout. */
  function Missed(c: Config, r: Row, later: nat): Row {
    r.(attempts := r.attempts + 1,
       lockedUntil := if r.attempts + 1 >= c.maxAttempts then Some(later + c.lockout) else None)
  }

  function WrongGuess(c: Config, s: State, i: nat, now: nat, later: nat): Outcome
    requires i < |s.rows|
  {
    Outcome(
      s.(rows := s.rows[i := Missed(c, s.rows[i], later)], log := s.log + [Wrong(i, now)]),
      Some(if s.rows[i].attempts + 1 >= c.maxAttempts then ResetCodeLocked else InvalidResetCode))
  }

  /** The code was right: a token, a fresh count, a renewed expiry. */
  function Proved(c: Config, r: Row, token: nat, now: nat, later: nat): Row {
    r.(token := Some(token), verifiedAt := Some(now), attempts := 0, lockedUntil := None, expiresAt := later + c.ttl)
  }

  function RightGuess(c: Config, s: State, i: nat, token: nat, now: nat, later: nat): Outcome
    requires i < |s.rows| == |s.stories|
  {
    if Holder(s.rows, token).Some? then Outcome(s, Some(DuplicateToken))
    else
      Outcome(
        s.(rows := s.rows[i := Proved(c, s.rows[i], token, now, later)],
           log := s.log + [Verified(i, now, later + c.ttl)],
           stories := s.stories[i := s.stories[i].(verified := Some(|s.log|))]),
        None)
  }

  function Verifying(c: Config, s: State, user: nat, guess: nat, token: nat, now: nat, later: nat): Outcome
    requires |s.rows| == |s.stories|
  {
    var found := Newest(s.rows, user);
    if user !in s.accounts || found.None? then Outcome(s, Some(InvalidResetCode))
    else
      var row := s.rows[found.value];
      if row.lockedUntil.Some? && row.lockedUntil.value > now then Outcome(s, Some(ResetCodeLocked))
      else if row.expiresAt <= now then Outcome(s, Some(ResetCodeExpired))
      else if row.verifiedAt.Some? then Outcome(s, Some(ResetCodeAlreadyUsed))
      else if guess != row.code then WrongGuess(c, s, found.value, now, later)
      else RightGuess(c, s, found.value, token, now, later)
  }

  /** The spend: the row is used, and the account gets its new password and a clean login count. */
  function Spent(s: State, i: nat, token: nat, account: Account, now: nat): State
    requires i < |s.rows|
  {
    s.(rows := s.rows[i := s.rows[i].(usedAt := Some(now))],
       accounts := s.accounts[s.rows[i].user := account],
       log := s.log + [Changed(i, s.rows[i].user, token, now)])
  }

  function Resetting(s: State, token: nat, password: nat, now: nat): Outcome {
    var found := Holder(s.rows, token);
    if found.None? then Outcome(s, Some(InvalidResetToken))
    else
      var row := s.rows[found.value];
      if row.verifiedAt.None? || row.usedAt.Some? || row.expiresAt <= now || row.user !in s.accounts
      then Outcome(s, Some(InvalidResetToken))
      else if s.accounts[row.user].password == Some(password) then Outcome(s, Some(PasswordUnchanged))
      else
        Outcome(Spent(s, found.value, token, Account(Some(password), 0, None), now), None)
  }

  function Step(c: Config, s: State, e: Event): State
    requires |s.rows| == |s.stories|
  {
    match e
    case Request(user, code, now) => Requesting(c, s, user, code, now)
    case Verify(user, guess, token, now, later) => Verifying(c, s, user, guess, token, now, later).state
    case Reset(token, password, now) => Resetting(s, token, password, now).state
  }

  function EndOf(e: Event): nat {
    if e.Verify? then e.later else e.now
  }

  // ---- What every run keeps ----------------------------------------------------------

  function WrongTimes(log: seq<Entry>, row: nat): seq<nat> {
    if log == [] then []
    else
      var e := log[|log| - 1];
      WrongTimes(log[..|log| - 1], row) + if e.Wrong? && e.row == row then [e.at] else []
  }

  lemma WrongTimesAppend(log: seq<Entry>, e: Entry, row: nat)
    ensures WrongTimes(log + [e], row) == WrongTimes(log, row) + if e.Wrong? && e.row == row then [e.at] else []
  {
    assert (log + [e])[..|log|] == log;
  }

  predicate Bounds(w: seq<nat>, from: nat, to: nat) {
    forall i :: 0 <= i < |w| ==> from <= w[i] <= to
  }

  predicate PastLockout(c: Config, w: seq<nat>, at: nat) {
    |w| >= c.maxAttempts > 0 ==> w[|w| - 1] + c.lockout <= at
  }

  /** No request by the user after position `a`. */
  predicate NoneNewer(log: seq<Entry>, a: nat, user: nat) {
    forall k :: a < k < |log| ==> !(log[k].Requested? && log[k].user == user)
  }

  predicate NotSpent(log: seq<Entry>, row: nat) {
    forall k :: 0 <= k < |log| ==> !(log[k].Changed? && log[k].row == row)
  }

  ghost predicate GuessesInv(c: Config, w: seq<nat>, r: Row, clock: nat) {
    && r.createdAt <= clock
    && LockedApart(w, c.maxAttempts, c.lockout)
    && Bounds(w, r.createdAt, clock) && (c.ttl > 0 ==> Bounds(w, r.createdAt, r.createdAt + c.ttl - 1))
    && (r.verifiedAt.None? ==>
          && r.attempts == |w| && r.expiresAt == r.createdAt + c.ttl && r.token.None?
          && (|w| >= c.maxAttempts > 0 ==> r.lockedUntil.Some? && r.lockedUntil.value >= w[|w| - 1] + c.lockout))
  }

  ghost predicate StoryInv(c: Config, log: seq<Entry>, i: nat, r: Row, story: Story) {
    && story.requested < |log| && log[story.requested] == Requested(i, r.user, r.createdAt)
    && (r.usedAt.None? ==> NoneNewer(log, story.requested, r.user) && NotSpent(log, i))
    && (r.verifiedAt.Some? <==> story.verified.Some?)
    && (r.verifiedAt.Some? ==>
          && r.token.Some? && story.requested < story.verified.value < |log|
          && log[story.verified.value] == Verified(i, r.verifiedAt.value, r.expiresAt)
          && r.createdAt <= r.verifiedAt.value < r.createdAt + c.ttl
          && r.verifiedAt.value + c.ttl <= r.expiresAt
          && PastLockout(c, WrongTimes(log, i), r.verifiedAt.value))
  }

  /** Rows of one user: all but the newest are used. Tokens tell rows apart. */
  ghost predicate RowsInv(rows: seq<Row>, accounts: map<nat, Account>) {
    && (forall i :: 0 <= i < |rows| ==> rows[i].user in accounts)
    && (forall i, j :: 0 <= i < j < |rows| && rows[i].user == rows[j].user ==> rows[i].usedAt.Some?)
    && (forall i, j :: 0 <= i < j < |rows| && rows[i].token.Some? ==> rows[i].token != rows[j].token)
  }

  /** A change of password at `p` rests on a request, a timely verification and an unexpired token. */
  ghost predicate Justified(c: Config, log: seq<Entry>, p: nat)
    requires p < |log| && log[p].Changed?
  {
    exists a, b ::
      && 0 <= a < b < p
      && log[a].Requested? && log[a].row == log[p].row && log[a].user == log[p].user
      && log[b].Verified? && log[b].row == log[p].row
      && log[a].at <= log[b].at < log[a].at + c.ttl
      && PastLockout(c, WrongTimes(log[..p], log[p].row), log[b].at)
      && log[b].at + c.ttl <= log[b].until && log[p].at < log[b].until
      && NoneNewer(log[..p], a, log[p].user) && NotSpent(log[..p], log[p].row)
  }

  ghost predicate LogInv(c: Config, log: seq<Entry>, rows: seq<Row>) {
    && (forall p :: 0 <= p < |log| ==> log[p].row < |rows|)
    && (forall p :: 0 <= p < |log| && log[p].Changed? ==>
          Justified(c, log, p) && rows[log[p].row].usedAt.Some? && rows[log[p].row].token == Some(log[p].token))
  }

  ghost predicate Inv(c: Config, s: State, clock: nat) {
    && |s.stories| == |s.rows|
    && RowsInv(s.rows, s.accounts)
    && (forall i :: 0 <= i < |s.rows| ==>
          GuessesInv(c, WrongTimes(s.log, i), s.rows[i], clock) && StoryInv(c, s.log, i, s.rows[i], s.stories[i]))
    && LogInv(c, s.log, s.rows)
  }

  lemma JustifiedLasts(c: Config, log: seq<Entry>, e: Entry, p: nat)
    requires p < |log| && log[p].Changed? && Justified(c, log, p)
    ensures Justified(c, log + [e], p)
  {
    var a, b :|
      && 0 <= a < b < p
      && log[a].Requested? && log[a].row == log[p].row && log[a].user == log[p].user
      && log[b].Verified? && log[b].row == log[p].row
      && log[a].at <= log[b].at < log[a].at + c.ttl
      && PastLockout(c, WrongTimes(log[..p], log[p].row), log[b].at)
      && log[b].at + c.ttl <= log[b].until && log[p].at < log[b].until
      && NoneNewer(log[..p], a, log[p].user) && NotSpent(log[..p], log[p].row);
    var log' := log + [e];
    assert log'[..p] == log[..p];
    assert log'[a] == log[a] && log'[b] == log[b] && log'[p] == log[p];
  }

  /** An entry that is not about the row leaves its part of the invariant alone. */
  lemma OtherEntry(c: Config, log: seq<Entry>, e: Entry, i: nat, r: Row, story: Story)
    requires StoryInv(c, log, i, r, story)
    requires !(e.Wrong? && e.row == i) && !(e.Changed? && e.row == i && r.usedAt.None?)
    requires !(e.Requested? && e.user == r.user && r.usedAt.None?)
    ensures StoryInv(c, log + [e], i, r, story) && WrongTimes(log + [e], i) == WrongTimes(log, i)
  {
    WrongTimesAppend(log, e, i);
  }

  lemma LogGrows(c: Config, log: seq<Entry>, e: Entry, rows: seq<Row>, rows': seq<Row>)
    requires LogInv(c, log, rows) && |rows| <= |rows'|
    requires forall i :: 0 <= i < |rows| && rows[i].usedAt.Some? ==> rows'[i].usedAt.Some? && rows'[i].token == rows[i].token
    requires e.Changed? ==> Justified(c, log + [e], |log|)
    requires e.row < |rows'|
    requires e.Changed? ==> rows'[e.row].usedAt.Some? && rows'[e.row].token == Some(e.token)
    ensures LogInv(c, log + [e], rows')
  {
    var log' := log + [e];
    forall p | 0 <= p < |log'| && log'[p].Changed?
      ensures Justified(c, log', p)
      ensures rows'[log'[p].row].usedAt.Some? && rows'[log'[p].row].token == Some(log'[p].token)
    {
      if p < |log| {
        assert log'[p] == log[p];
        JustifiedLasts(c, log, e, p);
      }
    }
  }

  lemma NewRowKeepsRows(rows: seq<Row>, accounts: map<nat, Account>, row: Row, now: nat)
    requires RowsInv(rows, accounts) && row.user in accounts && row.token.None?
    ensures RowsInv(Retire(rows, row.user, now) + [row], accounts)
  {
  }

  lemma RetiredStory(c: Config, s: State, clock: nat, i: nat, e: Entry, now: nat)
    requires Inv(c, s, clock) && i < |s.rows| && e.Requested? && clock <= now
    ensures var r := Retire(s.rows, e.user, now)[i];
            GuessesInv(c, WrongTimes(s.log + [e], i), r, now) && StoryInv(c, s.log + [e], i, r, s.stories[i])
  {
    var r := Retire(s.rows, e.user, now)[i];
    hide RowsInv, LogInv;
    assert StoryInv(c, s.log, i, s.rows[i], s.stories[i]);
    OtherEntry(c, s.log, e, i, r, s.stories[i]);
  }

  function NewRow(c: Config, user: nat, code: nat, now: nat): Row {
    Row(user, code, None, 0, None, now + c.ttl, None, None, now)
  }

  lemma NewRowGuesses(c: Config, user: nat, code: nat, now: nat)
    ensures GuessesInv(c, [], NewRow(c, user, code, now), now)
  {
  }

  lemma NewRowStory(c: Config, log: seq<Entry>, n: nat, user: nat, code: nat, now: nat)
    requires forall p :: 0 <= p < |log| ==> log[p].row < n
    ensures var e := Requested(n, user, now);
            GuessesInv(c, WrongTimes(log + [e], n), NewRow(c, user, code, now), now)
            && StoryInv(c, log + [e], n, NewRow(c, user, code, now), Story(|log|, None))
  {
    hide *;
    var e := Requested(n, user, now);
    NoWrongYet(log, n);
    WrongTimesAppend(log, e, n);
    assert WrongTimes(log + [e], n) == [];
    NewRowGuesses(c, user, code, now);
    NotSpentYet(log, e, n);
    FirstStory(c, log, n, user, code, now);
  }

  lemma FirstStory(c: Config, log: seq<Entry>, n: nat, user: nat, code: nat, now: nat)
    requires NotSpent(log + [Requested(n, user, now)], n)
    ensures StoryInv(c, log + [Requested(n, user, now)], n, NewRow(c, user, code, now), Story(|log|, None))
  {
    hide WrongTimes, NotSpent, PastLockout;
    var log' := log + [Requested(n, user, now)];
    assert log'[|log|] == Requested(n, user, now);
    assert NoneNewer(log', |log|, user);
  }

  lemma NotSpentYet(log: seq<Entry>, e: Entry, n: nat)
    requires !e.Changed? && forall p :: 0 <= p < |log| ==> log[p].row < n
    ensures NotSpent(log + [e], n)
  {
  }

  lemma RequestKeepsInv(c: Config, s: State, clock: nat, user: nat, code: nat, now: nat)
    requires Inv(c, s, clock) && clock <= now
    ensures Inv(c, Requesting(c, s, user, code, now), now)
  {
    hide RowsInv, GuessesInv, StoryInv, Justified, WrongTimes;
    LaterClock(c, s, clock, now);
    if user in s.accounts {
      var s' := Requesting(c, s, user, code, now);
      var n := |s.rows|;
      var e := Requested(n, user, now);
      NewRowKeepsRows(s.rows, s.accounts, s'.rows[n], now);
      LogGrows(c, s.log, e, s.rows, s'.rows);
      assert forall p :: 0 <= p < |s.log| ==> s.log[p].row < n;
      hide LogInv;
      NewRowStory(c, s.log, n, user, code, now);
      forall i | 0 <= i < n
        ensures GuessesInv(c, WrongTimes(s'.log, i), s'.rows[i], now)
        ensures StoryInv(c, s'.log, i, s'.rows[i], s'.stories[i])
      {
        RetiredStory(c, s, clock, i, e, now);
      }
    }
  }

  /** A row that does not exist yet has no wrong guesses. */
  lemma {:induction false} NoWrongYet(log: seq<Entry>, row: nat)
    requires forall p :: 0 <= p < |log| ==> log[p].row < row
    ensures WrongTimes(log, row) == []
  {
    if log != [] { NoWrongYet(log[..|log| - 1], row); }
  }

  lemma GuessesLater(c: Config, w: seq<nat>, r: Row, clock: nat, now: nat)
    requires GuessesInv(c, w, r, clock) && clock <= now
    ensures GuessesInv(c, w, r, now)
  {
  }

  /** The row a call works on, once it has changed, and every other row, make up the invariant again. */
  lemma RowChanged(c: Config, s: State, clock: nat, s': State, now: nat, i: nat, e: Entry)
    requires Inv(c, s, clock) && clock <= now && i < |s.rows|
    requires s'.log == s.log + [e] && |s'.rows| == |s.rows| == |s'.stories| && e.row == i && !e.Requested?
    requires forall k :: 0 <= k < |s.rows| && k != i ==> s'.rows[k] == s.rows[k] && s'.stories[k] == s.stories[k]
    requires RowsInv(s'.rows, s'.accounts)
    requires GuessesInv(c, WrongTimes(s'.log, i), s'.rows[i], now) && StoryInv(c, s'.log, i, s'.rows[i], s'.stories[i])
    requires LogInv(c, s'.log, s'.rows)
    ensures Inv(c, s', now)
  {
    hide RowsInv, LogInv, GuessesInv, StoryInv, WrongTimes;
    forall k | 0 <= k < |s'.rows|
      ensures GuessesInv(c, WrongTimes(s'.log, k), s'.rows[k], now)
      ensures StoryInv(c, s'.log, k, s'.rows[k], s'.stories[k])
    {
      if k != i {
        OtherEntry(c, s.log, e, k, s.rows[k], s.stories[k]);
        GuessesLater(c, WrongTimes(s.log, k), s.rows[k], clock, now);
      }
    }
  }

  lemma WrongRowKept(c: Config, log: seq<Entry>, i: nat, r: Row, story: Story, clock: nat, now: nat, later: nat)
    requires GuessesInv(c, WrongTimes(log, i), r, clock) && StoryInv(c, log, i, r, story) && clock <= now <= later
    requires r.usedAt.None? && r.verifiedAt.None? && now < r.expiresAt
    requires !(r.lockedUntil.Some? && r.lockedUntil.value > now)
    ensures GuessesInv(c, WrongTimes(log + [Wrong(i, now)], i), Missed(c, r, later), later)
    ensures StoryInv(c, log + [Wrong(i, now)], i, Missed(c, r, later), story)
  {
    WrongTimesAppend(log, Wrong(i, now), i);
    AppendLockedApart(WrongTimes(log, i), c.maxAttempts, c.lockout, now);
  }

  lemma WrongKeepsInv(c: Config, s: State, clock: nat, i: nat, now: nat, later: nat)
    requires Inv(c, s, clock) && clock <= now <= later && i < |s.rows|
    requires var r := s.rows[i]; r.usedAt.None? && r.verifiedAt.None? && now < r.expiresAt
                                 && !(r.lockedUntil.Some? && r.lockedUntil.value > now)
    ensures Inv(c, WrongGuess(c, s, i, now, later).state, later)
  {
    var s' := WrongGuess(c, s, i, now, later).state;
    var e := Wrong(i, now);
    LogGrows(c, s.log, e, s.rows, s'.rows);
    assert RowsInv(s'.rows, s'.accounts);
    WrongRowKept(c, s.log, i, s.rows[i], s.stories[i], clock, now, later);
    hide RowsInv, LogInv, GuessesInv, StoryInv;
    RowChanged(c, s, clock, s', later, i, e);
  }

  lemma RightRowKept(c: Config, log: seq<Entry>, i: nat, r: Row, story: Story, token: nat, clock: nat, now: nat, later: nat)
    requires GuessesInv(c, WrongTimes(log, i), r, clock) && StoryInv(c, log, i, r, story) && clock <= now <= later
    requires r.verifiedAt.None? && now < r.expiresAt && !(r.lockedUntil.Some? && r.lockedUntil.value > now)
    ensures GuessesInv(c, WrongTimes(log + [Verified(i, now, later + c.ttl)], i), Proved(c, r, token, now, later), later)
    ensures StoryInv(c, log + [Verified(i, now, later + c.ttl)], i, Proved(c, r, token, now, later),
                     story.(verified := Some(|log|)))
  {
    WrongTimesAppend(log, Verified(i, now, later + c.ttl), i);
  }

  lemma ProvedKeepsRows(c: Config, rows: seq<Row>, accounts: map<nat, Account>, i: nat, token: nat, now: nat, later: nat)
    requires RowsInv(rows, accounts) && i < |rows| && Holder(rows, token).None?
    ensures RowsInv(rows[i := Proved(c, rows[i], token, now, later)], accounts)
  {
  }

  lemma RightKeepsInv(c: Config, s: State, clock: nat, i: nat, token: nat, now: nat, later: nat)
    requires Inv(c, s, clock) && clock <= now <= later && i < |s.rows|
    requires var r := s.rows[i]; r.usedAt.None? && r.verifiedAt.None? && now < r.expiresAt
                                 && !(r.lockedUntil.Some? && r.lockedUntil.value > now)
    ensures Inv(c, RightGuess(c, s, i, token, now, later).state, later)
  {
    hide RowsInv, GuessesInv, StoryInv, Justified, WrongTimes, LogInv;
    LaterClock(c, s, clock, later);
    if Holder(s.rows, token).None? {
      var s' := RightGuess(c, s, i, token, now, later).state;
      var e := Verified(i, now, later + c.ttl);
      ProvedKeepsRows(c, s.rows, s.accounts, i, token, now, later);
      RightRowKept(c, s.log, i, s.rows[i], s.stories[i], token, clock, now, later);
      LogGrows(c, s.log, e, s.rows, s'.rows);
      RowChanged(c, s, clock, s', later, i, e);
    }
  }

  lemma LaterClock(c: Config, s: State, clock: nat, now: nat)
    requires Inv(c, s, clock) && clock <= now
    ensures Inv(c, s, now)
  {
  }

  lemma VerifyKeepsInv(c: Config, s: State, clock: nat, user: nat, guess: nat, token: nat, now: nat, later: nat)
    requires Inv(c, s, clock) && clock <= now <= later
    ensures Inv(c, Verifying(c, s, user, guess, token, now, later).state, later)
  {
    LaterClock(c, s, clock, later);
    var found := Newest(s.rows, user);
    if user in s.accounts && found.Some? {
      var row := s.rows[found.value];
      if !(row.lockedUntil.Some? && row.lockedUntil.value > now) && row.expiresAt > now && row.verifiedAt.None? {
        WrongKeepsInv(c, s, clock, found.value, now, later);
        RightKeepsInv(c, s, clock, found.value, token, now, later);
      }
    }
    hide Inv, RightGuess, WrongGuess;
  }

  lemma SpendIsJustified(c: Config, s: State, clock: nat, i: nat, token: nat, now: nat)
    requires Inv(c, s, clock) && clock <= now && i < |s.rows|
    requires s.rows[i].token == Some(token) && s.rows[i].verifiedAt.Some? && s.rows[i].usedAt.None? && s.rows[i].expiresAt > now
    ensures Justified(c, s.log + [Changed(i, s.rows[i].user, token, now)], |s.log|)
  {
    var log' := s.log + [Changed(i, s.rows[i].user, token, now)];
    var a, b := s.stories[i].requested, s.stories[i].verified.value;
    assert log'[..|s.log|] == s.log;
    assert log'[a] == s.log[a] && log'[b] == s.log[b];
    assert GuessesInv(c, WrongTimes(s.log, i), s.rows[i], clock);
    assert StoryInv(c, s.log, i, s.rows[i], s.stories[i]);
  }

  lemma SpentRowKept(c: Config, log: seq<Entry>, i: nat, r: Row, story: Story, token: nat, clock: nat, now: nat)
    requires GuessesInv(c, WrongTimes(log, i), r, clock) && StoryInv(c, log, i, r, story) && clock <= now
    ensures GuessesInv(c, WrongTimes(log + [Changed(i, r.user, token, now)], i), r.(usedAt := Some(now)), now)
    ensures StoryInv(c, log + [Changed(i, r.user, token, now)], i, r.(usedAt := Some(now)), story)
  {
    WrongTimesAppend(log, Changed(i, r.user, token, now), i);
  }

  lemma SpendKeepsRows(rows: seq<Row>, accounts: map<nat, Account>, i: nat, account: Account, now: nat)
    requires RowsInv(rows, accounts) && i < |rows|
    ensures RowsInv(rows[i := rows[i].(usedAt := Some(now))], accounts[rows[i].user := account])
  {
  }

  lemma SpendLogged(c: Config, log: seq<Entry>, rows: seq<Row>, i: nat, token: nat, now: nat)
    requires LogInv(c, log, rows) && i < |rows| && rows[i].token == Some(token)
    requires Justified(c, log + [Changed(i, rows[i].user, token, now)], |log|)
    ensures LogInv(c, log + [Changed(i, rows[i].user, token, now)], rows[i := rows[i].(usedAt := Some(now))])
  {
    hide LogInv, Justified;
    var rows' := rows[i := rows[i].(usedAt := Some(now))];
    assert rows'[i].usedAt.Some? && rows'[i].token == Some(token);
    LogGrows(c, log, Changed(i, rows[i].user, token, now), rows, rows');
  }

  lemma SpendKeepsInv(c: Config, s: State, clock: nat, i: nat, token: nat, account: Account, now: nat)
    requires Inv(c, s, clock) && clock <= now && i < |s.rows|
    requires s.rows[i].token == Some(token) && s.rows[i].verifiedAt.Some? && s.rows[i].usedAt.None? && s.rows[i].expiresAt > now
    ensures Inv(c, Spent(s, i, token, account, now), now)
  {
    hide *;
    var e := Changed(i, s.rows[i].user, token, now);
    var s' := Spent(s, i, token, account, now);
    InvParts(c, s, clock, i);
    SpentParts(s, i, token, account, now);
    SpendIsJustified(c, s, clock, i, token, now);
    SpentRowKept(c, s.log, i, s.rows[i], s.stories[i], token, clock, now);
    SpendKeepsRows(s.rows, s.accounts, i, account, now);
    SpendLogged(c, s.log, s.rows, i, token, now);
    RowChanged(c, s, clock, s', now, i, e);
  }

  lemma InvParts(c: Config, s: State, clock: nat, i: nat)
    requires Inv(c, s, clock) && i < |s.rows|
    ensures |s.stories| == |s.rows| && RowsInv(s.rows, s.accounts) && LogInv(c, s.log, s.rows)
    ensures GuessesInv(c, WrongTimes(s.log, i), s.rows[i], clock) && StoryInv(c, s.log, i, s.rows[i], s.stories[i])
  {
    hide RowsInv, LogInv, GuessesInv, StoryInv, WrongTimes;
  }

  lemma SpentParts(s: State, i: nat, token: nat, account: Account, now: nat)
    requires i < |s.rows|
    ensures var s' := Spent(s, i, token, account, now);
      && s'.rows == s.rows[i := s.rows[i].(usedAt := Some(now))]
      && s'.accounts == s.accounts[s.rows[i].user := account]
      && s'.log == s.log + [Changed(i, s.rows[i].user, token, now)]
      && s'.stories == s.stories
  {
  }

  lemma ResetKeepsInv(c: Config, s: State, clock: nat, token: nat, password: nat, now: nat)
    requires Inv(c, s, clock) && clock <= now
    ensures Inv(c, Resetting(s, token, password, now).state, now)
  {
    hide RowsInv, LogInv, GuessesInv, StoryInv;
    LaterClock(c, s, clock, now);
    if Resetting(s, token, password, now).error.None? {
      SpendKeepsInv(c, s, clock, Holder(s.rows, token).value, token, Account(Some(password), 0, None), now);
    }
  }

  predicate Timely(clock: nat, e: Event) {
    clock <= e.now && (e.Verify? ==> e.now <= e.later)
  }

  predicate TimelyRun(clock: nat, events: seq<Event>)
    decreases |events|
  {
    events == [] || (Timely(clock, events[0]) && TimelyRun(EndOf(events[0]), events[1..]))
  }

  lemma StepKeepsInv(c: Config, s: State, clock: nat, e: Event)
    requires Inv(c, s, clock) && Timely(clock, e)
    ensures Inv(c, Step(c, s, e), EndOf(e))
  {
    match e
    case Request(user, code, now) => RequestKeepsInv(c, s, clock, user, code, now);
    case Verify(user, guess, token, now, later) => VerifyKeepsInv(c, s, clock, user, guess, token, now, later);
    case Reset(token, password, now) => ResetKeepsInv(c, s, clock, token, password, now);
  }

  function Run(c: Config, s: State, events: seq<Event>): (r: State)
    requires |s.rows| == |s.stories|
    ensures |r.rows| == |r.stories|
    decreases |events|
  {
    if events == [] then s else Run(c, Step(c, s, events[0]), events[1..])
  }

  function Fresh(accounts: map<nat, Account>): State {
    State(accounts, [], [], [])
  }

  lemma FreshInv(c: Config, accounts: map<nat, Account>)
    ensures Inv(c, Fresh(accounts), 0)
  {
  }

  function LastClock(clock: nat, events: seq<Event>): nat {
    if events == [] then clock else EndOf(events[|events| - 1])
  }

  lemma RowsHaveStories(c: Config, s: State, clock: nat)
    requires Inv(c, s, clock)
    ensures |s.rows| == |s.stories|
  {
    hide RowsInv, LogInv, GuessesInv, StoryInv, WrongTimes;
  }

  lemma {:induction false} RunKeepsInv(c: Config, s: State, clock: nat, events: seq<Event>)
    requires Inv(c, s, clock) && TimelyRun(clock, events)
    ensures Inv(c, Run(c, s, events), LastClock(clock, events))
    decreases |events|
  {
    hide Inv, Step;
    RowsHaveStories(c, s, clock);
    if events != [] {
      StepKeepsInv(c, s, clock, events[0]);
      RowsHaveStories(c, Step(c, s, events[0]), EndOf(events[0]));
      RunKeepsInv(c, Step(c, s, events[0]), EndOf(events[0]), events[1..]);
      assert LastClock(EndOf(events[0]), events[1..]) == LastClock(clock, events);
    }
  }

  /**
   Every change of password follows a request by that user, a right code given in time and
   outside a lockout, and an unexpired token, with no newer request in between. No token is
   spent twice, and each user has at most one unused request.
   */
  lemma {:induction false} EveryChangeIsJustified(c: Config, accounts: map<nat, Account>, events: seq<Event>)
    requires TimelyRun(0, events)
    ensures var s := Run(c, Fresh(accounts), events);
      && (forall p :: 0 <= p < |s.log| && s.log[p].Changed? ==> Justified(c, s.log, p))
      && (forall p, q :: 0 <= p < q < |s.log| && s.log[p].Changed? && s.log[q].Changed? ==>
            s.log[p].token != s.log[q].token)
      && (forall i, j ::
            (0 <= i < |s.rows| && 0 <= j < |s.rows| && s.rows[i].user == s.rows[j].user
             && s.rows[i].usedAt.None? && s.rows[j].usedAt.None?)
            ==> i == j)
  {
    FreshInv(c, accounts);
    RunKeepsInv(c, Fresh(accounts), 0, events);
    var s := Run(c, Fresh(accounts), events);
    forall p, q | 0 <= p < q < |s.log| && s.log[p].Changed? && s.log[q].Changed?
      ensures s.log[p].token != s.log[q].token
    {
      SpentOnce(c, s, LastClock(0, events), p, q);
    }
    hide Justified, StoryInv, GuessesInv;
  }

  lemma SpentOnce(c: Config, s: State, clock: nat, p: nat, q: nat)
    requires Inv(c, s, clock) && p < q < |s.log| && s.log[p].Changed? && s.log[q].Changed?
    ensures s.log[p].token != s.log[q].token
  {
    assert Justified(c, s.log, q);
    assert NotSpent(s.log[..q], s.log[q].row);
    assert s.log[..q][p] == s.log[p];
    var i, j := s.log[p].row, s.log[q].row;
    assert i != j;
    hide Justified, StoryInv, GuessesInv, NotSpent;
    assert s.rows[i].token == Some(s.log[p].token) && s.rows[j].token == Some(s.log[q].token);
    if i < j { assert s.rows[i].token != s.rows[j].token; } else { assert s.rows[j].token != s.rows[i].token; }
  }

  lemma BudgetOfRow(c: Config, w: seq<nat>, r: Row, clock: nat)
    requires GuessesInv(c, w, r, clock) && c.maxAttempts > 0 && c.lockout > 0 && c.ttl > 0
    ensures |w| <= c.maxAttempts + (c.ttl - 1) / c.lockout && (c.lockout >= c.ttl ==> |w| <= c.maxAttempts)
  {
    GuessesInSpan(w, c.maxAttempts, c.lockout, r.createdAt, r.createdAt + c.ttl - 1);
    assert r.createdAt + c.ttl - 1 - r.createdAt == c.ttl - 1;
    if c.lockout >= c.ttl { NoQuotient(c.ttl - 1, c.lockout); }
  }

  /** Against one request: at most maxAttempts + (ttl - 1) / lockout wrong codes are ever checked. */
  lemma {:induction false} GuessBudgetPerRequest(c: Config, accounts: map<nat, Account>, events: seq<Event>, i: nat)
    requires TimelyRun(0, events) && c.maxAttempts > 0 && c.lockout > 0 && c.ttl > 0
    requires i < |Run(c, Fresh(accounts), events).rows|
    ensures var n := |WrongTimes(Run(c, Fresh(accounts), events).log, i)|;
      n <= c.maxAttempts + (c.ttl - 1) / c.lockout && (c.lockout >= c.ttl ==> n <= c.maxAttempts)
  {
    hide StoryInv, LogInv, RowsInv, Run, TimelyRun, GuessesInv, WrongTimes;
    FreshInv(c, accounts);
    RunKeepsInv(c, Fresh(accounts), 0, events);
    var s := Run(c, Fresh(accounts), events);
    assert GuessesInv(c, WrongTimes(s.log, i), s.rows[i], LastClock(0, events));
    BudgetOfRow(c, WrongTimes(s.log, i), s.rows[i], LastClock(0, events));
  }

  // ---- The budget is attained ----------------------------------------------------------

  /** The earliest moment guess `j` is checked: at once up to the limit, then a lockout apart. */
  function Moment(c: Config, j: nat): nat {
    if j < c.maxAttempts then 0 else (j + 1 - c.maxAttempts) * c.lockout
  }

  function Barrage(c: Config, user: nat, guess: nat, j: nat, n: nat): seq<Event>
    requires j <= n
    decreases n - j
  {
    if j == n then []
    else [Verify(user, guess, 0, Moment(c, j), Moment(c, j))] + Barrage(c, user, guess, j + 1, n)
  }

  /** A lone unlocked, unexpired row with `j` wrong guesses on it. */
  predicate UnderFire(c: Config, s: State, user: nat, guess: nat, j: nat) {
    && user in s.accounts && |s.rows| == |s.stories| == 1
    && var r := s.rows[0];
      r.user == user && r.code != guess && r.attempts == j && r.expiresAt == c.ttl && r.usedAt.None? && r.verifiedAt.None?
      && (r.lockedUntil.Some? ==> r.lockedUntil.value <= Moment(c, j))
  }

  lemma ShotLands(c: Config, s: State, user: nat, guess: nat, j: nat)
    requires UnderFire(c, s, user, guess, j) && c.maxAttempts > 0 && Moment(c, j) < c.ttl
    ensures var s' := Step(c, s, Verify(user, guess, 0, Moment(c, j), Moment(c, j)));
      UnderFire(c, s', user, guess, j + 1) && s'.log == s.log + [Wrong(0, Moment(c, j))]
  {
    assert Newest(s.rows, user) == Some(0);
    if j + 1 >= c.maxAttempts {
      assert Moment(c, j) + c.lockout == Moment(c, j + 1) by {
        assert (j + 2 - c.maxAttempts) * c.lockout == (j + 1 - c.maxAttempts) * c.lockout + c.lockout;
      }
    }
  }

  lemma MomentsInOrder(c: Config, j: nat, k: nat)
    requires j <= k
    ensures Moment(c, j) <= Moment(c, k)
  {
    if j >= c.maxAttempts {
      assert (k + 1 - c.maxAttempts) * c.lockout == (j + 1 - c.maxAttempts) * c.lockout + (k - j) * c.lockout;
    }
  }

  lemma {:induction false} BarrageLands(c: Config, s: State, clock: nat, user: nat, guess: nat, j: nat, n: nat)
    requires UnderFire(c, s, user, guess, j) && c.maxAttempts > 0 && j <= n && clock <= Moment(c, j)
    requires n > 0 ==> Moment(c, n - 1) < c.ttl
    ensures TimelyRun(clock, Barrage(c, user, guess, j, n))
    ensures |WrongTimes(Run(c, s, Barrage(c, user, guess, j, n)).log, 0)| == |WrongTimes(s.log, 0)| + n - j
    decreases n - j
  {
    if j < n {
      var e := Verify(user, guess, 0, Moment(c, j), Moment(c, j));
      MomentsInOrder(c, j, n - 1);
      MomentsInOrder(c, j, j + 1);
      ShotLands(c, s, user, guess, j);
      WrongTimesAppend(s.log, Wrong(0, Moment(c, j)), 0);
      hide UnderFire, Moment, Step, WrongTimes;
      var events, rest := Barrage(c, user, guess, j, n), Barrage(c, user, guess, j + 1, n);
      assert events[0] == e && events[1..] == rest;
      BarrageLands(c, Step(c, s, e), Moment(c, j), user, guess, j + 1, n);
    }
  }

  lemma LastMoment(c: Config)
    requires c.maxAttempts > 0 && c.lockout > 0 && c.ttl > 0
    ensures Moment(c, c.maxAttempts + (c.ttl - 1) / c.lockout - 1) < c.ttl
  {
    var q := (c.ttl - 1) / c.lockout;
    assert q * c.lockout <= c.ttl - 1;
    assert (c.maxAttempts + q - 1) + 1 - c.maxAttempts == q;
  }

  lemma FirstRequest(c: Config, accounts: map<nat, Account>, user: nat, code: nat)
    requires user in accounts
    ensures var s := Step(c, Fresh(accounts), Request(user, code, 0));
      UnderFire(c, s, user, code + 1, 0) && WrongTimes(s.log, 0) == []
    ensures Timely(0, Request(user, code, 0)) && EndOf(Request(user, code, 0)) == 0
  {
  }

  lemma RunOn(c: Config, s: State, clock: nat, e: Event, rest: seq<Event>)
    requires |s.rows| == |s.stories| && |Step(c, s, e).rows| == |Step(c, s, e).stories|
    ensures Run(c, s, [e] + rest) == Run(c, Step(c, s, e), rest)
    ensures Timely(clock, e) && TimelyRun(EndOf(e), rest) ==> TimelyRun(clock, [e] + rest)
  {
    hide Step;
    assert ([e] + rest)[1..] == rest;
  }

  /** The budget is no overestimate: some timely run has exactly that many wrong codes checked. */
  lemma BudgetIsTight(c: Config, accounts: map<nat, Account>, user: nat, code: nat) returns (events: seq<Event>)
    requires c.maxAttempts > 0 && c.lockout > 0 && c.ttl > 0 && user in accounts
    ensures TimelyRun(0, events) && |Run(c, Fresh(accounts), events).rows| > 0
    ensures |WrongTimes(Run(c, Fresh(accounts), events).log, 0)| == c.maxAttempts + (c.ttl - 1) / c.lockout
  {
    hide UnderFire, Moment, Step, WrongTimes, TimelyRun, Timely, Run, Barrage;
    var n := c.maxAttempts + (c.ttl - 1) / c.lockout;
    assert (c.ttl - 1) / c.lockout >= 0;
    var e := Request(user, code, 0);
    var s := Step(c, Fresh(accounts), e);
    FirstRequest(c, accounts, user, code);
    assert |s.rows| == |s.stories| by { FiredParts(c, s, user, code + 1, 0); }
    LastMoment(c);
    var rest := Barrage(c, user, code + 1, 0, n);
    BarrageLands(c, s, 0, user, code + 1, 0, n);
    events := [e] + rest;
    RunOn(c, Fresh(accounts), 0, e, rest);
    if Run(c, Fresh(accounts), events).rows == [] { WrongNeedsRow(c, accounts, events); }
  }

  lemma FiredParts(c: Config, s: State, user: nat, guess: nat, j: nat)
    requires UnderFire(c, s, user, guess, j)
    ensures |s.rows| == |s.stories| == 1
  {
  }

  lemma WrongNeedsRow(c: Config, accounts: map<nat, Account>, events: seq<Event>)
    requires TimelyRun(0, events) && Run(c, Fresh(accounts), events).rows == []
    ensures WrongTimes(Run(c, Fresh(accounts), events).log, 0) == []
  {
    FreshInv(c, accounts);
    RunKeepsInv(c, Fresh(accounts), 0, events);
    hide Run, TimelyRun;
    NoWrongYet(Run(c, Fresh(accounts), events).log, 0);
  }

  // ---- The service ----------------------------------------------------------------------

  /** The newest unused request of the user, read off the rows. */
  predicate IsLatest(rows: seq<Row>, user: nat, i: nat) {
    && i < |rows| && rows[i].user == user && rows[i].usedAt.None?
    && forall k :: i < k < |rows| && rows[k].user == user ==> rows[k].usedAt.Some?
  }

  predicate Unlocked(r: Row, now: nat) {
    r.lockedUntil.Some? ==> r.lockedUntil.value <= now
  }

  /** A token belongs to one row. */
  predicate TokensApart(rows: seq<Row>) {
    forall i, j :: 0 <= i < j < |rows| && rows[i].token.Some? ==> rows[i].token != rows[j].token
  }

  /** A row that this token may still be spent on. */
  predicate Spendable(rows: seq<Row>, accounts: map<nat, Account>, i: nat, token: nat, now: nat) {
    && i < |rows| && rows[i].token == Some(token) && rows[i].verifiedAt.Some? && rows[i].usedAt.None?
    && now < rows[i].expiresAt && rows[i].user in accounts
  }

  lemma LatestIsNewest(rows: seq<Row>, user: nat, i: nat)
    requires IsLatest(rows, user, i)
    ensures Newest(rows, user) == Some(i)
  {
    NewestIsLatest(rows, user);
  }

  lemma {:induction false} NewestIsLatest(rows: seq<Row>, user: nat)
    ensures Newest(rows, user).Some? ==> IsLatest(rows, user, Newest(rows, user).value)
  {
    if rows != [] {
      var n := |rows| - 1;
      NewestIsLatest(rows[..n], user);
      assert forall k :: 0 <= k < n ==> rows[..n][k] == rows[k];
    }
  }

  /** The tables the service writes; the log and the stories only tell what happened. */
  class PasswordResetService {
    const config: Config
    var accounts: map<nat, Account>
    var rows: seq<Row>
    ghost var log: seq<Entry>
    ghost var stories: seq<Story>

    ghost function Snapshot(): State
      reads this
    {
      State(accounts, rows, log, stories)
    }

    constructor (config: Config, accounts: map<nat, Account>)
      ensures this.config == config && Snapshot() == Fresh(accounts)
    {
      this.config := config;
      this.accounts := accounts;
      rows, log, stories := [], [], [];
    }

    /** Answers nobody about whether the account exists. */
    method Request(user: nat, code: nat, now: nat)
      modifies this
      ensures Snapshot() == Requesting(config, old(Snapshot()), user, code, now)
      ensures user in accounts ==>
                && |rows| == |old(rows)| + 1 && rows[|old(rows)|].user == user && rows[|old(rows)|].usedAt.None?
                && forall i :: 0 <= i < |old(rows)| && rows[i].user == user ==> rows[i].usedAt.Some?
      ensures user in accounts ==>
                && rows[|old(rows)|] == Row(user, code, None, 0, None, now + config.ttl, None, None, now)
                && forall i :: 0 <= i < |old(rows)| ==>
                     rows[i] == if old(rows)[i].user == user && old(rows)[i].usedAt.None? then old(rows)[i].(usedAt := Some(now))
                                else old(rows)[i]
      ensures accounts == old(accounts) && (user !in accounts ==> rows == old(rows))
    {
      if user !in accounts { return; }
      log := log + [Requested(|rows|, user, now)];
      stories := stories + [Story(|log| - 1, None)];
      rows := Retire(rows, user, now);
      rows := rows + [Row(user, code, None, 0, None, now + config.ttl, None, None, now)];
    }

    method Verify(user: nat, guess: nat, token: nat, now: nat, later: nat) returns (r: Result<nat, Error>)
      requires |rows| == |stories|
      modifies this
      ensures var o := Verifying(config, old(Snapshot()), user, guess, token, now, later);
        Snapshot() == o.state && r == if o.error.Some? then Err(o.error.value) else Ok(token)
      ensures accounts == old(accounts)
      ensures r.Ok? ==> exists i :: 0 <= i < |rows| && rows[i].user == user && old(rows)[i].usedAt.None?
                                    && old(rows)[i].code == guess && rows[i].token == Some(token)
      ensures user !in accounts || (forall i :: 0 <= i < |old(rows)| && old(rows)[i].user == user ==> old(rows)[i].usedAt.Some?) ==>
                r == Err(InvalidResetCode) && rows == old(rows)
      ensures forall i | 0 <= i < |old(rows)| && IsLatest(old(rows), user, i) && user in accounts ::
                var row := old(rows)[i];
                && (!Unlocked(row, now) ==> r == Err(ResetCodeLocked) && rows == old(rows))
                && (r == Err(ResetCodeExpired) <==> Unlocked(row, now) && row.expiresAt <= now)
                && (r == Err(ResetCodeAlreadyUsed) <==> Unlocked(row, now) && now < row.expiresAt && row.verifiedAt.Some?)
                && (Unlocked(row, now) && now < row.expiresAt && row.verifiedAt.None? && guess != row.code ==>
                      if row.attempts + 1 >= config.maxAttempts
                      then r == Err(ResetCodeLocked)
                           && rows == old(rows)[i := row.(attempts := row.attempts + 1, lockedUntil := Some(later + config.lockout))]
                      else r == Err(InvalidResetCode)
                           && rows == old(rows)[i := row.(attempts := row.attempts + 1, lockedUntil := None)])
                && (r == Err(DuplicateToken) <==>
                      && Unlocked(row, now) && now < row.expiresAt && row.verifiedAt.None? && guess == row.code
                      && exists k :: 0 <= k < |old(rows)| && old(rows)[k].token == Some(token))
                && (r.Ok? <==>
                      && Unlocked(row, now) && now < row.expiresAt && row.verifiedAt.None? && guess == row.code
                      && forall k :: 0 <= k < |old(rows)| ==> old(rows)[k].token != Some(token))
                && (r.Ok? ==>
                      && r.value == token
                      && rows == old(rows)[i := row.(token := Some(token), verifiedAt := Some(now), attempts := 0,
                                                     lockedUntil := None, expiresAt := later + config.ttl)])
    {
      NewestIsLatest(rows, user);
      forall i | 0 <= i < |rows| && IsLatest(rows, user, i) ensures Newest(rows, user) == Some(i) {
        LatestIsNewest(rows, user, i);
      }
      var found := Newest(rows, user);
      if user !in accounts || found.None? { return Err(InvalidResetCode); }
      var id := found.value;
      var record := rows[id];
      if record.lockedUntil.Some? && record.lockedUntil.value > now { return Err(ResetCodeLocked); }
      if record.expiresAt <= now { return Err(ResetCodeExpired); }
      if record.verifiedAt.Some? { return Err(ResetCodeAlreadyUsed); }
      if guess != record.code {
        var attempts := record.attempts + 1;
        var locked := attempts >= config.maxAttempts;
        rows := rows[id := record.(attempts := attempts, lockedUntil := if locked then Some(later + config.lockout) else None)];
        log := log + [Wrong(id, now)];
        return Err(if locked then ResetCodeLocked else InvalidResetCode);
      }
      if Holder(rows, token).Some? { return Err(DuplicateToken); }
      rows := rows[id := record.(token := Some(token), verifiedAt := Some(now), attempts := 0, lockedUntil := None,
                                 expiresAt := later + config.ttl)];
      stories := stories[id := stories[id].(verified := Some(|log|))];
      log := log + [Verified(id, now, later + config.ttl)];
      r := Ok(token);
    }

    method Reset(token: nat, password: nat, now: nat) returns (error: Option<Error>)
      modifies this
      ensures var o := Resetting(old(Snapshot()), token, password, now); Snapshot() == o.state && error == o.error
      ensures error.None? ==> Holder(old(rows), token).Some?
      ensures error.None? ==>
                var i := Holder(old(rows), token).value;
                && rows == old(rows)[i := old(rows)[i].(usedAt := Some(now))]
                && accounts == old(accounts)[old(rows)[i].user := Account(Some(password), 0, None)]
      ensures TokensApart(old(rows)) ==>
                && (error.None? <==>
                      exists i :: 0 <= i < |old(rows)| && Spendable(old(rows), old(accounts), i, token, now)
                                  && old(accounts)[old(rows)[i].user].password != Some(password))
                && (error == Some(PasswordUnchanged) <==>
                      exists i :: 0 <= i < |old(rows)| && Spendable(old(rows), old(accounts), i, token, now)
                                  && old(accounts)[old(rows)[i].user].password == Some(password))
                && (error == Some(InvalidResetToken) <==>
                      forall i :: 0 <= i < |old(rows)| ==> !Spendable(old(rows), old(accounts), i, token, now))
      ensures error.Some? ==> rows == old(rows) && accounts == old(accounts)
    {
      var found := Holder(rows, token);
      if found.None? { return Some(InvalidResetToken); }
      var id := found.value;
      var record := rows[id];
      if record.verifiedAt.None? || record.usedAt.Some? || record.expiresAt <= now || record.user !in accounts {
        return Some(InvalidResetToken);
      }
      if accounts[record.user].password == Some(password) { return Some(PasswordUnchanged); }
      rows := rows[id := record.(usedAt := Some(now))];
      accounts := accounts[record.user := Account(Some(password), 0, None)];
      log := log + [Changed(id, record.user, token, now)];
      error := None;
    }
  }
}
