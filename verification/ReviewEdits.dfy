/**
 Editing a review. A call reads the row, decides what to write, and writes; other
 calls may commit in between, because transactions run at Read Committed. The
 trigger on the table compares only the lengths of the old and the new edit history.
 This module proves that this test is exactly what keeps every version.
 */
module ReviewEdits {
  import opened Common

  datatype Content = Content(
    rating: int,
    punctuality: Option<int>,
    quality: Option<int>,
    value: Option<int>,
    comment: Option<string>)

  datatype Snapshot = Snapshot(content: Content, editedAt: nat)

  datatype Review = Review(
    booking: nat,
    author: nat,
    provider: nat,
    content: Content,
    history: seq<Snapshot>,
    response: Option<string>,
    respondedAt: Option<nat>,
    hidden: bool)

  /** A PATCH body. `None` is an absent field; `Some(None)` is an explicit null. */
  datatype Dto = Dto(
    rating: Option<int>,
    punctuality: Option<Option<int>>,
    quality: Option<Option<int>>,
    value: Option<Option<int>>,
    comment: Option<Option<string>>,
    response: Option<string>)

  datatype Error =
    | ReviewNotFound | NotReviewProvider | NotReviewAuthor | NoChanges
    | RefusedByTrigger | RatingOutOfRange

  /** What a call has decided to write, from the row it has read. */
  datatype Plan =
    | Respond(text: string, at: nat)
    | Rewrite(dto: Dto, history: seq<Snapshot>)

  function Override<T>(field: Option<T>, current: T): T {
    if field.Some? then field.value else current
  }

  function Overwrite(dto: Dto, c: Content): Content {
    Content(
      Override(dto.rating, c.rating),
      Override(dto.punctuality, c.punctuality),
      Override(dto.quality, c.quality),
      Override(dto.value, c.value),
      Override(dto.comment, c.comment))
  }

  predicate IsProvider(user: User, row: Review) {
    user.provider == Some(row.provider)
  }

  /** Row level security: a hidden review is left to its author, its provider and admins. */
  predicate Visible(user: User, row: Review) {
    user.admin || row.author == user.id || IsProvider(user, row) || !row.hidden
  }

  predicate MayUpdateRow(user: User, row: Review) {
    user.admin || row.author == user.id || IsProvider(user, row)
  }

  function ReadPhase(user: User, row: Review, dto: Dto, now: nat): Result<Plan, Error> {
    if !Visible(user, row) then Err(ReviewNotFound)
    else if dto.response.Some? then
      if !IsProvider(user, row) && !user.admin then Err(NotReviewProvider)
      else Ok(Respond(dto.response.value, now))
    else if row.author != user.id && !user.admin then Err(NotReviewAuthor)
    else if Overwrite(dto, row.content) == row.content then Err(NoChanges)
    else Ok(Rewrite(dto, row.history + [Snapshot(row.content, now)]))
  }

  /** The trigger's two length conditions on an edit. */
  predicate LengthTest(old_: Review, new_: Review) {
    && |new_.history| >= |old_.history|
    && (new_.content != old_.content ==> |new_.history| > |old_.history|)
  }

  predicate GuardUpdate(user: User, old_: Review, new_: Review) {
    if user.admin then true
    else if |new_.history| < |old_.history| then false
    else if old_.author == user.id then
      new_.response == old_.response && LengthTest(old_, new_)
    else
      && new_.content == old_.content && new_.history == old_.history
      && new_.hidden == old_.hidden && new_.author == old_.author && new_.booking == old_.booking
  }

  function Target(row: Review, plan: Plan): Review {
    match plan
    case Respond(text, at) => row.(response := Some(text), respondedAt := Some(at))
    case Rewrite(dto, history) => row.(content := Overwrite(dto, row.content), history := history)
  }

  predicate InRange(rating: Option<int>) {
    rating.Some? ==> 1 <= rating.value <= 5
  }

  predicate RatingsInRange(c: Content) {
    1 <= c.rating <= 5 && InRange(c.punctuality) && InRange(c.quality) && InRange(c.value)
  }

  /** The UPDATE, against the row as it is now: row policy, trigger, then CHECKs. */
  function WritePhase(user: User, row: Review, plan: Plan): Result<Review, Error> {
    var target := Target(row, plan);
    if !MayUpdateRow(user, row) then Err(ReviewNotFound)
    else if !GuardUpdate(user, row, target) then Err(RefusedByTrigger)
    else if !RatingsInRange(target.content) then Err(RatingOutOfRange)
    else Ok(target)
  }

  // ---- Interleaved runs ------------------------------------------------------

  datatype Pending = Pending(user: User, plan: Plan)

  /**
   One review row, the calls that have read it and not written yet, and `versions`:
   every content the row has had, in order, recorded by watching the row alone.
   */
  datatype System = System(row: Review, versions: seq<Content>, pending: map<nat, Pending>)

  datatype Event =
    | Read(tx: nat, user: User, dto: Dto, now: nat)
    | Write(tx: nat)
    | SetHidden(hidden: bool)

  function Record(versions: seq<Content>, c: Content): seq<Content> {
    if versions != [] && versions[|versions| - 1] == c then versions else versions + [c]
  }

  function Step(s: System, e: Event): System {
    match e
    case Read(tx, user, dto, now) =>
      var plan := ReadPhase(user, s.row, dto, now);
      if plan.Ok? then s.(pending := s.pending[tx := Pending(user, plan.value)]) else s
    case Write(tx) =>
      if tx !in s.pending then s
      else
        var r := WritePhase(s.pending[tx].user, s.row, s.pending[tx].plan);
        var rest := s.pending - {tx};
        if r.Ok? then System(r.value, Record(s.versions, r.value.content), rest)
        else s.(pending := rest)
    case SetHidden(hidden) => s.(row := s.row.(hidden := hidden))
  }

  function Run(s: System, events: seq<Event>): System
    decreases |events|
  {
    if events == [] then s else Run(Step(s, events[0]), events[1..])
  }

  /** An administrator's rewrite reaches the table: the trigger lets it through unread. */
  predicate AdminRewrite(s: System, e: Event) {
    && e.Write? && e.tx in s.pending
    && s.pending[e.tx].user.admin && s.pending[e.tx].plan.Rewrite?
  }

  predicate NoAdminRewrite(s: System, events: seq<Event>)
    decreases |events|
  {
    events == [] || (!AdminRewrite(s, events[0]) && NoAdminRewrite(Step(s, events[0]), events[1..]))
  }

  function Contents(history: seq<Snapshot>): (r: seq<Content>)
    ensures |r| == |history|
    ensures forall i :: 0 <= i < |r| ==> r[i] == history[i].content
  {
    seq(|history|, i requires 0 <= i < |history| => history[i].content)
  }

  /** The law of the table: history and current text together are every version, in order. */
  ghost predicate KeepsEveryVersion(s: System) {
    Contents(s.row.history) + [s.row.content] == s.versions
  }

  ghost predicate PlanFromPast(versions: seq<Content>, p: Plan) {
    p.Rewrite? ==>
      && 1 <= |p.history| <= |versions|
      && Contents(p.history) == versions[..|p.history|]
      && Overwrite(p.dto, versions[|p.history| - 1]) != versions[|p.history| - 1]
  }

  ghost predicate Inv(s: System) {
    && KeepsEveryVersion(s)
    && forall tx :: tx in s.pending ==> PlanFromPast(s.versions, s.pending[tx].plan)
  }

  lemma {:induction false} LastVersionIsCurrent(s: System)
    requires KeepsEveryVersion(s)
    ensures |s.versions| == |s.row.history| + 1
    ensures s.versions[|s.versions| - 1] == s.row.content
    ensures s.versions[..|s.row.history|] == Contents(s.row.history)
  {
    assert s.versions == Contents(s.row.history) + [s.row.content];
  }

  lemma ReadKeepsInv(s: System, tx: nat, user: User, dto: Dto, now: nat)
    requires Inv(s)
    ensures Inv(Step(s, Read(tx, user, dto, now)))
  {
    LastVersionIsCurrent(s);
    var plan := ReadPhase(user, s.row, dto, now);
    if plan.Ok? && plan.value.Rewrite? {
      assert Contents(plan.value.history) == s.versions;
      assert s.versions[..|plan.value.history|] == s.versions;
    }
  }

  /** A rewrite that passes the length test either appends one version or changes none. */
  lemma RewriteThatPasses(s: System, p: Plan)
    requires KeepsEveryVersion(s) && PlanFromPast(s.versions, p) && p.Rewrite?
    requires LengthTest(s.row, Target(s.row, p))
    ensures KeepsEveryVersion(
              s.(row := Target(s.row, p), versions := Record(s.versions, Target(s.row, p).content)))
    ensures |p.history| == |s.row.history| ==>
              && Target(s.row, p).content == s.row.content
              && Contents(p.history) == Contents(s.row.history)
    ensures |p.history| > |s.row.history| ==>
              Record(s.versions, Target(s.row, p).content) == s.versions + [Target(s.row, p).content]
  {
    LastVersionIsCurrent(s);
    if |p.history| > |s.row.history| {
      assert s.versions[..|p.history|] == s.versions;
    }
  }

  lemma WriteKeepsInv(s: System, tx: nat)
    requires Inv(s)
    requires AdminRewrite(s, Write(tx)) ==> LengthTest(s.row, Target(s.row, s.pending[tx].plan))
    ensures Inv(Step(s, Write(tx)))
  {
    if tx in s.pending {
      var p := s.pending[tx];
      if WritePhase(p.user, s.row, p.plan).Ok? {
        if p.plan.Rewrite? {
          assert LengthTest(s.row, Target(s.row, p.plan)) by { LastVersionIsCurrent(s); }
          RewriteThatPasses(s, p.plan);
        } else {
          LastVersionIsCurrent(s);
        }
        var s' := Step(s, Write(tx));
        forall t | t in s'.pending ensures PlanFromPast(s'.versions, s'.pending[t].plan) {
          var q := s.pending[t].plan;
          assert PlanFromPast(s.versions, q);
          if q.Rewrite? {
            assert s'.versions[..|q.history|] == s.versions[..|q.history|];
          }
        }
      }
    }
  }

  /** No interleaving of edits, replies and visibility changes loses or invents a version. */
  lemma {:induction false} EveryVersionKept(s: System, events: seq<Event>)
    requires Inv(s) && NoAdminRewrite(s, events)
    ensures Inv(Run(s, events))
    decreases |events|
  {
    if events != [] {
      match events[0] {
        case Read(tx, user, dto, now) => ReadKeepsInv(s, tx, user, dto, now);
        case Write(tx) => WriteKeepsInv(s, tx);
        case SetHidden(_) =>
      }
      EveryVersionKept(Step(s, events[0]), events[1..]);
    }
  }

  function Fresh(row: Review): System {
    System(row, [row.content], map[])
  }

  lemma {:induction false} EditHistoryIsComplete(row: Review, events: seq<Event>)
    requires row.history == []
    requires NoAdminRewrite(Fresh(row), events)
    ensures var s := Run(Fresh(row), events); Contents(s.row.history) + [s.row.content] == s.versions
  {
    assert Contents(row.history) == [];
    assert Inv(Fresh(row));
    EveryVersionKept(Fresh(row), events);
  }

  /**
   An edit whose author had not seen the newest version is refused, or leaves the
   review as it was apart from the timestamp of the newest snapshot.
   */
  lemma {:induction false} StaleEditChangesNothing(row: Review, events: seq<Event>, tx: nat)
    requires row.history == [] && NoAdminRewrite(Fresh(row), events)
    requires var s := Run(Fresh(row), events);
      && tx in s.pending && !s.pending[tx].user.admin && s.pending[tx].plan.Rewrite?
      && |s.pending[tx].plan.history| <= |s.row.history|
    ensures var s := Run(Fresh(row), events);
            var s' := Step(s, Write(tx));
      && s'.versions == s.versions
      && s'.row == s.row.(history := s'.row.history)
      && Contents(s'.row.history) == Contents(s.row.history)
  {
    assert Contents(row.history) == [];
    assert Inv(Fresh(row));
    EveryVersionKept(Fresh(row), events);
    var s := Run(Fresh(row), events);
    var p := s.pending[tx];
    LastVersionIsCurrent(s);
    if WritePhase(p.user, s.row, p.plan).Ok? {
      assert LengthTest(s.row, Target(s.row, p.plan));
      RewriteThatPasses(s, p.plan);
    }
  }

  /**
   The length test is exact. Let any rewrite through, as the trigger does for an
   administrator: no version is lost or invented if and only if the test passes.
   */
  lemma {:induction false} LengthTestIsExact(s: System, p: Plan)
    requires Inv(s) && PlanFromPast(s.versions, p) && p.Rewrite?
    ensures var new_ := Target(s.row, p);
            KeepsEveryVersion(s.(row := new_, versions := Record(s.versions, new_.content)))
            <==> LengthTest(s.row, new_)
  {
    LastVersionIsCurrent(s);
    var new_ := Target(s.row, p);
    if LengthTest(s.row, new_) {
      RewriteThatPasses(s, p);
    } else {
      assert |Contents(new_.history) + [new_.content]| < |Record(s.versions, new_.content)|;
    }
  }

  /** A rewrite the trigger did not hold to its length test reaches the table against it. */
  predicate Slips(s: System, e: Event) {
    AdminRewrite(s, e)
    && var target := Target(s.row, s.pending[e.tx].plan);
    RatingsInRange(target.content) && !LengthTest(s.row, target)
  }

  predicate NothingSlips(s: System, events: seq<Event>)
    decreases |events|
  {
    events == [] || (!Slips(s, events[0]) && NothingSlips(Step(s, events[0]), events[1..]))
  }

  /** At every moment of the run the history is complete. */
  ghost predicate StaysComplete(s: System, events: seq<Event>)
    decreases |events|
  {
    KeepsEveryVersion(s) && (events == [] || StaysComplete(Step(s, events[0]), events[1..]))
  }

  lemma StepIsCompleteIffNothingSlips(s: System, e: Event)
    requires Inv(s)
    ensures KeepsEveryVersion(Step(s, e)) <==> !Slips(s, e)
    ensures !Slips(s, e) ==> Inv(Step(s, e))
  {
    match e
    case Read(tx, user, dto, now) => ReadKeepsInv(s, tx, user, dto, now);
    case SetHidden(_) =>
    case Write(tx) =>
      if Slips(s, e) {
        LengthTestIsExact(s, s.pending[tx].plan);
      } else if AdminRewrite(s, e) && WritePhase(s.pending[tx].user, s.row, s.pending[tx].plan).Err? {
        assert Step(s, e) == s.(pending := s.pending - {tx});
      } else {
        WriteKeepsInv(s, tx);
      }
  }

  lemma {:induction false} RunIsCompleteIffNothingSlips(s: System, events: seq<Event>)
    requires Inv(s)
    ensures StaysComplete(s, events) <==> NothingSlips(s, events)
    decreases |events|
  {
    if events != [] {
      StepIsCompleteIffNothingSlips(s, events[0]);
      hide Step, Inv, Slips, KeepsEveryVersion;
      if !Slips(s, events[0]) {
        RunIsCompleteIffNothingSlips(Step(s, events[0]), events[1..]);
      }
    }
    assert KeepsEveryVersion(s);
  }

  /**
   Administrators included: in any interleaving the history stays complete at every moment if
   and only if no rewrite lands that the length test would have refused.
   */
  lemma HistoryIsCompleteIffNothingSlips(row: Review, events: seq<Event>)
    requires row.history == []
    ensures StaysComplete(Fresh(row), events) <==> NothingSlips(Fresh(row), events)
  {
    assert Contents(row.history) == [];
    assert Inv(Fresh(row));
    RunIsCompleteIffNothingSlips(Fresh(row), events);
  }

  /** So an administrator can lose a version: a read, an author's edit, then the stale write. */
  lemma AdminRewriteCanLoseAVersion()
    ensures exists row: Review, events: seq<Event> ::
              row.history == [] && !KeepsEveryVersion(Run(Fresh(row), events))
  {
    var c := Content(5, None, None, None, None);
    var row := Review(0, 1, 2, c, [], None, None, false);
    var author, admin := User(1, false, None), User(9, true, None);
    var to4 := Dto(Some(4), None, None, None, None, None);
    var to3 := to4.(rating := Some(3));
    var events := [Read(0, admin, to3, 1), Read(1, author, to4, 2), Write(1), Write(0)];
    var s1 := Step(Fresh(row), events[0]);
    var s2 := Step(s1, events[1]);
    var s3 := Step(s2, events[2]);
    var s4 := Step(s3, events[3]);
    assert s3.versions == [c, c.(rating := 4)];
    assert s4.versions == [c, c.(rating := 4), c.(rating := 3)];
    assert |s4.row.history| == 1;
    calc {
      Run(Fresh(row), events);
      { assert events[1..][0] == events[1]; }
      Run(s1, events[1..]);
      { assert events[1..][1..] == events[2..]; }
      Run(s2, events[2..]);
      { assert events[2..][1..] == events[3..]; }
      Run(s3, events[3..]);
      { assert events[3..][1..] == []; }
      s4;
    }
    assert |Contents(s4.row.history) + [s4.row.content]| == 2;
  }
}
