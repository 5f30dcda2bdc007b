/**
 The category table: who is whose parent, and the bounded walk that is meant to keep loops
 out. Names, slugs and positions play no part. Calls run one after another.
 */
module Categories {
  import opened Common

  const WALK_LIMIT: nat := 20

  datatype Category = Category(parent: Option<nat>, active: bool)

  type Table = map<nat, Category>

  /** The parent in a change request: absent, null or an identifier. */
  datatype Change = Keep | Detach | MoveTo(parent: nat)

  datatype Error =
    | CategoryCycle | ParentNotFound | CategoryNotFound | CategoryHasChildren | StillReferenced | DuplicateCategory

  /** `services` counts the live services in the category, `retired` whatever else still refers to it. */
  datatype Event =
    | Create(id: nat, under: Option<nat>)
    | Update(id: nat, change: Change)
    | Remove(id: nat, services: nat, retired: nat)

  /** The ancestor `k` steps up, the category itself at 0. */
  function Up(t: Table, id: nat, k: nat): Option<nat> {
    if k == 0 then Some(id)
    else
      var below := Up(t, id, k - 1);
      if below.None? || below.value !in t then None else t[below.value].parent
  }

  /** The foreign key: a parent is a category. */
  predicate Closed(t: Table) {
    forall id :: id in t && t[id].parent.Some? ==> t[id].parent.value in t
  }

  ghost predicate Ends(t: Table, id: nat) {
    exists k: nat :: Up(t, id, k).None?
  }

  /** No category is among its own ancestors: going up always ends. */
  ghost predicate Acyclic(t: Table) {
    forall id :: id in t ==> Ends(t, id)
  }

  /** Whether the walk up from `from` meets `id` within `steps` categories. */
  predicate Meets(t: Table, from: nat, id: nat, steps: nat) {
    exists k :: 0 <= k < steps && Up(t, from, k) == Some(id)
  }

  function SetParent(t: Table, id: nat, parent: Option<nat>): Table
    requires id in t
  {
    t[id := t[id].(parent := parent)]
  }

  function Creating(t: Table, id: nat, under: Option<nat>): Result<Table, Error> {
    if under.Some? && under.value !in t then Err(ParentNotFound)
    else if id in t then Err(DuplicateCategory)
    else Ok(t[id := Category(under, true)])
  }

  function Updating(t: Table, id: nat, change: Change): Result<Table, Error> {
    if change == MoveTo(id) then Err(CategoryCycle)
    else if change.MoveTo? && change.parent !in t then Err(ParentNotFound)
    else if change.MoveTo? && Meets(t, change.parent, id, WALK_LIMIT) then Err(CategoryCycle)
    else if id !in t then Err(CategoryNotFound)
    else
      match change
      case Keep => Ok(t)
      case Detach => Ok(SetParent(t, id, None))
      case MoveTo(parent) => Ok(SetParent(t, id, Some(parent)))
  }

  predicate HasChildren(t: Table, id: nat) {
    exists c :: c in t && t[c].parent == Some(id)
  }

  function Removing(t: Table, id: nat, services: nat, retired: nat): Result<Table, Error> {
    if HasChildren(t, id) then Err(CategoryHasChildren)
    else if id !in t then Err(CategoryNotFound)
    else if services > 0 then Ok(t[id := t[id].(active := false)])
    else if retired > 0 then Err(StillReferenced)
    else Ok(t - {id})
  }

  function Do(t: Table, e: Event): Result<Table, Error> {
    match e
    case Create(id, under) => Creating(t, id, under)
    case Update(id, change) => Updating(t, id, change)
    case Remove(id, services, retired) => Removing(t, id, services, retired)
  }

  function Step(t: Table, e: Event): Table {
    var r := Do(t, e);
    if r.Ok? then r.value else t
  }

  function Run(t: Table, events: seq<Event>): Table
    decreases |events|
  {
    if events == [] then t else Run(Step(t, events[0]), events[1..])
  }

  // ---- Going up ------------------------------------------------------------------------

  lemma {:induction false} UpAdds(t: Table, id: nat, a: nat, b: nat)
    requires Up(t, id, a).Some?
    ensures Up(t, id, a + b) == Up(t, Up(t, id, a).value, b)
    decreases b
  {
    if b > 0 { UpAdds(t, id, a, b - 1); }
  }

  lemma {:induction false} OnceEnded(t: Table, id: nat, a: nat, b: nat)
    requires Up(t, id, a).None? && a <= b
    ensures Up(t, id, b).None?
    decreases b
  {
    if a < b { OnceEnded(t, id, a, b - 1); }
  }

  /** Two tables that differ at one category agree on a walk that does not pass it. */
  lemma {:induction false} SameWalk(t: Table, t': Table, from: nat, id: nat, k: nat)
    requires t.Keys - {id} == t'.Keys - {id}
    requires forall c :: c in t && c in t' && c != id ==> t'[c].parent == t[c].parent
    requires forall j :: 0 <= j < k ==> Up(t, from, j) != Some(id)
    ensures Up(t', from, k) == Up(t, from, k)
    decreases k
  {
    if k > 0 {
      SameWalk(t, t', from, id, k - 1);
      var below := Up(t, from, k - 1);
      assert below != Some(id);
      if below.Some? {
        assert below.value in t <==> below.value in t.Keys - {id};
        assert below.value in t' <==> below.value in t'.Keys - {id};
      }
    }
  }

  /** The first place where a walk meets a category. */
  lemma {:induction false} FirstMeeting(t: Table, from: nat, id: nat, k: nat) returns (first: nat)
    requires Up(t, from, k) == Some(id)
    ensures first <= k && Up(t, from, first) == Some(id)
    ensures forall j :: 0 <= j < first ==> Up(t, from, j) != Some(id)
    decreases k
  {
    first := k;
    if j :| 0 <= j < k && Up(t, from, j) == Some(id) {
      first := FirstMeeting(t, from, id, j);
    }
  }

  ghost predicate EverMeets(t: Table, from: nat, id: nat) {
    exists k: nat :: Up(t, from, k) == Some(id)
  }

  lemma ParentReplaced(t: Table, id: nat, parent: Option<nat>)
    requires id in t
    ensures SetParent(t, id, parent).Keys - {id} == t.Keys - {id}
    ensures Up(SetParent(t, id, parent), id, 1) == parent
  {
    assert Up(SetParent(t, id, parent), id, 0) == Some(id);
  }

  /** A walk that returns to its start never ends. */
  lemma {:induction false} LoopNeverEnds(t: Table, from: nat, round: nat, m: nat)
    requires round > 0 && Up(t, from, round) == Some(from)
    ensures Up(t, from, m).Some?
    decreases m
  {
    if m >= round {
      UpAdds(t, from, round, m - round);
      LoopNeverEnds(t, from, round, m - round);
    } else if Up(t, from, m).None? {
      OnceEnded(t, from, m, round);
    }
  }

  /** Moving a category under one of its descendants closes a loop. */
  lemma MovingUnderADescendant(t: Table, id: nat, parent: nat)
    requires id in t && parent in t && EverMeets(t, parent, id)
    ensures !Acyclic(SetParent(t, id, Some(parent)))
  {
    var t' := SetParent(t, id, Some(parent));
    var k: nat :| Up(t, parent, k) == Some(id);
    var first := FirstMeeting(t, parent, id, k);
    ParentReplaced(t, id, Some(parent));
    SameWalk(t, t', parent, id, first);
    UpAdds(t', parent, first, 1);
    forall m: nat
      ensures Up(t', parent, m).Some?
    {
      LoopNeverEnds(t', parent, first + 1, m);
    }
    assert !Ends(t', parent);
  }

  /** A walk in the new table: as before up to the moved category, then on from its new parent. */
  lemma WalkStillEnds(t: Table, id: nat, parent: Option<nat>, from: nat)
    requires id in t && Ends(t, from)
    requires parent.Some? ==> Ends(t, parent.value) && !EverMeets(t, parent.value, id)
    ensures Ends(SetParent(t, id, parent), from)
  {
    var t' := SetParent(t, id, parent);
    ParentReplaced(t, id, parent);
    if EverMeets(t, from, id) {
      var k: nat :| Up(t, from, k) == Some(id);
      var first := FirstMeeting(t, from, id, k);
      SameWalk(t, t', from, id, first);
      UpAdds(t', from, first, 1);
      if parent.Some? {
        var end: nat :| Up(t, parent.value, end).None?;
        SameWalk(t, t', parent.value, id, end);
        UpAdds(t', from, first + 1, end);
      }
    } else {
      var end: nat :| Up(t, from, end).None?;
      SameWalk(t, t', from, id, end);
    }
  }

  lemma MoveIsSafe(t: Table, id: nat, parent: Option<nat>)
    requires id in t && Acyclic(t)
    requires parent.Some? ==> parent.value in t && !EverMeets(t, parent.value, id)
    ensures Acyclic(SetParent(t, id, parent))
  {
    forall c | c in SetParent(t, id, parent)
      ensures Ends(SetParent(t, id, parent), c)
    {
      WalkStillEnds(t, id, parent, c);
    }
  }

  lemma MoveKeepsClosed(t: Table, id: nat, parent: Option<nat>)
    requires id in t && Closed(t) && (parent.Some? ==> parent.value in t)
    ensures Closed(SetParent(t, id, parent))
  {
  }

  // ---- What the walk sees ----------------------------------------------------------------

  /** The failing case: the category is above its new parent, but further up than the walk goes. */
  ghost predicate Overlooks(t: Table, e: Event) {
    && e.Update? && e.change.MoveTo? && e.id in t && e.change.parent in t
    && !Meets(t, e.change.parent, e.id, WALK_LIMIT)
    && exists k: nat :: k >= WALK_LIMIT && Up(t, e.change.parent, k) == Some(e.id)
  }

  /** Such a move passes every check, and the category is above its new parent; and the other way round. */
  lemma OverlookedMeansAccepted(t: Table, e: Event)
    ensures Overlooks(t, e) <==> e.Update? && e.change.MoveTo? && Do(t, e).Ok? && EverMeets(t, e.change.parent, e.id)
  {
    if e.Update? && e.change.MoveTo? {
      assert Up(t, e.change.parent, 0) == Some(e.change.parent);
      if Do(t, e).Ok? && EverMeets(t, e.change.parent, e.id) {
        var k: nat :| Up(t, e.change.parent, k) == Some(e.id);
        assert k >= WALK_LIMIT;
      }
    }
  }

  /** The overlooked ancestor sits above the first twenty categories of the new parent's chain. */
  lemma OverlookedIsHigh(t: Table, e: Event)
    requires Overlooks(t, e)
    ensures exists k: nat :: k >= WALK_LIMIT && Up(t, e.change.parent, k) == Some(e.id)
    ensures Up(t, e.change.parent, WALK_LIMIT).Some?
  {
    var k: nat :| Up(t, e.change.parent, k) == Some(e.id);
    if Up(t, e.change.parent, WALK_LIMIT).None? { OnceEnded(t, e.change.parent, WALK_LIMIT, k); }
  }

  /** From any loop-free table an update leaves a loop exactly when the walk overlooks the category. */
  lemma UpdateIsSafeIffNotOverlooked(t: Table, id: nat, change: Change)
    requires Closed(t) && Acyclic(t)
    ensures Closed(Step(t, Update(id, change)))
    ensures Acyclic(Step(t, Update(id, change))) <==> !Overlooks(t, Update(id, change))
  {
    hide Closed, Acyclic, Meets, EverMeets, Overlooks;
    OverlookedMeansAccepted(t, Update(id, change));
    if Updating(t, id, change).Ok? {
      match change
      case Keep =>
      case Detach =>
        MoveIsSafe(t, id, None);
        MoveKeepsClosed(t, id, None);
      case MoveTo(parent) =>
        MoveKeepsClosed(t, id, Some(parent));
        if EverMeets(t, parent, id) { MovingUnderADescendant(t, id, parent); }
        else { MoveIsSafe(t, id, Some(parent)); }
    }
  }

  /** Going up from any category ends within twenty categories. */
  predicate Shallow(t: Table) {
    forall c :: c in t ==> Up(t, c, WALK_LIMIT).None?
  }

  /**
   With ancestor chains of at most twenty categories the guard is exact: a move between existing
   categories is refused as a loop if and only if it would close one.
   */
  lemma ShallowGuardIsExact(t: Table, id: nat, parent: nat)
    requires Closed(t) && Shallow(t) && id in t && parent in t
    ensures Updating(t, id, MoveTo(parent)) == Err(CategoryCycle) <==> !Acyclic(SetParent(t, id, Some(parent)))
    ensures Updating(t, id, MoveTo(parent)).Err? ==> Updating(t, id, MoveTo(parent)) == Err(CategoryCycle)
  {
    var e := Update(id, MoveTo(parent));
    assert Acyclic(t) by {
      forall c | c in t ensures Ends(t, c) { assert Up(t, c, WALK_LIMIT).None?; }
    }
    UpdateIsSafeIffNotOverlooked(t, id, MoveTo(parent));
    if Updating(t, id, MoveTo(parent)).Ok? {
      if Overlooks(t, e) { OverlookedIsHigh(t, e); }
    } else {
      assert Up(t, id, 0) == Some(id);
      MovingUnderADescendant(t, id, parent) by { assert EverMeets(t, parent, id); }
    }
  }

  // ---- Creating and removing ---------------------------------------------------------------

  /** In a closed table nothing leads to a category that is not there. */
  lemma {:induction false} NeverAbsent(t: Table, from: nat, id: nat, k: nat)
    requires Closed(t) && from != id && id !in t
    ensures Up(t, from, k) != Some(id)
    decreases k
  {
    if k > 0 { NeverAbsent(t, from, id, k - 1); }
  }

  lemma CreateKeeps(t: Table, id: nat, under: Option<nat>)
    requires Closed(t) && Acyclic(t) && Creating(t, id, under).Ok?
    ensures Closed(Creating(t, id, under).value) && Acyclic(Creating(t, id, under).value)
  {
    var t' := Creating(t, id, under).value;
    forall c | c in t
      ensures Ends(t', c)
    {
      var end: nat :| Up(t, c, end).None?;
      forall j | 0 <= j < end
        ensures Up(t, c, j) != Some(id)
      {
        NeverAbsent(t, c, id, j);
      }
      SameWalk(t, t', c, id, end);
    }
    assert Up(t', id, 0) == Some(id);
    assert Up(t', id, 1) == under;
    if under.Some? {
      var end: nat :| Up(t', under.value, end).None?;
      UpAdds(t', id, 1, end);
    }
    assert Ends(t', id);
  }

  /** A category without children is on nobody else's way up. */
  lemma {:induction false} NobodyPasses(t: Table, from: nat, id: nat, k: nat)
    requires !HasChildren(t, id) && from != id
    ensures Up(t, from, k) != Some(id)
    decreases k
  {
    if k > 0 { NobodyPasses(t, from, id, k - 1); }
  }

  lemma RemoveKeeps(t: Table, id: nat, services: nat, retired: nat)
    requires Closed(t) && Acyclic(t) && Removing(t, id, services, retired).Ok?
    ensures Closed(Removing(t, id, services, retired).value) && Acyclic(Removing(t, id, services, retired).value)
  {
    var t' := Removing(t, id, services, retired).value;
    forall c | c in t'
      ensures Ends(t', c)
    {
      var end: nat :| Up(t, c, end).None?;
      if c == id {
        SameParents(t, t', c, end);
      } else {
        forall j | 0 <= j < end
          ensures Up(t, c, j) != Some(id)
        {
          NobodyPasses(t, c, id, j);
        }
        SameWalk(t, t', c, id, end);
      }
    }
  }

  lemma {:induction false} SameParents(t: Table, t': Table, from: nat, k: nat)
    requires t.Keys == t'.Keys && forall c :: c in t ==> t'[c].parent == t[c].parent
    ensures Up(t', from, k) == Up(t, from, k)
    decreases k
  {
    if k > 0 { SameParents(t, t', from, k - 1); }
  }

  lemma StepIsSafeIffNotOverlooked(t: Table, e: Event)
    requires Closed(t) && Acyclic(t)
    ensures Closed(Step(t, e)) && (Acyclic(Step(t, e)) <==> !Overlooks(t, e))
  {
    hide Closed, Acyclic, Updating, Removing, Creating, EverMeets;
    match e
    case Create(id, under) => if Do(t, e).Ok? { CreateKeeps(t, id, under); }
    case Update(id, change) => UpdateIsSafeIffNotOverlooked(t, id, change);
    case Remove(id, services, retired) => if Do(t, e).Ok? { RemoveKeeps(t, id, services, retired); }
  }

  /** Every table along the run is free of loops. */
  ghost predicate StaysAcyclic(t: Table, events: seq<Event>)
    decreases |events|
  {
    Acyclic(t) && (events == [] || StaysAcyclic(Step(t, events[0]), events[1..]))
  }

  ghost predicate NeverOverlooks(t: Table, events: seq<Event>)
    decreases |events|
  {
    events == [] || (!Overlooks(t, events[0]) && NeverOverlooks(Step(t, events[0]), events[1..]))
  }

  /** A run of creates, updates and removals stays free of loops exactly when no walk overlooks its category. */
  lemma {:induction false} RunIsSafeIffNeverOverlooked(t: Table, events: seq<Event>)
    requires Closed(t) && Acyclic(t)
    ensures StaysAcyclic(t, events) <==> NeverOverlooks(t, events)
    decreases |events|
  {
    hide Closed, Acyclic, Overlooks, Step;
    if events != [] {
      StepIsSafeIffNotOverlooked(t, events[0]);
      if !Overlooks(t, events[0]) { RunIsSafeIffNeverOverlooked(Step(t, events[0]), events[1..]); }
    }
  }

  // ---- The loop that gets through ------------------------------------------------------------

  /** Categories 0 to n - 1, each under the one before. */
  function Tower(n: nat): (t: Table)
    ensures forall id :: id in t <==> 0 <= id < n
    ensures forall id :: id in t ==> t[id] == Floor(id)
  {
    if n == 0 then map[] else Tower(n - 1)[n - 1 := Floor(n - 1)]
  }

  function Floor(id: nat): Category {
    Category(Below(id), true)
  }

  function Below(id: nat): Option<nat> {
    if id == 0 then None else Some(id - 1)
  }

  function Floors(n: nat, top: nat): seq<Event>
    requires n <= top
    decreases top - n
  {
    if n == top then [] else [Create(n, Below(n))] + Floors(n + 1, top)
  }

  lemma OneMoreFloor(n: nat)
    ensures Step(Tower(n), Create(n, Below(n))) == Tower(n + 1)
  {
  }

  lemma NoFloors(n: nat)
    ensures Floors(n, n) == []
  {
  }

  lemma FirstFloor(n: nat, top: nat)
    requires n < top
    ensures Floors(n, top) == [Create(n, Below(n))] + Floors(n + 1, top)
  {
  }

  lemma RunStep(t: Table, events: seq<Event>)
    requires events != []
    ensures Run(t, events) == Run(Step(t, events[0]), events[1..])
  {
  }

  lemma {:induction false} TowerRises(n: nat, top: nat, more: seq<Event>)
    requires n <= top
    ensures Run(Tower(n), Floors(n, top) + more) == Run(Tower(top), more)
    decreases top - n
  {
    hide *;
    if n == top {
      NoFloors(n);
      assert Floors(n, top) + more == more;
    } else {
      var events := Floors(n, top) + more;
      FirstFloor(n, top);
      assert events[0] == Create(n, Below(n)) && events[1..] == Floors(n + 1, top) + more;
      RunStep(Tower(n), events);
      OneMoreFloor(n);
      TowerRises(n + 1, top, more);
    }
  }

  lemma {:induction false} UpTheTower(n: nat, id: nat, k: nat)
    requires id < n && k <= id
    ensures Up(Tower(n), id, k) == Some(id - k)
    decreases k
  {
    if k > 0 { UpTheTower(n, id, k - 1); }
  }

  /** From the top of a tall tower the walk stops just short of the bottom. */
  lemma TopOverlooksBottom(n: nat)
    requires n == WALK_LIMIT + 1
    ensures Overlooks(Tower(n), Update(0, MoveTo(WALK_LIMIT)))
  {
    hide Tower;
    forall k | 0 <= k < WALK_LIMIT
      ensures Up(Tower(n), WALK_LIMIT, k) != Some(0)
    {
      UpTheTower(n, WALK_LIMIT, k);
    }
    UpTheTower(n, WALK_LIMIT, WALK_LIMIT);
    assert 0 in Tower(n) && WALK_LIMIT in Tower(n) by { TowerHolds(n); }
  }

  lemma TowerHolds(n: nat)
    ensures forall id: nat :: id < n ==> id in Tower(n)
  {
  }

  lemma EmptyIsSound()
    ensures Tower(0) == map[] && Closed(map[]) && Acyclic(map[])
  {
  }

  lemma CreateNeverOverlooks(t: Table, id: nat, under: Option<nat>)
    ensures !Overlooks(t, Create(id, under))
  {
  }

  lemma {:induction false} TowerIsSound(n: nat)
    ensures Closed(Tower(n)) && Acyclic(Tower(n))
  {
    hide *;
    EmptyIsSound();
    if n > 0 {
      TowerIsSound(n - 1);
      OneMoreFloor(n - 1);
      CreateNeverOverlooks(Tower(n - 1), n - 1, Below(n - 1));
      StepIsSafeIffNotOverlooked(Tower(n - 1), Create(n - 1, Below(n - 1)));
    }
  }

  lemma OneStep(t: Table, e: Event)
    ensures Run(t, []) == t && Run(t, [e]) == Step(t, e)
  {
  }

  /** Twenty-one creates, each under the last, and one accepted move: a loop. */
  lemma TallTowerLoops()
    ensures var move := Update(0, MoveTo(WALK_LIMIT));
      && Overlooks(Run(map[], Floors(0, WALK_LIMIT + 1)), move)
      && !Acyclic(Run(map[], Floors(0, WALK_LIMIT + 1) + [move]))
  {
    hide *;
    var n := WALK_LIMIT + 1;
    var move := Update(0, MoveTo(WALK_LIMIT));
    EmptyIsSound();
    OneStep(Tower(n), move);
    TowerRises(0, n, []);
    assert Floors(0, n) + [] == Floors(0, n);
    TowerRises(0, n, [move]);
    TopOverlooksBottom(n);
    TowerIsSound(n);
    StepIsSafeIffNotOverlooked(Tower(n), move);
  }

  // ---- The service ------------------------------------------------------------------------

  /** The category is one of the first twenty on the way up from the new parent. */
  predicate NearAbove(t: Table, from: nat, id: nat) {
    exists k: nat :: k < 20 && Up(t, from, k) == Some(id)
  }

  /** When an update is refused, and as what; and what an accepted one leaves. */
  lemma UpdateAnswers(t: Table, id: nat, change: Change)
    ensures var r := Updating(t, id, change);
      && (r == Err(CategoryCycle) <==>
            change.MoveTo? && (change.parent == id || (change.parent in t && NearAbove(t, change.parent, id))))
      && (r == Err(ParentNotFound) <==> change.MoveTo? && change.parent != id && change.parent !in t)
      && (r.Ok? <==>
            id in t && (change.MoveTo? ==> change.parent != id && change.parent in t && !NearAbove(t, change.parent, id)))
      && (r.Ok? ==>
            && r.value.Keys == t.Keys
            && (forall c :: c in t && c != id ==> r.value[c] == t[c])
            && r.value[id].active == t[id].active
            && r.value[id].parent == match change
                                     case Keep => t[id].parent
                                     case Detach => None
                                     case MoveTo(parent) => Some(parent))
  {
    if change.MoveTo? {
      if Meets(t, change.parent, id, WALK_LIMIT) {
        var k :| 0 <= k < WALK_LIMIT && Up(t, change.parent, k) == Some(id);
        assert NearAbove(t, change.parent, id);
      }
      hide Up;
    }
  }

  class CategoriesService {
    var rows: Table

    constructor (rows: Table)
      ensures this.rows == rows
    {
      this.rows := rows;
    }

    /** Walks up from the proposed parent; finds a loop exactly when the walk meets the category in time. */
    method AssertNoCycle(id: nat, parentId: nat) returns (error: Option<Error>)
      ensures error == if Meets(rows, parentId, id, WALK_LIMIT) then Some(CategoryCycle) else None
    {
      var cursor := Some(parentId);
      var depth := 0;
      while cursor.Some? && depth < WALK_LIMIT
        invariant 0 <= depth <= WALK_LIMIT && cursor == Up(rows, parentId, depth)
        invariant forall k :: 0 <= k < depth ==> Up(rows, parentId, k) != Some(id)
      {
        if cursor.value == id { return Some(CategoryCycle); }
        cursor := if cursor.value in rows then rows[cursor.value].parent else None;
        depth := depth + 1;
      }
      if cursor.None? {
        forall k | depth <= k < WALK_LIMIT
          ensures Up(rows, parentId, k).None?
        {
          OnceEnded(rows, parentId, depth, k);
        }
      }
      error := None;
    }

    method AssertParentExists(parentId: Option<nat>) returns (error: Option<Error>)
      ensures error == if parentId.Some? && parentId.value !in rows then Some(ParentNotFound) else None
    {
      error := if parentId.Some? && parentId.value !in rows then Some(ParentNotFound) else None;
    }

    method Create(id: nat, under: Option<nat>) returns (error: Option<Error>)
      modifies this
      ensures var r := Creating(old(rows), id, under);
        if r.Ok? then error.None? && rows == r.value else error == Some(r.error) && rows == old(rows)
      ensures error.None? <==> id !in old(rows) && (under.Some? ==> under.value in old(rows))
      ensures error.None? ==> rows == old(rows)[id := Category(under, true)]
      ensures Closed(old(rows)) && Acyclic(old(rows)) ==> Closed(rows) && Acyclic(rows)
    {
      error := AssertParentExists(under);
      if error.Some? { return; }
      if id in rows { return Some(DuplicateCategory); }
      if Closed(rows) && Acyclic(rows) { CreateKeeps(rows, id, under); }
      rows := rows[id := Category(under, true)];
    }

    method Update(id: nat, change: Change) returns (error: Option<Error>)
      modifies this
      ensures var r := Updating(old(rows), id, change);
        if r.Ok? then error.None? && rows == r.value else error == Some(r.error) && rows == old(rows)
      ensures error == Some(CategoryCycle) <==>
                change.MoveTo? && (change.parent == id || (change.parent in old(rows) && NearAbove(old(rows), change.parent, id)))
      ensures error == Some(ParentNotFound) <==> change.MoveTo? && change.parent != id && change.parent !in old(rows)
      ensures error.None? <==>
                && id in old(rows)
                && (change.MoveTo? ==>
                      change.parent != id && change.parent in old(rows) && !NearAbove(old(rows), change.parent, id))
      ensures error.None? ==>
                && rows.Keys == old(rows).Keys
                && (forall c :: c in rows && c != id ==> rows[c] == old(rows)[c])
                && rows[id].active == old(rows)[id].active
                && rows[id].parent == match change
                                      case Keep => old(rows)[id].parent
                                      case Detach => None
                                      case MoveTo(parent) => Some(parent)
    {
      UpdateAnswers(rows, id, change);
      hide NearAbove;
      if change == MoveTo(id) { return Some(CategoryCycle); }
      if change.MoveTo? {
        error := AssertParentExists(Some(change.parent));
        if error.Some? { return; }
        error := AssertNoCycle(id, change.parent);
        if error.Some? { return; }
      }
      if id !in rows { return Some(CategoryNotFound); }
      error := None;
      match change
      case Keep =>
      case Detach => rows := rows[id := rows[id].(parent := None)];
      case MoveTo(parent) => rows := rows[id := rows[id].(parent := Some(parent))];
    }

    method Remove(id: nat, services: nat, retired: nat) returns (r: Result<bool, Error>)
      modifies this
      ensures var after := Removing(old(rows), id, services, retired);
        if after.Ok? then r == Ok(services > 0) && rows == after.value else r == Err(after.error) && rows == old(rows)
      ensures r == Err(CategoryHasChildren) <==> exists c :: c in old(rows) && old(rows)[c].parent == Some(id)
      ensures r.Ok? <==>
                && (forall c :: c in old(rows) ==> old(rows)[c].parent != Some(id))
                && id in old(rows) && (services > 0 || retired == 0)
      ensures r == Ok(true) ==> services > 0 && rows == old(rows)[id := old(rows)[id].(active := false)]
      ensures r == Ok(false) ==> services == 0 && rows == old(rows) - {id}
    {
      var children := set c | c in rows && rows[c].parent == Some(id);
      if children != {} {
        var c :| c in children;
        return Err(CategoryHasChildren);
      }
      assert forall c :: c in rows ==> c !in children;
      if id !in rows { return Err(CategoryNotFound); }
      if services > 0 {
        rows := rows[id := rows[id].(active := false)];
        return Ok(true);
      }
      if retired > 0 { return Err(StillReferenced); }
      rows := rows - {id};
      r := Ok(false);
    }
  }
}
