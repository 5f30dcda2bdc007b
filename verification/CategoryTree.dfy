/**
 From flat category rows to a forest: every node goes onto the list of its parent, or onto
 the list of roots when its parent is null or not among the rows.
 */
module CategoryTree {
  import opened Common
  import Categories

  datatype Row = Row(id: nat, parent: Option<nat>)

  predicate Distinct(rows: seq<Row>) {
    forall i, j :: 0 <= i < j < |rows| ==> rows[i].id != rows[j].id
  }

  predicate Has(rows: seq<Row>, id: nat) {
    exists i :: 0 <= i < |rows| && rows[i].id == id
  }

  /** The children of a category, in input order. */
  function ChildrenOf(rows: seq<Row>, id: nat): seq<nat> {
    if rows == [] then []
    else
      var last := rows[|rows| - 1];
      ChildrenOf(rows[..|rows| - 1], id) + if last.parent == Some(id) then [last.id] else []
  }

  /** Rows of `part` whose parent is null or not in `all`, in input order. */
  function RootsOf(part: seq<Row>, all: seq<Row>): seq<nat> {
    if part == [] then []
    else
      var last := part[|part| - 1];
      RootsOf(part[..|part| - 1], all)
      + if last.parent.None? || !Has(all, last.parent.value) then [last.id] else []
  }

  class Node {
    const id: nat
    const parentId: Option<nat>
    var children: seq<Node>

    constructor (row: Row)
      ensures id == row.id && parentId == row.parent && children == []
    {
      id, parentId, children := row.id, row.parent, [];
    }
  }

  function Ids(nodes: seq<Node>): (ids: seq<nat>)
    ensures |ids| == |nodes| && forall i :: 0 <= i < |nodes| ==> ids[i] == nodes[i].id
  {
    seq(|nodes|, i requires 0 <= i < |nodes| => nodes[i].id)
  }

  ghost predicate Indexes(byId: map<nat, Node>, rows: seq<Row>) {
    && (forall id :: id in byId <==> Has(rows, id))
    && (forall id :: id in byId ==> byId[id].id == id)
    && (forall i :: 0 <= i < |rows| && rows[i].id in byId ==> byId[rows[i].id].parentId == rows[i].parent)
  }

  /** Listed nodes are the ones in the index. */
  ghost predicate FromIndex(byId: map<nat, Node>, nodes: seq<Node>) {
    forall i :: 0 <= i < |nodes| ==> nodes[i].id in byId && nodes[i] == byId[nodes[i].id]
  }

  method IndexRows(rows: seq<Row>) returns (byId: map<nat, Node>)
    requires Distinct(rows)
    ensures Indexes(byId, rows)
    ensures forall id :: id in byId ==> fresh(byId[id]) && byId[id].children == []
  {
    byId := map[];
    for i := 0 to |rows|
      invariant forall id :: id in byId <==> Has(rows[..i], id)
      invariant forall id :: id in byId ==> byId[id].id == id && fresh(byId[id]) && byId[id].children == []
      invariant forall k :: 0 <= k < i ==> rows[k].id in byId && byId[rows[k].id].parentId == rows[k].parent
    {
      var node := new Node(rows[i]);
      byId := byId[rows[i].id := node];
      HasOneMore(rows, i);
    }
    assert rows[..|rows|] == rows;
  }

  lemma HasOneMore(rows: seq<Row>, i: nat)
    requires i < |rows|
    ensures forall id :: Has(rows[..i + 1], id) <==> Has(rows[..i], id) || id == rows[i].id
  {
    var shorter, longer := rows[..i], rows[..i + 1];
    forall id
      ensures Has(longer, id) <==> Has(shorter, id) || id == rows[i].id
    {
      if Has(shorter, id) {
        var k :| 0 <= k < |shorter| && shorter[k].id == id;
        assert longer[k].id == id;
      }
      if id == rows[i].id { assert longer[i].id == id; }
      if Has(longer, id) {
        var k :| 0 <= k < |longer| && longer[k].id == id;
        if k < i { assert shorter[k].id == id; }
      }
    }
  }

  lemma OneMoreRow(rows: seq<Row>, i: nat)
    requires i < |rows|
    ensures var r := rows[i];
      && (forall id: nat :: ChildrenOf(rows[..i + 1], id) == ChildrenOf(rows[..i], id) + if r.parent == Some(id) then [r.id] else [])
      && RootsOf(rows[..i + 1], rows)
         == RootsOf(rows[..i], rows) + if r.parent.None? || !Has(rows, r.parent.value) then [r.id] else []
  {
    assert rows[..i + 1][..i] == rows[..i];
  }

  /** These nodes stand for these identifiers, in this order. */
  ghost predicate Stands(byId: map<nat, Node>, nodes: seq<Node>, ids: seq<nat>) {
    Ids(nodes) == ids && FromIndex(byId, nodes)
  }

  lemma StandsFor(byId: map<nat, Node>, nodes: seq<Node>, ids: seq<nat>, id: nat)
    requires Stands(byId, nodes, ids) && id in byId && byId[id].id == id
    ensures Stands(byId, nodes + [byId[id]], ids + [id])
  {
  }

  method Hang(byId: map<nat, Node>, parent: Node, node: Node)
    requires forall id :: id in byId ==> byId[id].id == id
    requires parent.id in byId && parent == byId[parent.id]
    modifies parent`children
    ensures parent.children == old(parent.children) + [node]
    ensures forall id :: id in byId && id != parent.id ==> byId[id].children == old(byId[id].children)
  {
    parent.children := parent.children + [node];
  }

  /** One pass over the nodes hangs each under its parent. */
  method BuildTree(rows: seq<Row>) returns (roots: seq<Node>, byId: map<nat, Node>)
    requires Distinct(rows)
    ensures Indexes(byId, rows) && forall id :: id in byId ==> fresh(byId[id])
    ensures Stands(byId, roots, RootsOf(rows, rows))
    ensures forall id :: id in byId ==> Stands(byId, byId[id].children, ChildrenOf(rows, id))
  {
    byId := IndexRows(rows);
    roots := [];
    for i := 0 to |rows|
      invariant Stands(byId, roots, RootsOf(rows[..i], rows))
      invariant forall id :: id in byId ==> Stands(byId, byId[id].children, ChildrenOf(rows[..i], id))
    {
      OneMoreRow(rows, i);
      assert Has(rows, rows[i].id);
      var node := byId[rows[i].id];
      hide ChildrenOf, RootsOf, Has, Stands;
      if node.parentId.Some? && node.parentId.value in byId {
        var parent := byId[node.parentId.value];
        StandsFor(byId, parent.children, ChildrenOf(rows[..i], parent.id), node.id);
        Hang(byId, parent, node);
      } else {
        StandsFor(byId, roots, RootsOf(rows[..i], rows), node.id);
        roots := roots + [node];
      }
    }
    assert rows[..|rows|] == rows;
  }

  // ---- The forest holds every row once ------------------------------------------------

  /** The parent of a row, if it has one among the rows. */
  function PresentParent(rows: seq<Row>, all: seq<Row>, id: nat): Option<nat> {
    if rows == [] then None
    else
      var last := rows[|rows| - 1];
      if last.id != id then PresentParent(rows[..|rows| - 1], all, id)
      else if last.parent.Some? && Has(all, last.parent.value) then last.parent
      else None
  }

  /** The ancestor `k` steps up among the rows. */
  function Ancestor(rows: seq<Row>, id: nat, k: nat): Option<nat> {
    if k == 0 then Some(id)
    else
      var below := Ancestor(rows, id, k - 1);
      if below.None? then None else PresentParent(rows, rows, below.value)
  }

  /** What a reader of the forest sees: each node, then its children, down to a depth. */
  function Walk(rows: seq<Row>, ids: seq<nat>, depth: nat): seq<nat>
    decreases depth, |ids|
  {
    if depth == 0 || ids == [] then []
    else [ids[0]] + Walk(rows, ChildrenOf(rows, ids[0]), depth - 1) + Walk(rows, ids[1..], depth)
  }

  function Times(ids: seq<nat>, x: Option<nat>): nat {
    if x.None? then 0 else multiset(ids)[x.value]
  }

  /** How often a row or one of its nearest `depth` ancestors is listed. */
  function Listed(rows: seq<Row>, ids: seq<nat>, x: nat, depth: nat): nat {
    if depth == 0 then 0 else Listed(rows, ids, x, depth - 1) + Times(ids, Ancestor(rows, x, depth - 1))
  }

  predicate AllPresent(rows: seq<Row>, ids: seq<nat>) {
    forall i :: 0 <= i < |ids| ==> Has(rows, ids[i])
  }

  lemma {:induction false} ParentOfRow(part: seq<Row>, all: seq<Row>, i: nat)
    requires Distinct(part) && i < |part|
    ensures PresentParent(part, all, part[i].id) ==
            if part[i].parent.Some? && Has(all, part[i].parent.value) then part[i].parent else None
  {
    if i < |part| - 1 { ParentOfRow(part[..|part| - 1], all, i); }
  }

  lemma CountOfSum(a: seq<nat>, b: seq<nat>, x: nat)
    ensures multiset(a + b)[x] == multiset(a)[x] + multiset(b)[x]
  {
  }

  lemma LastIsNew(rows: seq<Row>)
    requires Distinct(rows) && rows != []
    ensures Distinct(rows[..|rows| - 1]) && !Has(rows[..|rows| - 1], rows[|rows| - 1].id)
  {
  }

  lemma {:induction false} NotListed(part: seq<Row>, all: seq<Row>, id: nat, x: nat)
    requires !Has(part, x)
    ensures multiset(ChildrenOf(part, id))[x] == 0 && multiset(RootsOf(part, all))[x] == 0
  {
    if part != [] {
      var n := |part| - 1;
      assert part[..n + 1] == part;
      HasOneMore(part, n);
      hide Has;
      NotListed(part[..n], all, id, x);
    }
  }

  lemma {:induction false} UnderItsParentOnce(part: seq<Row>, id: nat, i: nat)
    requires Distinct(part) && i < |part|
    ensures multiset(ChildrenOf(part, id))[part[i].id] == if part[i].parent == Some(id) then 1 else 0
  {
    var n := |part| - 1;
    var rest, last := part[..n], part[n];
    LastIsNew(part);
    CountOfSum(ChildrenOf(rest, id), if last.parent == Some(id) then [last.id] else [], part[i].id);
    if i < n {
      assert rest[i] == part[i];
      UnderItsParentOnce(rest, id, i);
    } else {
      NotListed(rest, rest, id, last.id);
    }
  }

  lemma {:induction false} AmongRootsOnce(part: seq<Row>, all: seq<Row>, i: nat)
    requires Distinct(part) && i < |part|
    ensures multiset(RootsOf(part, all))[part[i].id] ==
            if part[i].parent.None? || !Has(all, part[i].parent.value) then 1 else 0
  {
    var n := |part| - 1;
    var rest, last := part[..n], part[n];
    LastIsNew(part);
    CountOfSum(RootsOf(rest, all), if last.parent.None? || !Has(all, last.parent.value) then [last.id] else [], part[i].id);
    if i < n {
      assert rest[i] == part[i];
      AmongRootsOnce(rest, all, i);
    } else {
      NotListed(rest, all, 0, last.id);
    }
    hide Has;
  }

  lemma {:induction false} ListsArePresent(part: seq<Row>, all: seq<Row>, id: nat)
    requires forall i :: 0 <= i < |part| ==> Has(all, part[i].id)
    ensures AllPresent(all, ChildrenOf(part, id)) && AllPresent(all, RootsOf(part, all))
  {
    if part != [] {
      var n := |part| - 1;
      assert forall i :: 0 <= i < n ==> part[..n][i] == part[i];
      ListsArePresent(part[..n], all, id);
    }
  }

  lemma {:induction false} AncestorsArePresent(rows: seq<Row>, x: nat, k: nat)
    requires Has(rows, x) && Ancestor(rows, x, k).Some?
    ensures Has(rows, Ancestor(rows, x, k).value)
  {
    if k > 0 { ParentIsPresent(rows, rows, Ancestor(rows, x, k - 1).value); }
  }

  lemma {:induction false} ParentIsPresent(part: seq<Row>, all: seq<Row>, id: nat)
    ensures PresentParent(part, all, id).Some? ==> Has(all, PresentParent(part, all, id).value)
  {
    if part != [] { ParentIsPresent(part[..|part| - 1], all, id); }
  }

  /** Being listed under `y` is having `y` one step further up. */
  lemma ListedUnder(rows: seq<Row>, x: nat, y: nat, k: nat)
    requires Distinct(rows) && Has(rows, x) && Has(rows, y)
    ensures Times(ChildrenOf(rows, y), Ancestor(rows, x, k)) == if Ancestor(rows, x, k + 1) == Some(y) then 1 else 0
  {
    var a := Ancestor(rows, x, k);
    if a.Some? {
      AncestorsArePresent(rows, x, k);
      var i :| 0 <= i < |rows| && rows[i].id == a.value;
      UnderItsParentOnce(rows, y, i);
      ParentOfRow(rows, rows, i);
    }
  }

  lemma {:induction false} OneLevelDown(rows: seq<Row>, x: nat, y: nat, depth: nat)
    requires Distinct(rows) && Has(rows, x) && Has(rows, y)
    ensures (if x == y then 1 else 0) + Listed(rows, ChildrenOf(rows, y), x, depth) == Listed(rows, [y], x, depth + 1)
  {
    hide Ancestor, ChildrenOf, Has, Distinct;
    if depth == 0 {
      assert Ancestor(rows, x, 0) == Some(x) by { AtSelf(rows, x); }
      assert Listed(rows, [y], x, 0) == 0;
      assert Times([y], Some(x)) == if x == y then 1 else 0;
    } else {
      OneLevelDown(rows, x, y, depth - 1);
      ListedUnder(rows, x, y, depth - 1);
      assert Times([y], Ancestor(rows, x, depth)) == if Ancestor(rows, x, depth) == Some(y) then 1 else 0;
    }
  }

  lemma AtSelf(rows: seq<Row>, x: nat)
    ensures Ancestor(rows, x, 0) == Some(x)
  {
  }

  lemma {:induction false} ListedAdds(rows: seq<Row>, a: seq<nat>, b: seq<nat>, x: nat, depth: nat)
    ensures Listed(rows, a + b, x, depth) == Listed(rows, a, x, depth) + Listed(rows, b, x, depth)
  {
    hide Ancestor;
    if depth > 0 { ListedAdds(rows, a, b, x, depth - 1); }
  }

  lemma {:induction false} NothingListed(rows: seq<Row>, x: nat, depth: nat)
    ensures Listed(rows, [], x, depth) == 0
  {
    hide Ancestor;
    if depth > 0 { NothingListed(rows, x, depth - 1); }
  }

  lemma WalkCount(rows: seq<Row>, ids: seq<nat>, x: nat, depth: nat)
    requires ids != [] && depth > 0
    ensures multiset(Walk(rows, ids, depth))[x] ==
            (if ids[0] == x then 1 else 0)
            + multiset(Walk(rows, ChildrenOf(rows, ids[0]), depth - 1))[x] + multiset(Walk(rows, ids[1..], depth))[x]
  {
    hide ChildrenOf;
    var below, beside := Walk(rows, ChildrenOf(rows, ids[0]), depth - 1), Walk(rows, ids[1..], depth);
    CountOfSum([ids[0]] + below, beside, x);
    CountOfSum([ids[0]], below, x);
  }

  lemma HeadAndTailPresent(rows: seq<Row>, ids: seq<nat>)
    requires AllPresent(rows, ids) && ids != []
    ensures Has(rows, ids[0]) && AllPresent(rows, ids[1..]) && ids == [ids[0]] + ids[1..]
    ensures AllPresent(rows, ChildrenOf(rows, ids[0]))
  {
    ListsArePresent(rows, rows, ids[0]);
  }

  lemma NothingAtDepthZero(rows: seq<Row>, ids: seq<nat>, x: nat)
    ensures multiset(Walk(rows, ids, 0))[x] == Listed(rows, ids, x, 0) == 0
  {
  }

  /** A row is met below a list as often as the list holds it or one of its ancestors within the depth. */
  lemma {:induction false} MetAsOftenAsListed(rows: seq<Row>, ids: seq<nat>, x: nat, depth: nat)
    requires Distinct(rows) && Has(rows, x) && AllPresent(rows, ids)
    ensures multiset(Walk(rows, ids, depth))[x] == Listed(rows, ids, x, depth)
    decreases depth, |ids|
  {
    hide *;
    if depth == 0 {
      NothingAtDepthZero(rows, ids, x);
    } else if ids == [] {
      NothingListed(rows, x, depth);
      assert Walk(rows, [], depth) == [] by { EmptyWalk(rows, depth); }
    } else {
      HeadAndTailPresent(rows, ids);
      var y, rest := ids[0], ids[1..];
      MetAsOftenAsListed(rows, ChildrenOf(rows, y), x, depth - 1);
      MetAsOftenAsListed(rows, rest, x, depth);
      OneLevelDown(rows, x, y, depth - 1);
      ListedAdds(rows, [y], rest, x, depth);
      WalkCount(rows, ids, x, depth);
    }
  }

  lemma EmptyWalk(rows: seq<Row>, depth: nat)
    ensures Walk(rows, [], depth) == []
  {
  }

  /** The one root above a row, met exactly when the row's ancestors end within the depth. */
  lemma {:induction false} OneRootAbove(rows: seq<Row>, x: nat, depth: nat)
    requires Distinct(rows) && Has(rows, x)
    ensures Listed(rows, RootsOf(rows, rows), x, depth) == if Ancestor(rows, x, depth).None? then 1 else 0
  {
    if depth > 0 {
      OneRootAbove(rows, x, depth - 1);
      var a := Ancestor(rows, x, depth - 1);
      if a.Some? {
        AncestorsArePresent(rows, x, depth - 1);
        var i :| 0 <= i < |rows| && rows[i].id == a.value;
        AmongRootsOnce(rows, rows, i);
        ParentOfRow(rows, rows, i);
      }
    }
  }

  /**
   Reading the forest from its roots meets a row exactly once when its ancestors end, and
   never when they do not: rows on a loop, and everything below one, disappear.
   */
  lemma MetOnceOrNever(rows: seq<Row>, x: nat, depth: nat)
    requires Distinct(rows) && Has(rows, x)
    ensures multiset(Walk(rows, RootsOf(rows, rows), depth))[x] == if Ancestor(rows, x, depth).None? then 1 else 0
  {
    ListsArePresent(rows, rows, 0);
    hide Walk, Listed, Ancestor, RootsOf;
    MetAsOftenAsListed(rows, RootsOf(rows, rows), x, depth);
    OneRootAbove(rows, x, depth);
  }

  // ---- On a table without loops ---------------------------------------------------------

  /** Some or all categories of the table, each with its parent, in any order. */
  predicate Selects(rows: seq<Row>, t: Categories.Table) {
    Distinct(rows) && forall i :: 0 <= i < |rows| ==> rows[i].id in t && rows[i].parent == t[rows[i].id].parent
  }

  /** The chain among the selected rows is the table's own, cut short where a parent is missing. */
  lemma {:induction false} ChainIsCutShort(rows: seq<Row>, t: Categories.Table, x: nat, k: nat)
    requires Selects(rows, t) && Has(rows, x)
    ensures Ancestor(rows, x, k).Some? ==> Ancestor(rows, x, k) == Categories.Up(t, x, k)
  {
    if k > 0 && Ancestor(rows, x, k - 1).Some? {
      ChainIsCutShort(rows, t, x, k - 1);
      AncestorsArePresent(rows, x, k - 1);
      var i :| 0 <= i < |rows| && rows[i].id == Ancestor(rows, x, k - 1).value;
      ParentOfRow(rows, rows, i);
    }
  }

  lemma {:induction false} StaysEnded(rows: seq<Row>, x: nat, k: nat, m: nat)
    requires Ancestor(rows, x, k).None? && k <= m
    ensures Ancestor(rows, x, m).None?
    decreases m
  {
    if k < m { StaysEnded(rows, x, k, m - 1); }
  }

  /** A depth below which no chain of the first `n` rows reaches. */
  lemma {:induction false} DeepEnough(rows: seq<Row>, t: Categories.Table, n: nat) returns (depth: nat)
    requires Selects(rows, t) && Categories.Acyclic(t) && n <= |rows|
    ensures forall i, d: nat :: 0 <= i < n && depth <= d ==> Ancestor(rows, rows[i].id, d).None?
  {
    if n == 0 { return 0; }
    var shallower := DeepEnough(rows, t, n - 1);
    var x := rows[n - 1].id;
    assert Categories.Ends(t, x);
    var k: nat :| Categories.Up(t, x, k).None?;
    assert Has(rows, x);
    ChainIsCutShort(rows, t, x, k);
    depth := if shallower < k then k else shallower;
    forall d: nat | depth <= d
      ensures Ancestor(rows, x, d).None?
    {
      StaysEnded(rows, x, k, d);
    }
  }

  function RowIds(rows: seq<Row>): (ids: seq<nat>)
    ensures |ids| == |rows| && forall i :: 0 <= i < |rows| ==> ids[i] == rows[i].id
  {
    seq(|rows|, i requires 0 <= i < |rows| => rows[i].id)
  }

  lemma {:induction false} IdTimes(rows: seq<Row>, x: nat)
    requires Distinct(rows)
    ensures multiset(RowIds(rows))[x] == if Has(rows, x) then 1 else 0
  {
    if rows != [] {
      var n := |rows| - 1;
      IdTimes(rows[..n], x);
      assert RowIds(rows) == RowIds(rows[..n]) + [rows[n].id];
      CountOfSum(RowIds(rows[..n]), [rows[n].id], x);
      assert rows == rows[..n + 1];
      HasOneMore(rows, n);
      LastIsNew(rows);
    }
  }

  lemma {:induction false} WalkMeetsOnlyRows(rows: seq<Row>, ids: seq<nat>, depth: nat)
    requires AllPresent(rows, ids)
    ensures AllPresent(rows, Walk(rows, ids, depth))
    decreases depth, |ids|
  {
    if depth > 0 && ids != [] {
      ListsArePresent(rows, rows, ids[0]);
      hide Has, ChildrenOf;
      WalkMeetsOnlyRows(rows, ChildrenOf(rows, ids[0]), depth - 1);
      WalkMeetsOnlyRows(rows, ids[1..], depth);
    }
  }

  /** Reading deep enough meets every identifier as often as the rows hold it. */
  lemma MetAsHeld(rows: seq<Row>, x: nat, depth: nat)
    requires Distinct(rows) && (Has(rows, x) ==> Ancestor(rows, x, depth).None?)
    ensures multiset(Walk(rows, RootsOf(rows, rows), depth))[x] == multiset(RowIds(rows))[x]
  {
    ListsArePresent(rows, rows, 0);
    hide Walk, RootsOf, Ancestor, RowIds, Distinct;
    IdTimes(rows, x);
    if Has(rows, x) {
      MetOnceOrNever(rows, x, depth);
    } else {
      var seen := Walk(rows, RootsOf(rows, rows), depth);
      WalkMeetsOnlyRows(rows, RootsOf(rows, rows), depth);
      assert forall k :: 0 <= k < |seen| ==> seen[k] != x;
    }
  }

  lemma SameCounts(a: seq<nat>, b: seq<nat>)
    requires forall x: nat :: multiset(a)[x] == multiset(b)[x]
    ensures multiset(a) == multiset(b)
  {
  }

  /**
   On a table without loops, whatever rows are selected and in whatever order: the forest
   holds each selected row exactly once.
   */
  lemma ForestHoldsEachRowOnce(rows: seq<Row>, t: Categories.Table) returns (depth: nat)
    requires Selects(rows, t) && Categories.Acyclic(t)
    ensures forall d: nat :: depth <= d ==> multiset(Walk(rows, RootsOf(rows, rows), d)) == multiset(RowIds(rows))
  {
    depth := DeepEnough(rows, t, |rows|);
    hide Walk, RootsOf, Ancestor, RowIds, Distinct;
    forall d: nat | depth <= d
      ensures multiset(Walk(rows, RootsOf(rows, rows), d)) == multiset(RowIds(rows))
    {
      forall x: nat
        ensures multiset(Walk(rows, RootsOf(rows, rows), d))[x] == multiset(RowIds(rows))[x]
      {
        MetAsHeld(rows, x, d);
      }
      SameCounts(Walk(rows, RootsOf(rows, rows), d), RowIds(rows));
    }
  }
}
