/**
 The cache key of a listing: the query with its empty fields dropped, as pairs in key
 order. Hashing and JSON encoding are taken to keep different pairs apart.
 */
module ListKeys {
  import opened Common

  datatype Value = Undefined | Null | Text(text: string) | Number(number: int) | Flag(flag: bool)

  datatype Pair = Pair(key: string, value: Value)

  /** An object literal: its properties in the order they were given, each once. */
  type Query = seq<Pair>

  predicate DistinctKeys(q: Query) {
    forall i, j :: 0 <= i < j < |q| ==> q[i].key != q[j].key
  }

  predicate Counts(v: Value) {
    v != Undefined && v != Text("")
  }

  /** Strings in the order of their characters, a prefix first. */
  predicate Before(a: string, b: string) {
    if b == "" then false
    else if a == "" then true
    else a[0] < b[0] || (a[0] == b[0] && Before(a[1..], b[1..]))
  }

  function Insert(p: Pair, sorted: seq<Pair>): seq<Pair> {
    if sorted == [] || Before(p.key, sorted[0].key) then [p] + sorted
    else [sorted[0]] + Insert(p, sorted[1..])
  }

  /** filter, sort, map: the pairs that count, in key order. */
  function Canonical(q: Query): seq<Pair> {
    if q == [] then []
    else if Counts(q[0].value) then Insert(q[0], Canonical(q[1..]))
    else Canonical(q[1..])
  }

  lemma {:induction false} BeforeIsIrreflexive(a: string)
    ensures !Before(a, a)
  {
    if a != "" { BeforeIsIrreflexive(a[1..]); }
  }

  lemma {:induction false} BeforeIsTransitive(a: string, b: string, c: string)
    requires Before(a, b) && Before(b, c)
    ensures Before(a, c)
  {
    if a != "" && a[0] == b[0] && b[0] == c[0] {
      BeforeIsTransitive(a[1..], b[1..], c[1..]);
    }
  }

  lemma {:induction false} BeforeIsTotal(a: string, b: string)
    ensures Before(a, b) || Before(b, a) || a == b
  {
    if a != "" && b != "" && a[0] == b[0] {
      BeforeIsTotal(a[1..], b[1..]);
      assert a == [a[0]] + a[1..] && b == [b[0]] + b[1..];
    }
  }

  ghost predicate Ascending(s: seq<Pair>) {
    forall i, j :: 0 <= i < j < |s| ==> Before(s[i].key, s[j].key)
  }

  lemma {:induction false} InsertKeepsAscending(p: Pair, s: seq<Pair>)
    requires Ascending(s) && forall i :: 0 <= i < |s| ==> s[i].key != p.key
    ensures Ascending(Insert(p, s))
    ensures forall x :: x in Insert(p, s) <==> x == p || x in s
  {
    if s != [] {
      BeforeIsTotal(p.key, s[0].key);
      if Before(p.key, s[0].key) {
        forall i | 0 < i < |s| ensures Before(p.key, s[i].key) { BeforeIsTransitive(p.key, s[0].key, s[i].key); }
      } else {
        InsertKeepsAscending(p, s[1..]);
        var rest := Insert(p, s[1..]);
        forall j | 0 <= j < |rest| ensures Before(s[0].key, rest[j].key) {
          assert rest[j] in rest;
          if rest[j] != p {
            var k :| 0 <= k < |s[1..]| && s[1..][k] == rest[j];
            assert Before(s[0].key, s[k + 1].key);
          }
        }
      }
    }
  }

  lemma {:induction false} CanonicalIsAscending(q: Query)
    requires DistinctKeys(q)
    ensures Ascending(Canonical(q))
    ensures forall x :: x in Canonical(q) <==> x in q && Counts(x.value)
  {
    if q != [] {
      CanonicalIsAscending(q[1..]);
      assert forall x :: x in q <==> x == q[0] || x in q[1..];
      if Counts(q[0].value) {
        var rest := Canonical(q[1..]);
        forall i | 0 <= i < |rest| ensures rest[i].key != q[0].key {
          assert rest[i] in rest && rest[i] in q[1..];
        }
        InsertKeepsAscending(q[0], rest);
      }
    }
  }

  /** An ascending list is determined by its members. */
  lemma {:induction false} AscendingIsUnique(a: seq<Pair>, b: seq<Pair>)
    requires Ascending(a) && Ascending(b) && forall x :: x in a <==> x in b
    ensures a == b
  {
    assert a != [] ==> a[0] in a;
    assert b != [] ==> b[0] in b;
    if a != [] && b != [] {
      var i :| 0 <= i < |b| && b[i] == a[0];
      var j :| 0 <= j < |a| && a[j] == b[0];
      if i > 0 {
        assert Before(b[0].key, b[i].key);
        if j > 0 { assert Before(a[0].key, a[j].key); }
        BeforeIsIrreflexive(a[0].key);
        if j > 0 { BeforeIsTransitive(a[0].key, b[0].key, a[0].key); }
      }
      assert a[0] == b[0];
      forall x ensures x in a[1..] <==> x in b[1..] {
        BeforeIsIrreflexive(a[0].key);
        if x in a[1..] { TailIsLater(a, x); assert x in a && x in b; }
        if x in b[1..] { TailIsLater(b, x); assert x in a && x in b; }
      }
      AscendingIsUnique(a[1..], b[1..]);
      assert a == [a[0]] + a[1..] && b == [b[0]] + b[1..];
    }
  }

  lemma TailIsLater(a: seq<Pair>, x: Pair)
    requires Ascending(a) && a != [] && x in a[1..]
    ensures Before(a[0].key, x.key) && x in a
  {
    var i :| 0 <= i < |a[1..]| && a[1..][i] == x;
    assert a[i + 1] == x;
  }

  /** Two queries share a key exactly when they agree on every field that counts. */
  lemma {:induction false} SameKeyIffSameQuery(p: Query, q: Query)
    requires DistinctKeys(p) && DistinctKeys(q)
    ensures Canonical(p) == Canonical(q)
            <==> forall x: Pair :: Counts(x.value) ==> (x in p <==> x in q)
  {
    CanonicalIsAscending(p);
    CanonicalIsAscending(q);
    if forall x: Pair :: Counts(x.value) ==> (x in p <==> x in q) {
      AscendingIsUnique(Canonical(p), Canonical(q));
    } else {
      var x: Pair :| Counts(x.value) && !(x in p <==> x in q);
      assert x in Canonical(p) <==> x in p;
      assert x in Canonical(q) <==> x in q;
    }
  }
}
