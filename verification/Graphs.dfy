/** Finite directed graphs as sets of edges: paths, reachability and acyclicity. */
module Graphs {

  type Id = string

  type Edges = set<(Id, Id)>

  /** A walk of at least one edge. */
  ghost predicate IsPath(e: Edges, p: seq<Id>) {
    |p| >= 2 && forall i, j :: 0 <= i < j < |p| && j == i + 1 ==> (p[i], p[j]) in e
  }

  ghost predicate PathFromTo(e: Edges, p: seq<Id>, a: Id, b: Id) {
    IsPath(e, p) && p[0] == a && p[|p| - 1] == b
  }

  /** b can be reached from a over one or more edges. */
  ghost predicate Reaches(e: Edges, a: Id, b: Id) {
    exists p :: PathFromTo(e, p, a, b)
  }

  ghost predicate Acyclic(e: Edges) {
    forall v :: !Reaches(e, v, v)
  }

  /** s is closed under following edges. */
  ghost predicate Closed(e: Edges, s: set<Id>) {
    forall a, b :: (a, b) in e && a in s ==> b in s
  }

  lemma EdgeReaches(e: Edges, a: Id, b: Id)
    requires (a, b) in e
    ensures Reaches(e, a, b)
  {
    assert PathFromTo(e, [a, b], a, b);
  }

  lemma ReachesTransitive(e: Edges, a: Id, b: Id, c: Id)
    requires Reaches(e, a, b) && Reaches(e, b, c)
    ensures Reaches(e, a, c)
  {
    var p :| PathFromTo(e, p, a, b);
    var q :| PathFromTo(e, q, b, c);
    var r := p + q[1..];
    forall i, j | 0 <= i < j < |r| && j == i + 1
      ensures (r[i], r[j]) in e
    {
      if i >= |p| - 1 {
        assert r[i] == q[i - (|p| - 1)] && r[j] == q[j - (|p| - 1)];
      }
    }
    assert PathFromTo(e, r, a, c);
  }

  lemma ReachesMonotone(e: Edges, f: Edges, a: Id, b: Id)
    requires e <= f && Reaches(e, a, b)
    ensures Reaches(f, a, b)
  {
    var p :| PathFromTo(e, p, a, b);
    assert PathFromTo(f, p, a, b);
  }

  lemma AcyclicSubgraph(e: Edges, f: Edges)
    requires e <= f && Acyclic(f)
    ensures Acyclic(e)
  {
    forall v | Reaches(e, v, v)
      ensures false
    {
      ReachesMonotone(e, f, v, v);
    }
  }

  /** Every path starts with an edge. */
  lemma FirstStep(e: Edges, a: Id, b: Id) returns (m: Id)
    requires Reaches(e, a, b)
    ensures (a, m) in e && (m == b || Reaches(e, m, b))
  {
    var p :| PathFromTo(e, p, a, b);
    m := p[1];
    if |p| > 2 {
      assert PathFromTo(e, p[1..], m, b);
    }
  }

  lemma {:induction false} ClosedPath(e: Edges, s: set<Id>, p: seq<Id>)
    requires Closed(e, s) && IsPath(e, p) && p[0] in s
    ensures p[|p| - 1] in s
    decreases |p|
  {
    assert (p[0], p[1]) in e;
    if |p| > 2 {
      ClosedPath(e, s, p[1..]);
    }
  }

  /** A closed set holds everything reachable from its members. */
  lemma ClosedReaches(e: Edges, s: set<Id>, a: Id, b: Id)
    requires Closed(e, s) && a in s && Reaches(e, a, b)
    ensures b in s
  {
    var p :| PathFromTo(e, p, a, b);
    ClosedPath(e, s, p);
  }

  lemma {:induction false} AddEdgePath(e: Edges, s: Id, t: Id, p: seq<Id>)
    requires IsPath(e + {(s, t)}, p)
    ensures
      var a, b := p[0], p[|p| - 1];
      Reaches(e, a, b) || ((a == s || Reaches(e, a, s)) && (t == b || Reaches(e, t, b)))
    decreases |p|
  {
    var f := e + {(s, t)};
    var a, m, b := p[0], p[1], p[|p| - 1];
    assert (a, m) in f;
    if |p| > 2 {
      assert IsPath(f, p[1..]);
      AddEdgePath(e, s, t, p[1..]);
    }
    if (a, m) in e {
      EdgeReaches(e, a, m);
      if Reaches(e, m, b) {
        ReachesTransitive(e, a, m, b);
      }
      if Reaches(e, m, s) {
        ReachesTransitive(e, a, m, s);
      }
    }
  }

  /** A new edge closes a cycle exactly when its target already leads back to its source. */
  lemma AddEdgeAcyclic(e: Edges, s: Id, t: Id)
    requires Acyclic(e)
    ensures Acyclic(e + {(s, t)}) <==> s != t && !Reaches(e, t, s)
  {
    var f := e + {(s, t)};
    EdgeReaches(f, s, t);
    if Reaches(e, t, s) {
      ReachesMonotone(e, f, t, s);
      ReachesTransitive(f, s, t, s);
    }
    if s != t && !Reaches(e, t, s) {
      forall v | Reaches(f, v, v)
        ensures false
      {
        var p :| PathFromTo(f, p, v, v);
        AddEdgePath(e, s, t, p);
        assert !Reaches(e, v, v);
        if t == v {
        } else if v == s {
        } else {
          ReachesTransitive(e, t, v, s);
        }
      }
    }
  }

  ghost function Ancestors(e: Edges, s: set<Id>, v: Id): (r: set<Id>)
    ensures forall u :: u in r <==> u in s && Reaches(e, u, v)
  {
    set u | u in s && Reaches(e, u, v)
  }

  /** In an acyclic graph every non-empty finite set of nodes has one without a predecessor in the set. */
  lemma {:induction false} SourceExists(e: Edges, s: set<Id>, v: Id) returns (w: Id)
    requires Acyclic(e) && v in s
    ensures w in s && forall u :: u in s ==> (u, w) !in e
    decreases |Ancestors(e, s, v)|
  {
    if u :| u in s && (u, v) in e {
      EdgeReaches(e, u, v);
      forall x | x in Ancestors(e, s, u)
        ensures x in Ancestors(e, s, v)
      {
        ReachesTransitive(e, x, u, v);
      }
      assert u in Ancestors(e, s, v) && u !in Ancestors(e, s, u);
      SubsetSize(Ancestors(e, s, u), Ancestors(e, s, v), u);
      w := SourceExists(e, s, u);
    } else {
      w := v;
    }
  }

  /** A finite set of nodes that all have a predecessor in the set holds a cycle. */
  lemma NoSource(e: Edges, s: set<Id>, v: Id)
    requires v in s && forall w :: w in s ==> exists u :: u in s && (u, w) in e
    ensures !Acyclic(e)
  {
    if Acyclic(e) {
      var w := SourceExists(e, s, v);
    }
  }

  lemma SubsetSize(a: set<Id>, b: set<Id>, x: Id)
    requires a <= b && x in b && x !in a
    ensures |a| < |b|
  {
    SubsetLeq(a, b - {x});
  }

  lemma {:induction false} SubsetLeq<T>(a: set<T>, b: set<T>)
    requires a <= b
    ensures |a| <= |b|
    decreases a
  {
    if x :| x in a {
      SubsetLeq(a - {x}, b - {x});
    }
  }

  // ---- Listings of nodes ----

  predicate Distinct<T(==)>(s: seq<T>) {
    forall i, j :: 0 <= i < j < |s| ==> s[i] != s[j]
  }

  function Elems<T(!new)>(s: seq<T>): (r: set<T>)
    ensures forall x :: x in r <==> x in s
  {
    set x | x in s
  }

  lemma {:induction false} DistinctSize<T(!new)>(s: seq<T>)
    requires Distinct(s)
    ensures |Elems(s)| == |s|
  {
    if s != [] {
      var n := |s| - 1;
      DistinctSize(s[..n]);
      assert s == s[..n] + [s[n]];
      assert Elems(s) == Elems(s[..n]) + {s[n]};
    } else {
      assert Elems(s) == {};
    }
  }

  /** order lists its nodes once each and every edge between them points forward. */
  ghost predicate Topological(e: Edges, order: seq<Id>) {
    && Distinct(order)
    && forall i, j {:trigger (order[i], order[j]) in e} ::
         0 <= i < |order| && 0 <= j < |order| && (order[i], order[j]) in e ==> i < j
  }

  lemma {:induction false} TopologicalPath(e: Edges, order: seq<Id>, p: seq<Id>, i: int, j: int)
    requires Topological(e, order) && IsPath(e, p)
    requires forall a, b :: (a, b) in e ==> a in order && b in order
    requires 0 <= i < |order| && 0 <= j < |order| && order[i] == p[0] && order[j] == p[|p| - 1]
    ensures i < j
    decreases |p|
  {
    assert (p[0], p[1]) in e;
    if |p| > 2 {
      var k :| 0 <= k < |order| && order[k] == p[1];
      TopologicalPath(e, order, p[1..], k, j);
    }
  }

  /** Along a topological order, reachability only moves forward. */
  lemma TopologicalReaches(e: Edges, order: seq<Id>, i: int, j: int)
    requires Topological(e, order)
    requires forall a, b :: (a, b) in e ==> a in order && b in order
    requires 0 <= i < |order| && 0 <= j < |order| && Reaches(e, order[i], order[j])
    ensures i < j
  {
    var p :| PathFromTo(e, p, order[i], order[j]);
    TopologicalPath(e, order, p, i, j);
  }

  /** A topological order of all nodes rules out cycles. */
  lemma TopologicalAcyclic(e: Edges, order: seq<Id>)
    requires Topological(e, order)
    requires forall a, b :: (a, b) in e ==> a in order && b in order
    ensures Acyclic(e)
  {
    forall v
      ensures !Reaches(e, v, v)
    {
      if Reaches(e, v, v) {
        var m := FirstStep(e, v, v);
        var i :| 0 <= i < |order| && order[i] == v;
        TopologicalReaches(e, order, i, i);
      }
    }
  }

  lemma SameSize<T>(a: set<T>, b: set<T>)
    requires a <= b && |a| == |b|
    ensures a == b
  {
    if a != b {
      var x :| x in b && x !in a;
      SubsetLeq(a, b - {x});
    }
  }

  lemma ElemsTail(s: seq<Id>)
    requires |s| > 0 && Distinct(s)
    ensures s[0] in Elems(s) && Elems(s[1..]) == Elems(s) - {s[0]} && Distinct(s[1..])
  {
  }
}
