/** Finite directed graphs as edge sets: walks, cycles, and the two facts that
    every Kahn-style algorithm of the repository rests on.  The campaign graph
    and the fulfillment plan both use this module. */
module Digraph {

  /** A nonempty vertex sequence whose consecutive members are joined by edges. */
  ghost predicate IsWalk<T>(edges: set<(T, T)>, p: seq<T>) {
    && |p| > 0
    && forall i :: 0 <= i < |p| - 1 ==> (p[i], p[i + 1]) in edges
  }

  ghost predicate IsWalkBetween<T>(edges: set<(T, T)>, p: seq<T>, u: T, v: T) {
    IsWalk(edges, p) && p[0] == u && p[|p| - 1] == v
  }

  /** A closed walk of at least one edge; a self-loop is one. */
  ghost predicate IsCycle<T>(edges: set<(T, T)>, p: seq<T>) {
    IsWalk(edges, p) && |p| >= 2 && p[0] == p[|p| - 1]
  }

  ghost predicate Acyclic<T(!new)>(edges: set<(T, T)>) {
    forall p :: !IsCycle(edges, p)
  }

  ghost predicate OnCycle<T(!new)>(edges: set<(T, T)>, v: T) {
    exists p :: IsCycle(edges, p) && p[0] == v
  }

  ghost predicate Reaches<T(!new)>(edges: set<(T, T)>, u: T, v: T) {
    exists p :: IsWalkBetween(edges, p, u, v)
  }

  /** v lies on a cycle or can be reached from one. */
  ghost predicate DownstreamOfCycle<T(!new)>(edges: set<(T, T)>, v: T) {
    exists u :: OnCycle(edges, u) && Reaches(edges, u, v)
  }

  ghost predicate Distinct<T>(s: seq<T>) {
    forall i, j :: 0 <= i < j < |s| ==> s[i] != s[j]
  }

  ghost function Elements<T>(s: seq<T>): set<T> {
    set x | x in s
  }

  /** Every predecessor of a listed vertex is listed before it. */
  ghost predicate PredecessorsFirst<T>(edges: set<(T, T)>, order: seq<T>) {
    forall e, j | e in edges && 0 <= j < |order| && order[j] == e.1 :: e.0 in order[..j]
  }

  lemma {:induction false} AppendListed<T>(edges: set<(T, T)>, order: seq<T>, v: T)
    requires Distinct(order) && v !in order && PredecessorsFirst(edges, order)
    requires forall e | e in edges && e.1 == v :: e.0 in order
    ensures Distinct(order + [v]) && PredecessorsFirst(edges, order + [v])
    ensures Elements(order + [v]) == Elements(order) + {v}
  {
    var longer := order + [v];
    forall e, j | e in edges && 0 <= j < |longer| && longer[j] == e.1 ensures e.0 in longer[..j] {
      if j < |order| {
        assert e.0 in order[..j] && longer[..j] == order[..j];
      } else {
        assert longer[..j] == order;
      }
    }
  }

  // ----- counting -----

  lemma {:induction false} DistinctSize<T>(s: seq<T>)
    requires Distinct(s)
    ensures |Elements(s)| == |s|
  {
    if s != [] {
      var front := s[..|s| - 1];
      DistinctSize(front);
      assert s[|s| - 1] !in Elements(front);
      assert Elements(s) == Elements(front) + {s[|s| - 1]};
    }
  }

  lemma {:induction false} SubsetSize<T>(a: set<T>, b: set<T>)
    requires a <= b
    ensures |a| <= |b|
    ensures |a| == |b| ==> a == b
  {
    assert b == a + (b - a);
    assert |b| == |a| + |b - a|;
  }

  /** More positions than values: some value repeats. */
  lemma {:induction false} Pigeonhole<T>(r: set<T>, p: seq<T>) returns (i: nat, j: nat)
    requires forall k :: 0 <= k < |p| ==> p[k] in r
    requires |p| > |r|
    ensures i < j < |p| && p[i] == p[j]
    decreases |p|
  {
    var last := |p| - 1;
    if k :| 0 <= k < last && p[k] == p[last] {
      i, j := k, last;
    } else {
      i, j := Pigeonhole(r - {p[last]}, p[..last]);
    }
  }

  // ----- sets closed under taking some predecessor contain a cycle -----

  ghost predicate HasPredecessorIn<T(!new)>(edges: set<(T, T)>, r: set<T>, v: T) {
    exists u :: u in r && (u, v) in edges
  }

  ghost predicate PredecessorClosed<T(!new)>(edges: set<(T, T)>, r: set<T>) {
    forall v {:trigger HasPredecessorIn(edges, r, v)} :: v in r ==> HasPredecessorIn(edges, r, v)
  }

  lemma {:induction false} WalkBack<T(!new)>(edges: set<(T, T)>, r: set<T>, v: T, n: nat) returns (p: seq<T>)
    requires v in r && PredecessorClosed(edges, r)
    ensures |p| == n + 1 && IsWalk(edges, p) && p[n] == v
    ensures forall k :: 0 <= k < |p| ==> p[k] in r
  {
    if n == 0 {
      p := [v];
    } else {
      assert HasPredecessorIn(edges, r, v);
      var u :| u in r && (u, v) in edges;
      p := WalkBack(edges, r, u, n - 1);
      p := p + [v];
    }
  }

  lemma {:induction false} SubWalk<T>(edges: set<(T, T)>, p: seq<T>, i: nat, j: nat)
    requires IsWalk(edges, p) && i < j <= |p|
    ensures IsWalk(edges, p[i..j])
  {
    forall k | 0 <= k < |p[i..j]| - 1 ensures (p[i..j][k], p[i..j][k + 1]) in edges {
      assert (p[i + k], p[i + k + 1]) in edges;
    }
  }

  lemma {:induction false} WalkFrom<T>(edges: set<(T, T)>, u: T, p: seq<T>)
    requires IsWalk(edges, p) && (u, p[0]) in edges
    ensures IsWalk(edges, [u] + p)
  {
    var longer := [u] + p;
    forall i | 0 <= i < |longer| - 1 ensures (longer[i], longer[i + 1]) in edges {
      if i > 0 {
        assert (p[i - 1], p[i]) in edges;
      }
    }
  }

  lemma {:induction false} ReturningWalkIsCycle<T>(edges: set<(T, T)>, p: seq<T>, k: nat)
    requires IsWalk(edges, p) && 0 < k < |p| && p[k] == p[0]
    ensures IsCycle(edges, p[0..k + 1])
  {
    SubWalk(edges, p, 0, k + 1);
  }

  /** Walking back in an acyclic graph never meets the walk again. */
  lemma {:induction false} WalkIsFresh<T(!new)>(edges: set<(T, T)>, u: T, p: seq<T>)
    requires Acyclic(edges) && IsWalk(edges, p) && (u, p[0]) in edges
    ensures u !in p
  {
    if k :| 0 <= k < |p| && p[k] == u {
      WalkFrom(edges, u, p);
      ReturningWalkIsCycle(edges, [u] + p, k + 1);
      assert false;
    }
  }

  lemma {:induction false} PredecessorClosedIsDownstream<T(!new)>(edges: set<(T, T)>, r: set<T>, v: T)
    requires v in r && PredecessorClosed(edges, r)
    ensures DownstreamOfCycle(edges, v)
  {
    var p := WalkBack(edges, r, v, |r|);
    var i, j := Pigeonhole(r, p);
    SubWalk(edges, p, i, j + 1);
    SubWalk(edges, p, i, |p|);
    assert IsCycle(edges, p[i..j + 1]) && p[i..j + 1][0] == p[i];
    assert IsWalkBetween(edges, p[i..|p|], p[i], v);
    assert OnCycle(edges, p[i]) && Reaches(edges, p[i], v);
  }

  /** Edges that all leave one vertex for others form no cycle. */
  lemma {:induction false} StarIsAcyclic<T(!new)>(edges: set<(T, T)>, x: T)
    requires forall e | e in edges :: e.0 == x && e.1 != x
    ensures Acyclic(edges)
  {
    forall p | IsWalk(edges, p) && |p| >= 2 ensures p[0] != p[|p| - 1] {
      var last := |p| - 2;
      assert (p[0], p[1]) in edges && (p[last], p[last + 1]) in edges;
    }
  }

  // ----- a predecessors-first listing stays clear of every cycle -----

  /** Everything upstream of a listed vertex is listed, and no later. */
  lemma {:induction false} WalkStaysListed<T>(edges: set<(T, T)>, order: seq<T>, p: seq<T>, j: nat)
    requires PredecessorsFirst(edges, order)
    requires IsWalk(edges, p) && j < |order| && order[j] == p[|p| - 1]
    ensures exists i :: 0 <= i <= j && i + |p| - 1 <= j && order[i] == p[0]
    decreases |p|
  {
    if |p| > 1 {
      var n := |p| - 2;
      assert (p[n], p[n + 1]) in edges;
      assert p[n] in order[..j];
      var k :| 0 <= k < j && order[k] == p[n];
      SubWalk(edges, p, 0, n + 1);
      WalkStaysListed(edges, order, p[..n + 1], k);
    }
  }

  lemma {:induction false} ListedIsNotDownstream<T(!new)>(edges: set<(T, T)>, order: seq<T>, v: T)
    requires Distinct(order) && PredecessorsFirst(edges, order) && v in order
    ensures !DownstreamOfCycle(edges, v)
  {
    if DownstreamOfCycle(edges, v) {
      var u :| OnCycle(edges, u) && Reaches(edges, u, v);
      var c :| IsCycle(edges, c) && c[0] == u;
      var w :| IsWalkBetween(edges, w, u, v);
      var j :| 0 <= j < |order| && order[j] == v;
      WalkStaysListed(edges, order, w, j);
      var k :| 0 <= k <= j && order[k] == u;
      WalkStaysListed(edges, order, c, k);
      assert false;
    }
  }

  /** What Kahn's algorithm leaves over.  `order` lists vertices predecessors
      first; every vertex of `all` it misses still has a missed predecessor.
      Then the missed vertices are exactly those on or downstream of a cycle. */
  lemma {:induction false} LeftoverIsDownstreamOfCycle<T(!new)>(edges: set<(T, T)>, all: set<T>, order: seq<T>, v: T)
    requires Distinct(order) && PredecessorsFirst(edges, order)
    requires v in all
    requires PredecessorClosed(edges, set x | x in all && x !in order)
    ensures v !in order <==> DownstreamOfCycle(edges, v)
  {
    if v in order {
      ListedIsNotDownstream(edges, order, v);
    } else {
      var rest := set x | x in all && x !in order;
      PredecessorClosedIsDownstream(edges, rest, v);
    }
  }

  lemma {:induction false} OnCycleIsDownstream<T(!new)>(edges: set<(T, T)>, p: seq<T>)
    requires IsCycle(edges, p)
    ensures DownstreamOfCycle(edges, p[0])
  {
    assert IsWalkBetween(edges, p, p[0], p[0]);
    assert OnCycle(edges, p[0]) && Reaches(edges, p[0], p[0]);
  }

  lemma {:induction false} DownstreamHasCycle<T(!new)>(edges: set<(T, T)>, v: T)
    requires DownstreamOfCycle(edges, v)
    ensures !Acyclic(edges)
  {
    var u :| OnCycle(edges, u) && Reaches(edges, u, v);
    var p :| IsCycle(edges, p) && p[0] == u;
  }

  /** A graph is acyclic exactly when no vertex of it is downstream of a cycle. */
  lemma {:induction false} AcyclicMeansNothingDownstream<T(!new)>(edges: set<(T, T)>, all: set<T>)
    requires forall e | e in edges :: e.0 in all && e.1 in all
    ensures Acyclic(edges) <==> forall v | v in all :: !DownstreamOfCycle(edges, v)
  {
    if v :| v in all && DownstreamOfCycle(edges, v) {
      DownstreamHasCycle(edges, v);
    }
    if p :| IsCycle(edges, p) {
      OnCycleIsDownstream(edges, p);
      assert (p[0], p[1]) in edges;
    }
  }
}
