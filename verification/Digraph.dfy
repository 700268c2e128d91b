/** Finite directed graphs given by an adjacency map, with reachability by explicit paths. */
module Digraph {
  type Graph<N> = map<N, set<N>>

  /** `edges.get(node, set())`: a node without an adjacency entry has no successors. */
  function Succ<N>(g: Graph<N>, x: N): set<N> {
    if x in g then g[x] else {}
  }

  ghost predicate IsWalk<N>(g: Graph<N>, p: seq<N>) {
    && |p| > 0
    && forall i :: 0 <= i < |p| - 1 ==> p[i + 1] in Succ(g, p[i])
  }

  ghost predicate WalkFrom<N>(g: Graph<N>, p: seq<N>, x: N, y: N) {
    IsWalk(g, p) && p[0] == x && p[|p| - 1] == y
  }

  ghost predicate Reach<N(!new)>(g: Graph<N>, x: N, y: N) {
    exists p :: WalkFrom(g, p, x, y)
  }

  ghost predicate Mutual<N(!new)>(g: Graph<N>, x: N, y: N) {
    Reach(g, x, y) && Reach(g, y, x)
  }

  /** A closed walk with at least one edge. */
  ghost predicate ClosedWalk<N>(g: Graph<N>, p: seq<N>) {
    IsWalk(g, p) && |p| > 1 && p[0] == p[|p| - 1]
  }

  ghost predicate OnCycle<N(!new)>(g: Graph<N>, x: N) {
    exists p :: ClosedWalk(g, p) && x in p
  }

  ghost predicate ClosedUnderSucc<N>(g: Graph<N>, s: set<N>) {
    forall x :: x in s ==> Succ(g, x) <= s
  }

  /** Every node the graph mentions, as a key or as a successor. */
  ghost function Nodes<N>(g: Graph<N>): (nodes: set<N>)
    ensures g.Keys <= nodes && ClosedUnderSucc(g, nodes)
  {
    var nodes := g.Keys + set x, y | x in g && y in g[x] :: y;
    assert forall x, y :: x in g && y in g[x] ==> y in nodes;
    nodes
  }

  lemma ReachRefl<N(!new)>(g: Graph<N>, x: N)
    ensures Reach(g, x, x)
  {
    assert WalkFrom(g, [x], x, x);
  }

  lemma ReachEdge<N(!new)>(g: Graph<N>, x: N, y: N)
    requires y in Succ(g, x)
    ensures Reach(g, x, y)
  {
    assert WalkFrom(g, [x, y], x, y);
  }

  lemma ReachTrans<N(!new)>(g: Graph<N>, x: N, y: N, z: N)
    requires Reach(g, x, y) && Reach(g, y, z)
    ensures Reach(g, x, z)
  {
    var p :| WalkFrom(g, p, x, y);
    var q :| WalkFrom(g, q, y, z);
    var r := p + q[1..];
    forall i | 0 <= i < |r| - 1 ensures r[i + 1] in Succ(g, r[i]) {
      if i >= |p| - 1 {
        assert r[i + 1] == q[i + 2 - |p|];
        assert r[i] == q[i + 1 - |p|];
      }
    }
    assert WalkFrom(g, r, x, z);
  }

  /** A walk never leaves a set closed under successors. */
  lemma {:induction false} ClosedContainsReach<N(!new)>(g: Graph<N>, s: set<N>, x: N, y: N)
    requires ClosedUnderSucc(g, s) && x in s && Reach(g, x, y)
    ensures y in s
  {
    var p :| WalkFrom(g, p, x, y);
    var i := 0;
    while i < |p| - 1
      invariant 0 <= i < |p| && p[i] in s
    {
      i := i + 1;
    }
  }

  lemma WalkPieces<N(!new)>(g: Graph<N>, p: seq<N>, i: nat, j: nat)
    requires IsWalk(g, p) && i <= j < |p|
    ensures Reach(g, p[i], p[j])
  {
    assert WalkFrom(g, p[i..j + 1], p[i], p[j]);
  }

  /** All nodes of a closed walk reach each other. */
  lemma ClosedWalkMutual<N(!new)>(g: Graph<N>, p: seq<N>, x: N, y: N)
    requires ClosedWalk(g, p) && x in p && y in p
    ensures Mutual(g, x, y)
  {
    var i :| 0 <= i < |p| && p[i] == x;
    var j :| 0 <= j < |p| && p[j] == y;
    WalkPieces(g, p, i, |p| - 1);
    WalkPieces(g, p, 0, j);
    ReachTrans(g, x, p[0], y);
    WalkPieces(g, p, j, |p| - 1);
    WalkPieces(g, p, 0, i);
    ReachTrans(g, y, p[0], x);
  }

  lemma OnCycleIsKey<N(!new)>(g: Graph<N>, x: N)
    requires OnCycle(g, x)
    ensures x in g
  {
    var p :| ClosedWalk(g, p) && x in p;
    var i :| 0 <= i < |p| && p[i] == x;
    assert p[if i + 1 < |p| then i + 1 else 1] in Succ(g, x);
  }

  /** Two distinct mutually reachable nodes, or a self-loop, put a node on a cycle; nothing else does. */
  lemma OnCycleIff<N(!new)>(g: Graph<N>, x: N)
    ensures OnCycle(g, x) <==> x in Succ(g, x) || exists y :: y != x && Mutual(g, x, y)
  {
    if x in Succ(g, x) {
      assert ClosedWalk(g, [x, x]);
    }
    if y :| y != x && Mutual(g, x, y) {
      var p :| WalkFrom(g, p, x, y);
      var q :| WalkFrom(g, q, y, x);
      var r := p + q[1..];
      forall i | 0 <= i < |r| - 1 ensures r[i + 1] in Succ(g, r[i]) {
        if i >= |p| - 1 {
          assert r[i + 1] == q[i + 2 - |p|];
          assert r[i] == q[i + 1 - |p|];
        }
      }
      assert ClosedWalk(g, r) && r[0] == x;
    }
    if OnCycle(g, x) {
      var p :| ClosedWalk(g, p) && x in p;
      var i :| 0 <= i < |p| && p[i] == x;
      var y := if i + 1 < |p| then p[i + 1] else p[1];
      assert y in Succ(g, x);
      ClosedWalkMutual(g, p, x, y);
    }
  }
}
