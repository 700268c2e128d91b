/** The bounded-cycle rule: a dependency cycle is permitted only if run caps bound it. */
module CycleRule {
  import opened Prelude
  import opened DataPoints
  import opened Digraph
  import opened LiteGraph
  import Tarjan

  datatype Verdict = Accepted | NoOperator(cycle: set<Node>) | Unbounded(cycle: set<Node>, operators: set<Node>)

  /** What acceptance means, said with walks only: no mention of components. */
  ghost predicate Bounded(g: Graph<Node>) {
    forall x :: OnCycle(g, x) ==>
      && (x.OpNode? ==> x.op.policy.maxCycles.Some?)
      && exists y :: Mutual(g, x, y) && y.OpNode?
  }

  method ValidateAcyclicOrBounded(edges: Graph<Node>) returns (verdict: Verdict)
    ensures verdict.Accepted? <==> Bounded(edges)
    ensures verdict.NoOperator? ==>
      Tarjan.CyclicScc(edges, verdict.cycle) && forall x :: x in verdict.cycle ==> x.CapNode?
    ensures verdict.Unbounded? ==>
      && Tarjan.CyclicScc(edges, verdict.cycle) && verdict.operators != {}
      && forall x :: x in verdict.operators <==> x in verdict.cycle && x.OpNode? && x.op.policy.maxCycles.None?
  {
    var cycles := Tarjan.FindCycles(edges);
    for i := 0 to |cycles|
      invariant forall j :: 0 <= j < i ==> BoundedComponent(cycles[j])
    {
      var cycle := cycles[i];
      var operatorsOnCycle := set x: Node | x in cycle && x.OpNode?;
      assert forall x: Node :: x in cycle && x.OpNode? ==> x in operatorsOnCycle;
      if operatorsOnCycle == {} {
        assert cycle in cycles && !BoundedComponent(cycle);
        UnboundedRejected(edges, cycle);
        return NoOperator(cycle);
      }
      var unbounded := set x: Node | x in operatorsOnCycle && x.op.policy.maxCycles.None?;
      assert forall x: Node :: x in cycle && x.OpNode? && x.op.policy.maxCycles.None? ==> x in unbounded;
      if unbounded != {} {
        assert cycle in cycles;
        var o :| o in unbounded;
        assert !BoundedComponent(cycle);
        UnboundedRejected(edges, cycle);
        return Unbounded(cycle, unbounded);
      }
      var y :| y in operatorsOnCycle;
      assert y in cycle && y.OpNode?;
    }
    assert forall c :: c in cycles ==> BoundedComponent(c);
    AllBoundedAccepted(edges);
    return Accepted;
  }

  predicate BoundedComponent(c: set<Node>) {
    && (exists y :: y in c && y.OpNode?)
    && forall x :: x in c && x.OpNode? ==> x.op.policy.maxCycles.Some?
  }

  lemma UnboundedRejected(g: Graph<Node>, c: set<Node>)
    requires Tarjan.CyclicScc(g, c) && !BoundedComponent(c)
    ensures !Bounded(g)
  {
    hide Reach, OnCycle;
    if Bounded(g) {
      var x :| x in c;
      Tarjan.CyclicSccHasEdges(g, c, x);
      var y :| Mutual(g, x, y) && y.OpNode?;
      assert y in c;
      var z :| z in c && z.OpNode? && z.op.policy.maxCycles.None?;
      Tarjan.CyclicSccHasEdges(g, c, z);
    }
  }

  lemma AllBoundedAccepted(g: Graph<Node>)
    requires forall c :: Tarjan.CyclicScc(g, c) ==> BoundedComponent(c)
    ensures Bounded(g)
  {
    hide Reach;
    forall x | OnCycle(g, x) ensures (x.OpNode? ==> x.op.policy.maxCycles.Some?) && exists y :: Mutual(g, x, y) && y.OpNode? {
      var p :| ClosedWalk(g, p) && x in p;
      var c := Tarjan.CycleInsideOne(g, p);
      assert BoundedComponent(c) && x in c;
      var y :| y in c && y.OpNode?;
      assert Mutual(g, x, y);
    }
  }

  /** The caps the circuit breaker enforces: those of the capped operators that lie on a cycle. */
  method CycleCaps(edges: Graph<Node>) returns (caps: map<string, int>)
    ensures forall id :: id in caps ==> exists x :: CappedOnCycle(edges, x) && x.op.id == id && caps[id] == x.op.policy.maxCycles.value
    ensures forall x :: CappedOnCycle(edges, x) ==> x.op.id in caps
  {
    hide Reach, OnCycle;
    var cycles := Tarjan.FindCycles(edges);
    caps := map[];
    for i := 0 to |cycles|
      invariant forall id :: id in caps ==> exists x :: CappedOnCycle(edges, x) && x.op.id == id && caps[id] == x.op.policy.maxCycles.value
      invariant forall x, j :: 0 <= j < i && x in cycles[j] && Capped(x) ==> x.op.id in caps
    {
      assert cycles[i] in cycles;
      var todo := cycles[i];
      while todo != {}
        invariant todo <= cycles[i]
        invariant forall id :: id in caps ==> exists x :: CappedOnCycle(edges, x) && x.op.id == id && caps[id] == x.op.policy.maxCycles.value
        invariant forall x, j :: 0 <= j < i && x in cycles[j] && Capped(x) ==> x.op.id in caps
        invariant forall x :: x in cycles[i] && x !in todo && Capped(x) ==> x.op.id in caps
      {
        var node :| node in todo;
        todo := todo - {node};
        if Capped(node) {
          Tarjan.CyclicSccHasEdges(edges, cycles[i], node);
          assert CappedOnCycle(edges, node);
          caps := caps[node.op.id := node.op.policy.maxCycles.value];
        }
      }
    }
    forall x | CappedOnCycle(edges, x) ensures x.op.id in caps {
      var p := WalkThrough(edges, x);
      var c := Tarjan.CycleInsideOne(edges, p);
      assert c in cycles;
    }
  }

  lemma WalkThrough(g: Graph<Node>, x: Node) returns (p: seq<Node>)
    requires OnCycle(g, x)
    ensures ClosedWalk(g, p) && x in p
  {
    p :| ClosedWalk(g, p) && x in p;
  }

  predicate Capped(x: Node) {
    x.OpNode? && x.op.policy.maxCycles.Some?
  }

  ghost predicate CappedOnCycle(g: Graph<Node>, x: Node) {
    Capped(x) && OnCycle(g, x)
  }

  // ----- the documented rule, cycle by cycle -----

  /** The rule as documented: every cycle holds an operator, and all its operators are capped. */
  ghost predicate EveryCycleBounded(g: Graph<Node>) {
    forall p: seq<Node> :: ClosedWalk(g, p) ==> (exists x :: x in p && x.OpNode?) && forall x :: x in p && x.OpNode? ==> Capped(x)
  }

  /** The graph with only its capabilities left. */
  function CapabilityPart(g: Graph<Node>): Graph<Node> {
    map x | x in g && x.CapNode? :: set y | y in g[x] && y.CapNode?
  }

  /** The closed walks of the capability part are the closed walks over capabilities alone. */
  lemma CapabilityWalks(g: Graph<Node>, p: seq<Node>)
    ensures ClosedWalk(CapabilityPart(g), p) <==> ClosedWalk(g, p) && forall x :: x in p ==> x.CapNode?
  {
    var part := CapabilityPart(g);
    if ClosedWalk(part, p) {
      forall i | 0 <= i < |p| - 1 ensures p[i + 1] in Succ(g, p[i]) {
        assert p[i + 1] in Succ(part, p[i]);
      }
      forall x | x in p ensures x.CapNode? {
        var i :| 0 <= i < |p| && p[i] == x;
        assert p[if i + 1 < |p| then i + 1 else 1] in Succ(part, x);
      }
    }
    if ClosedWalk(g, p) && forall x :: x in p ==> x.CapNode? {
      forall i | 0 <= i < |p| - 1 ensures p[i + 1] in Succ(part, p[i]) {
        assert p[i + 1] in Succ(g, p[i]) && p[i] in p && p[i + 1] in p;
      }
    }
  }

  /**
   * The code decides the rule per component, the documentation states it per cycle. The two agree exactly when no
   * component of the capability part holds a cycle, which `find_cycles` on that part tells before the call.
   */
  lemma DocumentedRuleIff(g: Graph<Node>)
    ensures EveryCycleBounded(g) <==> Bounded(g) && forall c :: !Tarjan.CyclicScc(CapabilityPart(g), c)
  {
    hide Reach, OnCycle, Mutual, ClosedWalk;
    if EveryCycleBounded(g) {
      DocumentedIsStronger(g);
      if c :| Tarjan.CyclicScc(CapabilityPart(g), c) {
        var p := CapabilityCycle(g, c);
        assert false;
      }
    }
    if Bounded(g) && forall c :: !Tarjan.CyclicScc(CapabilityPart(g), c) {
      forall p: seq<Node> | ClosedWalk(g, p) ensures (exists x :: x in p && x.OpNode?) && forall x :: x in p && x.OpNode? ==> Capped(x) {
        forall x | x in p ensures OnCycle(g, x) { OnClosedWalk(g, p, x); }
        CapabilityWalks(g, p);
        if forall x :: x in p ==> x.CapNode? { var c := Tarjan.CycleInsideOne(CapabilityPart(g), p); }
      }
    }
  }

  lemma OnClosedWalk(g: Graph<Node>, p: seq<Node>, x: Node)
    requires ClosedWalk(g, p) && x in p
    ensures OnCycle(g, x)
  {
  }

  lemma CapabilityCycle(g: Graph<Node>, c: set<Node>) returns (p: seq<Node>)
    requires Tarjan.CyclicScc(CapabilityPart(g), c)
    ensures ClosedWalk(g, p) && forall x :: x in p ==> x.CapNode?
  {
    var part := CapabilityPart(g);
    var x := Member(part, c);
    Tarjan.CyclicSccHasEdges(part, c, x);
    p := WalkThrough(part, x);
    CapabilityWalks(g, p);
  }

  lemma Member(g: Graph<Node>, c: set<Node>) returns (x: Node)
    requires Tarjan.CyclicScc(g, c)
    ensures x in c
  {
    x :| x in c;
  }

  lemma DocumentedIsStronger(g: Graph<Node>)
    requires EveryCycleBounded(g)
    ensures Bounded(g)
  {
    hide Reach, Mutual, ClosedWalk;
    forall x | OnCycle(g, x) ensures (x.OpNode? ==> Capped(x)) && exists y :: Mutual(g, x, y) && y.OpNode? {
      var p := WalkThrough(g, x);
      var y :| y in p && y.OpNode?;
      ClosedWalkMutual(g, p, x, y);
    }
  }

  /**
   * The two do differ on flows that can be declared: `a` and `b` require each other and `o` requires `a`, which
   * waits for what `o` produces. Their component holds a capped operator, so the graph is accepted, although the
   * cycle through `a` and `b` alone holds none.
   */
  lemma CapabilityOnlyCycleAccepted(o: Operator, a: Capability, b: Capability, data: Class)
      returns (g: Graph<Node>)
    requires o.policy.maxCycles.Some? && o.dependsOn == {} && o.produces == {data} && o.requires_ == {a.self}
    requires a.dependsOn == {data} && a.requires_ == {b.self} && b.dependsOn == {} && b.requires_ == {a.self}
    requires IsSubclass(a.self, a.self) && IsSubclass(b.self, b.self) && IsSubclass(data, data)
    requires !IsSubclass(a.self, b.self) && !IsSubclass(b.self, a.self)
    ensures IsDependencyGraph(g, [o], [a, b]) && Bounded(g)
    ensures ClosedWalk(g, [CapNode(a), CapNode(b), CapNode(a)]) && !EveryCycleBounded(g)
  {
    var x, y, z := CapNode(a), CapNode(b), OpNode(o);
    g := map[x := {y, z}, y := {x}, z := {x}];
    assert a != b;
    TwoCapabilitiesGraph(o, a, b, data, g);
    ReachEdge(g, x, y); ReachEdge(g, x, z); ReachEdge(g, y, x); ReachEdge(g, z, x);
    ReachTrans(g, y, x, z); ReachTrans(g, z, x, y); ReachRefl(g, z);
    assert ClosedWalk(g, [x, y, x]);
    hide Reach;
    forall n | OnCycle(g, n) ensures Mutual(g, n, z) && (n.OpNode? ==> n == z) {
      OnCycleIff(g, n);
      OnCycleIsKey(g, n);
      assert n == x || n == y || n == z;
    }
    hide OnCycle;
    assert Bounded(g);
    assert forall n :: n in [x, y, x] ==> n.CapNode?;
  }

  lemma TwoCapabilitiesGraph(o: Operator, a: Capability, b: Capability, data: Class, g: Graph<Node>)
    requires a != b && o.dependsOn == {} && o.produces == {data} && o.requires_ == {a.self}
    requires a.dependsOn == {data} && a.requires_ == {b.self} && b.dependsOn == {} && b.requires_ == {a.self}
    requires IsSubclass(a.self, a.self) && IsSubclass(b.self, b.self) && IsSubclass(data, data)
    requires !IsSubclass(a.self, b.self) && !IsSubclass(b.self, a.self)
    requires g == map[CapNode(a) := {CapNode(b), OpNode(o)}, CapNode(b) := {CapNode(a)}, OpNode(o) := {CapNode(a)}]
    ensures IsDependencyGraph(g, [o], [a, b])
  {
    var x, y, z := CapNode(a), CapNode(b), OpNode(o);
    assert a in [a, b] && b in [a, b] && o in [o];
    assert forall n :: n in NodesOf([o], [a, b]) <==> n in {x, y, z};
    assert Feeds(o, {data}) && !Feeds(o, {}) by { assert data in o.produces && data in {data} && Overlaps(data, data); }
    assert a.self in {a.self} && b.self in {b.self};
    assert IsEdge(x, y) && IsEdge(x, z) && IsEdge(y, x) && IsEdge(z, x);
    assert !IsEdge(x, x) && !IsEdge(y, y) && !IsEdge(y, z) && !IsEdge(z, y) && !IsEdge(z, z);
  }
}
