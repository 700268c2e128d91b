/** Operator and capability declarations of the lite engine, and the dependency graph built from them. */
module LiteGraph {
  import opened Prelude
  import opened DataPoints
  import opened Digraph

  datatype Policy = Policy(
    rerunOnNewData: bool,
    addedOnly: bool,            // RerunOn.ADDED_ONLY
    debounce: int,              // the coalescing window, 0 when unset
    maxCycles: Option<int>,
    maxAttempts: Option<nat>)   // the retry policy's budget; None when there is no retry policy

  datatype Operator = Operator(
    id: string,
    dependsOn: set<Class>,
    uses: set<Class>,
    produces: set<Class>,
    requires_: set<Class>,
    policy: Policy)

  datatype Capability = Capability(id: string, self: Class, dependsOn: set<Class>, requires_: set<Class>)

  datatype Node = OpNode(op: Operator) | CapNode(cap: Capability) {
    function DependsOn(): set<Class> {
      match this
      case OpNode(op) => op.dependsOn
      case CapNode(cap) => cap.dependsOn
    }

    function Requires(): set<Class> {
      match this
      case OpNode(op) => op.requires_
      case CapNode(cap) => cap.requires_
    }
  }

  predicate Overlaps(produced: Class, needed: Class) {
    IsSubclass(produced, needed) || IsSubclass(needed, produced)
  }

  predicate Feeds(producer: Operator, needed: set<Class>) {
    exists p, n :: p in producer.produces && n in needed && Overlaps(p, n)
  }

  /** "`consumer` depends on something `provider` provides". */
  predicate IsEdge(provider: Node, consumer: Node) {
    match provider
    case OpNode(op) => Feeds(op, consumer.DependsOn())
    case CapNode(cap) => exists r :: r in consumer.Requires() && IsSubclass(cap.self, r)
  }

  ghost function NodesOf(operators: seq<Operator>, capabilities: seq<Capability>): set<Node> {
    (set o | o in operators :: OpNode(o)) + (set c | c in capabilities :: CapNode(c))
  }

  ghost predicate IsDependencyGraph(g: Graph<Node>, operators: seq<Operator>, capabilities: seq<Capability>) {
    && g.Keys == NodesOf(operators, capabilities)
    && forall x, y :: x in g ==> (y in g[x] <==> y in g && IsEdge(x, y))
  }

  function NodeList(operators: seq<Operator>, capabilities: seq<Capability>): seq<Node> {
    seq(|operators|, i requires 0 <= i < |operators| => OpNode(operators[i]))
    + seq(|capabilities|, i requires 0 <= i < |capabilities| => CapNode(capabilities[i]))
  }

  lemma NodeListIs(operators: seq<Operator>, capabilities: seq<Capability>)
    ensures forall n :: n in NodeList(operators, capabilities) <==> n in NodesOf(operators, capabilities)
  {
    var nodes := NodeList(operators, capabilities);
    assert forall i :: 0 <= i < |operators| ==> nodes[i] == OpNode(operators[i]);
    assert forall i :: 0 <= i < |capabilities| ==> nodes[|operators| + i] == CapNode(capabilities[i]);
  }

  /** Class names decide every edge: data in either direction of the hierarchy, capabilities in one. */
  lemma EdgesByName(g: Graph<Node>, operators: seq<Operator>, capabilities: seq<Capability>, x: Node, y: Node)
    requires IsDependencyGraph(g, operators, capabilities) && x in g && y in g
    ensures y in g[x] <==>
      match x
      case OpNode(op) => exists p, d :: p in op.produces && d in y.DependsOn() && (d.name in p.mro || p.name in d.mro)
      case CapNode(cap) => exists r :: r in y.Requires() && r.name in cap.self.mro
  {
    assert y in g[x] <==> IsEdge(x, y);
    if IsEdge(x, y) && x.OpNode? { var p, d :| p in x.op.produces && d in y.DependsOn() && Overlaps(p, d); }
  }

  /** Each class is its own subclass, and two classes with a common subclass are related. */
  ghost predicate TypeTree(types: set<Class>) {
    && (forall c :: c in types ==> c.name in c.mro)
    && (forall k, p, d :: k in types && p in types && d in types && p.name in k.mro && d.name in k.mro ==>
          d.name in p.mro || p.name in d.mro)
  }

  /** What an edge from an operator means: some type is both of a kind it produces and of a kind the consumer depends on. */
  lemma EdgeIffShared(g: Graph<Node>, operators: seq<Operator>, capabilities: seq<Capability>, o: Operator, y: Node, types: set<Class>)
    requires IsDependencyGraph(g, operators, capabilities) && OpNode(o) in g && y in g
    requires TypeTree(types) && o.produces <= types && y.DependsOn() <= types
    ensures y in g[OpNode(o)] <==>
      exists k, p, d :: k in types && p in o.produces && d in y.DependsOn() && p.name in k.mro && d.name in k.mro
  {
    EdgesByName(g, operators, capabilities, OpNode(o), y);
    if p, d :| p in o.produces && d in y.DependsOn() && (d.name in p.mro || p.name in d.mro) {
      var k := if d.name in p.mro then p else d;
      assert k in types && p.name in k.mro && d.name in k.mro;
    }
  }

  method BuildEdges(operators: seq<Operator>, capabilities: seq<Capability>) returns (edges: Graph<Node>)
    ensures IsDependencyGraph(edges, operators, capabilities)
  {
    hide IsEdge, NodesOf;
    var nodes := NodeList(operators, capabilities);
    NodeListIs(operators, capabilities);
    edges := map n | n in nodes :: {};
    for k := 0 to |nodes|
      invariant edges.Keys == NodesOf(operators, capabilities)
      invariant forall x, y :: x in edges ==> (y in edges[x] <==> y in nodes[..k] && IsEdge(x, y))
    {
      edges := AddInEdges(edges, nodes[k]);
      assert nodes[..k + 1] == nodes[..k] + [nodes[k]];
    }
    assert nodes[..|nodes|] == nodes;
  }

  /** One pass of the outer loop: the edges into one consumer. */
  method AddInEdges(edges: Graph<Node>, consumer: Node) returns (result: Graph<Node>)
    ensures result.Keys == edges.Keys
    ensures forall x, y :: x in edges ==>
      (y in result[x] <==> y in edges[x] || (y == consumer && IsEdge(x, y)))
  {
    result := edges;
    var todo := edges.Keys;
    while todo != {}
      invariant todo <= edges.Keys == result.Keys
      invariant forall x, y :: x in edges ==>
        (y in result[x] <==> y in edges[x] || (x !in todo && y == consumer && IsEdge(x, y)))
    {
      var provider :| provider in todo;
      if IsEdge(provider, consumer) {
        result := result[provider := result[provider] + {consumer}];
      }
      todo := todo - {provider};
    }
  }
}
