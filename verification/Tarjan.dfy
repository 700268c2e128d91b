/** Tarjan's strongly connected components, in place. */
module Tarjan {
  import opened Digraph

  ghost predicate IsScc<N(!new)>(g: Graph<N>, c: set<N>) {
    && c != {}
    && forall x, y :: x in c ==> (y in c <==> Mutual(g, x, y))
  }

  /** A maximal strongly connected component that has more than one node or a self-loop. */
  ghost predicate CyclicScc<N(!new)>(g: Graph<N>, c: set<N>) {
    IsScc(g, c) && (|c| > 1 || exists x :: x in c && x in Succ(g, x))
  }

  /** What the search knows between two steps: discovery indices, the open stack, the cycles found so far. */
  datatype Env<N> = Env(indices: map<N, nat>, stack: seq<N>, cycles: seq<set<N>>) {
    ghost predicate Done(x: N) { x in indices && x !in stack }

    ghost predicate StackSorted() {
      && (forall i :: 0 <= i < |stack| ==> stack[i] in indices)
      && (forall i, j :: 0 <= i < j < |stack| ==> indices[stack[i]] < indices[stack[j]])
    }
  }

  /** Every cyclic component among the finished nodes is reported, once, and nothing else is. */
  ghost predicate Reported<N(!new)>(g: Graph<N>, e: Env<N>) {
    && (forall c :: c in e.cycles <==> CyclicScc(g, c) && forall x :: x in c ==> e.Done(x))
    && (forall i, j :: 0 <= i < j < |e.cycles| ==> e.cycles[i] != e.cycles[j])
  }

  /** `w` is an open call at or below `x` on the stack that `x` can reach. */
  ghost predicate Anchors<N(!new)>(g: Graph<N>, gray: set<N>, e: Env<N>, x: N, w: N)
    requires e.StackSorted() && x in e.stack
  {
    w in gray && w in e.stack && e.indices[w] <= e.indices[x] && Reach(g, x, w)
  }

  ghost predicate Anchored<N(!new)>(g: Graph<N>, gray: set<N>, e: Env<N>, x: N)
    requires e.StackSorted() && x in e.stack
  {
    exists w :: Anchors(g, gray, e, x, w)
  }

  lemma AnchorOf<N(!new)>(g: Graph<N>, gray: set<N>, e: Env<N>, x: N) returns (w: N)
    requires e.StackSorted() && x in e.stack && Anchored(g, gray, e, x)
    ensures w in gray && w in e.stack && e.indices[w] <= e.indices[x] && Reach(g, x, w)
  {
    w :| Anchors(g, gray, e, x, w);
  }

  lemma AnchorBy<N(!new)>(g: Graph<N>, gray: set<N>, e: Env<N>, x: N, w: N)
    requires e.StackSorted() && x in e.stack
    requires w in gray && w in e.stack && e.indices[w] <= e.indices[x] && Reach(g, x, w)
    ensures Anchored(g, gray, e, x)
  {
    assert Anchors(g, gray, e, x, w);
  }

  /** Lower stack nodes reach higher ones, and each reaches an open call at or below itself. */
  ghost predicate StackLinked<N(!new)>(g: Graph<N>, gray: set<N>, e: Env<N>)
    requires e.StackSorted()
  {
    && (forall i, j :: 0 <= i <= j < |e.stack| ==> Reach(g, e.stack[i], e.stack[j]))
    && (forall x :: x in e.stack ==> Anchored(g, gray, e, x))
  }

  /** No edge leads from a finished call to an undiscovered node, or out of the popped nodes. */
  ghost predicate Contained<N(!new)>(g: Graph<N>, gray: set<N>, e: Env<N>) {
    && (forall x :: x in e.indices && x !in gray ==> Succ(g, x) <= e.indices.Keys)
    && (forall x, y :: e.Done(x) && y in Succ(g, x) ==> e.Done(y))
  }

  /** `gray` holds the nodes whose `strongconnect` call has not returned. */
  ghost predicate Wf<N(!new)>(g: Graph<N>, gray: set<N>, e: Env<N>) {
    && e.StackSorted()
    && (forall x :: x in gray ==> x in e.stack)
    && StackLinked(g, gray, e)
    && Contained(g, gray, e)
    && Reported(g, e)
  }

  /** `low` is the index of a stack node that `x` reaches. */
  ghost predicate LowReal<N(!new)>(g: Graph<N>, e: Env<N>, x: N, low: nat)
    requires e.StackSorted()
  {
    exists w :: w in e.stack && e.indices[w] == low && Reach(g, x, w)
  }

  /** No edge from the stack above `base` enters the stack below `base` at an index under `low`. */
  ghost predicate LowBounds<N>(g: Graph<N>, e: Env<N>, base: nat, low: nat)
    requires e.StackSorted() && base <= |e.stack|
  {
    forall i, j :: base <= i < |e.stack| && 0 <= j < base && e.stack[j] in Succ(g, e.stack[i])
      ==> low <= e.indices[e.stack[j]]
  }

  ghost predicate Extends<N>(old_: Env<N>, new_: Env<N>) {
    && old_.indices.Keys <= new_.indices.Keys
    && (forall x :: x in old_.indices ==> new_.indices[x] == old_.indices[x])
    && old_.stack <= new_.stack
  }

  /**
   * The loop of `strongconnect(node)` after the successors in `seen`: `before` is the state at the call,
   * `base` the node's stack position and `low` its low index so far.
   */
  ghost predicate Scanning<N(!new)>(g: Graph<N>, before: Env<N>, e: Env<N>, node: N, seen: set<N>, low: nat) {
    && before.StackSorted() && e.StackSorted() && Extends(before, e)
    && |before.stack| < |e.stack| && e.stack[|before.stack|] == node
    && low <= e.indices[node] && LowReal(g, e, node, low)
    && (forall y :: y in seen ==> y in e.indices)
    && (forall y :: y in seen && y in before.stack ==> low <= e.indices[y])
    && (forall i, y :: |before.stack| < i < |e.stack| && y in before.stack && y in Succ(g, e.stack[i])
          ==> low <= e.indices[y])
  }

  lemma ScanStart<N(!new)>(g: Graph<N>, before: Env<N>, e: Env<N>, node: N)
    requires before.StackSorted() && e.StackSorted() && Extends(before, e) && e.stack == before.stack + [node]
    requires node in e.indices && LowReal(g, e, node, e.indices[node])
    ensures Scanning(g, before, e, node, {}, e.indices[node])
  {
    hide Reach, LowReal;
    assert e.stack[|before.stack|] == node;
  }

  /** A successor already popped lowers nothing. */
  lemma ScanPopped<N(!new)>(g: Graph<N>, before: Env<N>, e: Env<N>, node: N, seen: set<N>, low: nat, y: N)
    requires Scanning(g, before, e, node, seen, low) && y in e.indices && y !in e.stack
    ensures Scanning(g, before, e, node, seen + {y}, low)
  {
    hide Reach, LowReal;
    assert y !in before.stack by { assert forall x :: x in before.stack ==> x in e.stack; }
  }

  /** A successor already on the stack may lower `low` to its index. */
  lemma ScanStacked<N(!new)>(g: Graph<N>, before: Env<N>, e: Env<N>, node: N, seen: set<N>, low: nat, y: N)
    requires Scanning(g, before, e, node, seen, low) && y in Succ(g, node) && y in e.stack
    ensures Scanning(g, before, e, node, seen + {y}, if e.indices[y] < low then e.indices[y] else low)
  {
    hide Reach;
    ReachEdge(g, node, y);
  }

  /** A child call that has returned may lower `low` to its low index. */
  lemma ScanChild<N(!new)>(g: Graph<N>, before: Env<N>, e: Env<N>, node: N, seen: set<N>, low: nat,
                           y: N, e': Env<N>, childLow: nat)
    requires Scanning(g, before, e, node, seen, low) && y in Succ(g, node) && y !in e.indices
    requires e'.StackSorted() && Extends(e, e') && y in e'.indices
    requires forall x :: x in e.indices ==> e.indices[x] < e'.indices[y]
    requires LowBounds(g, e', |e.stack|, childLow) && childLow <= e'.indices[y]
    requires (e'.stack == e.stack && childLow == e'.indices[y]) || LowReal(g, e', y, childLow)
    ensures Scanning(g, before, e', node, seen + {y}, if childLow < low then childLow else low)
  {
    hide Reach, LowReal, LowBounds;
    assert e'.stack[|before.stack|] == node;
    assert Extends(before, e');
    ScanChildLow(g, e, node, low, y, e', childLow);
    ScanChildBounds(g, before, e, e', childLow);
    assert forall i :: 0 <= i < |e.stack| ==> e'.stack[i] == e.stack[i];
    assert forall x :: x in before.stack ==> x in before.indices;
    assert y !in before.stack;
  }

  lemma ScanChildLow<N(!new)>(g: Graph<N>, e: Env<N>, node: N, low: nat, y: N, e': Env<N>, childLow: nat)
    requires e.StackSorted() && e'.StackSorted() && Extends(e, e')
    requires y in Succ(g, node) && y in e'.indices && node in e.indices && e.indices[node] < e'.indices[y]
    requires LowReal(g, e, node, low) && low <= e.indices[node]
    requires childLow == e'.indices[y] || LowReal(g, e', y, childLow)
    ensures LowReal(g, e', node, if childLow < low then childLow else low)
  {
    hide Reach;
    if childLow < low {
      var u :| u in e'.stack && e'.indices[u] == childLow && Reach(g, y, u);
      ReachEdge(g, node, y);
      ReachTrans(g, node, y, u);
    } else {
      var w :| w in e.stack && e.indices[w] == low && Reach(g, node, w);
      assert w in e'.stack;
    }
  }

  lemma ScanChildBounds<N(!new)>(g: Graph<N>, before: Env<N>, e: Env<N>, e': Env<N>, childLow: nat)
    requires before.StackSorted() && e'.StackSorted() && before.stack <= e.stack <= e'.stack
    requires LowBounds(g, e', |e.stack|, childLow)
    ensures forall i, x :: |e.stack| <= i < |e'.stack| && x in before.stack && x in Succ(g, e'.stack[i])
              ==> x in e'.indices && childLow <= e'.indices[x]
  {
    forall i, x | |e.stack| <= i < |e'.stack| && x in before.stack && x in Succ(g, e'.stack[i])
      ensures x in e'.indices && childLow <= e'.indices[x]
    {
      var j :| 0 <= j < |before.stack| && before.stack[j] == x;
      assert e'.stack[j] == x;
    }
  }

  lemma ScanEnds<N(!new)>(g: Graph<N>, gray: set<N>, before: Env<N>, e: Env<N>, node: N, low: nat)
    requires Scanning(g, before, e, node, Succ(g, node), low)
    requires forall x :: x in gray ==> x in before.stack
    ensures e.StackSorted() && Extends(before, e) && |before.stack| < |e.stack| && e.stack[|before.stack|] == node
    ensures LowBounds(g, e, |before.stack|, low) && Succ(g, node) <= e.indices.Keys
    ensures low <= e.indices[node] && LowReal(g, e, node, low)
    ensures forall x :: x in gray ==> x in e.stack[..|before.stack|]
  {
    hide Reach;
    assert e.stack[..|before.stack|] == before.stack;
    forall i, j | |before.stack| <= i < |e.stack| && 0 <= j < |before.stack| && e.stack[j] in Succ(g, e.stack[i])
      ensures low <= e.indices[e.stack[j]]
    {
      assert e.stack[j] == before.stack[j];
    }
  }

  lemma PushKeepsWf<N(!new)>(g: Graph<N>, gray: set<N>, e: Env<N>, v: N, n: nat, e': Env<N>)
    requires Wf(g, gray, e) && v !in e.indices
    requires forall x :: x in e.indices ==> e.indices[x] < n
    requires forall x :: x in gray ==> Reach(g, x, v)
    requires e' == Env(e.indices[v := n], e.stack + [v], e.cycles)
    ensures Wf(g, gray + {v}, e')
    ensures LowReal(g, e', v, n)
  {
    hide Reach, Anchored, CyclicScc;
    assert e'.stack[|e.stack|] == v;
    assert forall x :: x in e'.stack <==> x in e.stack || x == v;
    assert forall x :: e.Done(x) <==> e'.Done(x);
    assert StackLinked(g, gray + {v}, e') by { PushKeepsLinked(g, gray, e, v, n, e'); }
    assert LowReal(g, e', v, n) by { ReachRefl(g, v); }
    assert Reported(g, e') by { hide StackLinked, Contained; }
  }

  lemma PushKeepsLinked<N(!new)>(g: Graph<N>, gray: set<N>, e: Env<N>, v: N, n: nat, e': Env<N>)
    requires e.StackSorted() && StackLinked(g, gray, e) && v !in e.indices
    requires forall x :: x in e.indices ==> e.indices[x] < n
    requires forall x :: x in gray ==> Reach(g, x, v)
    requires e' == Env(e.indices[v := n], e.stack + [v], e.cycles)
    ensures e'.StackSorted() && StackLinked(g, gray + {v}, e')
  {
    hide Reach, Anchored;
    ReachRefl(g, v);
    assert forall i :: 0 <= i < |e.stack| ==> e'.stack[i] == e.stack[i];
    forall i, j | 0 <= i <= j < |e'.stack| ensures Reach(g, e'.stack[i], e'.stack[j]) {
      if i < |e.stack| == j {
        var w := AnchorOf(g, gray, e, e.stack[i]);
        ReachTrans(g, e.stack[i], w, v);
      }
    }
    forall x | x in e'.stack ensures Anchored(g, gray + {v}, e', x) {
      var w := v;
      if x in e.stack { w := AnchorOf(g, gray, e, x); }
      AnchorBy(g, gray + {v}, e', x, w);
    }
  }

  /** The call on `v` returns while `v` still reaches a lower open node: `v` turns black on the stack. */
  lemma BlackenKeepsWf<N(!new)>(g: Graph<N>, gray: set<N>, e: Env<N>, v: N, low: nat)
    requires v !in gray && Wf(g, gray + {v}, e) && v in e.indices
    requires Succ(g, v) <= e.indices.Keys
    requires LowReal(g, e, v, low) && low < e.indices[v]
    ensures Wf(g, gray, e)
  {
    hide Reach, Anchored, Reported;
    var t :| t in e.stack && e.indices[t] == low && Reach(g, v, t);
    var a := AnchorOf(g, gray + {v}, e, t);
    ReachTrans(g, v, t, a);
    forall x | x in e.stack ensures Anchored(g, gray, e, x) {
      var w := AnchorOf(g, gray + {v}, e, x);
      if w == v {
        ReachTrans(g, x, v, a);
        AnchorBy(g, gray, e, x, a);
      } else {
        AnchorBy(g, gray, e, x, w);
      }
    }
  }

  /** The state in which the call on `v`, at stack position `base`, has seen all its successors. */
  ghost predicate AtRoot<N(!new)>(g: Graph<N>, gray: set<N>, e: Env<N>, v: N, base: nat, comp: set<N>) {
    && e.StackSorted() && StackLinked(g, gray + {v}, e) && Contained(g, gray + {v}, e)
    && base < |e.stack| && e.stack[base] == v
    && (forall x :: x in gray ==> x in e.stack[..base])
    && Succ(g, v) <= e.indices.Keys
    && LowBounds(g, e, base, e.indices[v])
    && (forall x :: x in comp <==> x in e.stack[base..])
  }

  lemma StackSplit<N>(e: Env<N>, base: nat)
    requires e.StackSorted() && base <= |e.stack|
    ensures forall x :: x in e.stack <==> x in e.stack[..base] || x in e.stack[base..]
    ensures forall x :: x in e.stack[..base] ==> x !in e.stack[base..]
  {
    assert e.stack == e.stack[..base] + e.stack[base..];
  }

  /** Edges out of a root's component end in the component or among the popped nodes. */
  lemma RootContains<N(!new)>(g: Graph<N>, gray: set<N>, e: Env<N>, v: N, base: nat, comp: set<N>, x: N, y: N)
    requires AtRoot(g, gray, e, v, base, comp) && x in comp && y in Succ(g, x)
    ensures y in comp || e.Done(y)
  {
    hide Reach, StackLinked;
    StackSplit(e, base);
    var i :| base <= i < |e.stack| && e.stack[i] == x;
    assert y in e.indices;
  }

  lemma RootMutual<N(!new)>(g: Graph<N>, gray: set<N>, e: Env<N>, v: N, base: nat, comp: set<N>, x: N)
    requires AtRoot(g, gray, e, v, base, comp) && x in comp
    ensures Mutual(g, v, x)
  {
    hide Reach, Anchored, LowBounds;
    StackSplit(e, base);
    var settled := comp + set z | z in e.indices && e.Done(z);
    forall z, y | z in comp && y in Succ(g, z) ensures y in settled {
      RootContains(g, gray, e, v, base, comp, z, y);
    }
    assert ClosedUnderSucc(g, settled);
    var i :| base <= i < |e.stack| && e.stack[i] == x;
    assert Reach(g, e.stack[base], e.stack[i]);
    var w := AnchorOf(g, gray + {v}, e, x);
    ClosedContainsReach(g, settled, x, w);
  }

  /** Everything on the stack from a root upwards is exactly one strongly connected component. */
  lemma RootComponent<N(!new)>(g: Graph<N>, gray: set<N>, e: Env<N>, v: N, base: nat, comp: set<N>)
    requires AtRoot(g, gray, e, v, base, comp)
    ensures IsScc(g, comp) && v in comp
    ensures forall x, y :: x in comp && y in Succ(g, x) ==> y in comp || e.Done(y)
  {
    hide Reach, Anchored, LowBounds, StackLinked;
    StackSplit(e, base);
    assert e.stack[base..][0] == v;
    assert v in comp;
    var popped := set x | x in e.indices && e.Done(x);
    forall x, y | x in comp && y in Succ(g, x) ensures y in comp || e.Done(y) {
      RootContains(g, gray, e, v, base, comp, x, y);
    }
    assert ClosedUnderSucc(g, popped) && ClosedUnderSucc(g, comp + popped);
    forall x, y | x in comp ensures y in comp <==> Mutual(g, x, y) {
      RootMutual(g, gray, e, v, base, comp, x);
      if y in comp {
        RootMutual(g, gray, e, v, base, comp, y);
        ReachTrans(g, x, v, y);
        ReachTrans(g, y, v, x);
      }
      if Mutual(g, x, y) {
        ClosedContainsReach(g, comp + popped, x, y);
        if y in popped {
          ClosedContainsReach(g, popped, y, x);
        }
      }
    }
  }

  lemma PopKeepsLinked<N(!new)>(g: Graph<N>, gray: set<N>, e: Env<N>, v: N, base: nat, e': Env<N>)
    requires e.StackSorted() && StackLinked(g, gray + {v}, e)
    requires base < |e.stack| && e.stack[base] == v
    requires e'.indices == e.indices && e'.stack == e.stack[..base]
    ensures e'.StackSorted() && StackLinked(g, gray, e')
  {
    hide Reach, Anchored;
    assert forall i :: 0 <= i < base ==> e'.stack[i] == e.stack[i];
    forall x | x in e'.stack ensures Anchored(g, gray, e', x) {
      var i :| 0 <= i < base && e.stack[i] == x;
      var w := AnchorOf(g, gray + {v}, e, x);
      AnchorBy(g, gray, e', x, w);
    }
  }

  /** Popping a root's component keeps the invariant; the component is reported iff it is cyclic. */
  lemma PopKeepsWf<N(!new)>(g: Graph<N>, gray: set<N>, e: Env<N>, v: N, base: nat, comp: set<N>, e': Env<N>)
    requires AtRoot(g, gray, e, v, base, comp) && v !in gray && Reported(g, e)
    requires e' == Env(e.indices, e.stack[..base],
                       if |comp| > 1 || v in Succ(g, v) then e.cycles + [comp] else e.cycles)
    ensures Wf(g, gray, e')
  {
    hide Reach, Reported, IsScc, StackLinked, LowBounds;
    StackSplit(e, base);
    RootComponent(g, gray, e, v, base, comp);
    PopKeepsLinked(g, gray, e, v, base, e');
    assert forall x :: e'.Done(x) <==> e.Done(x) || x in comp;
    PopReports(g, e, v, comp, e');
  }

  lemma PopReports<N(!new)>(g: Graph<N>, e: Env<N>, v: N, comp: set<N>, e': Env<N>)
    requires Reported(g, e) && IsScc(g, comp) && v in comp
    requires forall x :: e'.Done(x) <==> e.Done(x) || x in comp
    requires forall x :: x in comp ==> !e.Done(x)
    requires e'.cycles == if |comp| > 1 || v in Succ(g, v) then e.cycles + [comp] else e.cycles
    ensures Reported(g, e')
  {
    hide Mutual;
    assert comp !in e.cycles;
    assert CyclicScc(g, comp) <==> |comp| > 1 || v in Succ(g, v) by {
      if |comp| <= 1 {
        assert |comp - {v}| == 0;
        assert comp == {v};
      }
    }
    forall c ensures c in e'.cycles <==> CyclicScc(g, c) && forall x :: x in c ==> e'.Done(x) {
      if CyclicScc(g, c) && exists x :: x in c && x in comp {
        var x :| x in c && x in comp;
        if c != comp { SccsDisjoint(g, c, comp); }
      }
    }
  }

  lemma NoEdgesAbove<N(!new)>(g: Graph<N>, e: Env<N>, low: nat)
    requires e.StackSorted()
    ensures LowBounds(g, e, |e.stack|, low)
  {
  }

  /** The search itself, with the shared variables of the nested `strongconnect` as fields. */
  class Search<N(==, !new)> {
    const edges: Graph<N>
    var indexCounter: nat
    var indices: map<N, nat>
    var lowlinks: map<N, nat>
    var stack: seq<N>
    var onStack: set<N>
    var cycles: seq<set<N>>

    constructor (edges: Graph<N>)
      ensures this.edges == edges && Valid({}) && indices == map[] && cycles == []
    {
      this.edges := edges;
      indexCounter, indices, lowlinks, stack, onStack, cycles := 0, map[], map[], [], {}, [];
      new;
      assert Reported(edges, Snapshot()) by {
        forall c | CyclicScc(edges, c) ensures exists x :: x in c && !Snapshot().Done(x) {
          var x :| x in c;
          assert !Snapshot().Done(x);
        }
      }
    }

    ghost function Snapshot(): Env<N>
      reads this
    {
      Env(indices, stack, cycles)
    }

    ghost predicate Valid(gray: set<N>)
      reads this
    {
      && Wf(edges, gray, Snapshot())
      && (forall x :: x in onStack <==> x in stack)
      && (forall x :: x in indices ==> indices[x] < indexCounter && x in lowlinks && x in Nodes(edges))
    }

    method StrongConnect(node: N, ghost gray: set<N>)
      requires Valid(gray) && node !in indices && node in Nodes(edges)
      requires forall x :: x in gray ==> Reach(edges, x, node)
      modifies this
      ensures Valid(gray) && node in indices && indices[node] == old(indexCounter)
      ensures Extends(old(Snapshot()), Snapshot())
      ensures forall x :: x in old(indices) ==> lowlinks[x] == old(lowlinks[x])
      ensures lowlinks[node] <= indices[node]
      ensures LowBounds(edges, Snapshot(), |old(stack)|, lowlinks[node])
      ensures (stack == old(stack) && lowlinks[node] == indices[node]) || LowReal(edges, Snapshot(), node, lowlinks[node])
      decreases Nodes(edges) - indices.Keys, 0
    {
      hide Reach, StackLinked, Contained, Reported, Scanning, LowBounds, LowReal;
      ghost var before := Snapshot();
      Open(node, gray);
      var todo := Succ(edges, node);
      assert Succ(edges, node) - todo == {};
      while todo != {}
        invariant todo <= Succ(edges, node) && node in indices && indices[node] == old(indexCounter)
        invariant Valid(gray + {node})
        invariant Scanning(edges, before, Snapshot(), node, Succ(edges, node) - todo, lowlinks[node])
        invariant forall x :: x in before.indices ==> x in indices && x in lowlinks && lowlinks[x] == old(lowlinks[x])
        decreases todo
      {
        var successor :| successor in todo;
        ghost var seen := Succ(edges, node) - todo;
        todo := todo - {successor};
        assert Succ(edges, node) - todo == seen + {successor};
        Visit(node, successor, gray, before, seen);
      }
      assert Succ(edges, node) - todo == Succ(edges, node);
      Close(node, gray, before);
    }

    /** Gives `node` its discovery index and pushes it. */
    method Open(node: N, ghost gray: set<N>)
      requires Valid(gray) && node !in indices && node in Nodes(edges)
      requires forall x :: x in gray ==> Reach(edges, x, node)
      modifies this
      ensures Valid(gray + {node}) && indices == old(indices)[node := old(indexCounter)]
      ensures lowlinks == old(lowlinks)[node := old(indexCounter)]
      ensures Scanning(edges, old(Snapshot()), Snapshot(), node, {}, lowlinks[node])
    {
      hide Reach, StackLinked, Contained, Reported, Scanning, LowBounds, LowReal;
      ghost var before := Snapshot();
      indices := indices[node := indexCounter];
      lowlinks := lowlinks[node := indexCounter];
      indexCounter := indexCounter + 1;
      stack := stack + [node];
      onStack := onStack + {node};
      PushKeepsWf(edges, gray, before, node, indices[node], Snapshot());
      ScanStart(edges, before, Snapshot(), node);
    }

    /** One pass of the loop over successors: recurse, or look at the stack, or skip. */
    method Visit(node: N, successor: N, ghost gray: set<N>, ghost before: Env<N>, ghost seen: set<N>)
      requires Valid(gray + {node}) && node in indices && successor in Succ(edges, node)
      requires forall x :: x in gray ==> Reach(edges, x, node)
      requires Scanning(edges, before, Snapshot(), node, seen, lowlinks[node])
      modifies this
      ensures Valid(gray + {node}) && Extends(old(Snapshot()), Snapshot())
      ensures Scanning(edges, before, Snapshot(), node, seen + {successor}, lowlinks[node])
      ensures forall x :: x in old(indices) && x != node ==> lowlinks[x] == old(lowlinks[x])
      decreases Nodes(edges) - indices.Keys, 1
    {
      hide Reach, StackLinked, Contained, Reported, Scanning, LowBounds, LowReal;
      ghost var e := Snapshot();
      if successor !in indices {
        forall x | x in gray + {node} ensures Reach(edges, x, successor) {
          ReachEdge(edges, node, successor);
          if x != node { ReachTrans(edges, x, node, successor); }
        }
        StrongConnect(successor, gray + {node});
        ScanChild(edges, before, e, node, seen, lowlinks[node], successor, Snapshot(), lowlinks[successor]);
        lowlinks := lowlinks[node := if lowlinks[successor] < lowlinks[node] then lowlinks[successor] else lowlinks[node]];
      } else if successor in onStack {
        ScanStacked(edges, before, e, node, seen, lowlinks[node], successor);
        lowlinks := lowlinks[node := if indices[successor] < lowlinks[node] then indices[successor] else lowlinks[node]];
      } else {
        ScanPopped(edges, before, e, node, seen, lowlinks[node], successor);
      }
    }

    /** All successors are seen: pop the component if `node` is its root, else leave `node` on the stack. */
    method Close(node: N, ghost gray: set<N>, ghost before: Env<N>)
      requires Valid(gray + {node}) && node in indices && node !in gray
      requires forall x :: x in gray ==> x in before.stack
      requires Scanning(edges, before, Snapshot(), node, Succ(edges, node), lowlinks[node])
      modifies this`stack, this`onStack, this`cycles
      ensures Valid(gray) && Extends(before, Snapshot()) && lowlinks[node] <= indices[node]
      ensures LowBounds(edges, Snapshot(), |before.stack|, lowlinks[node])
      ensures (stack == before.stack && lowlinks[node] == indices[node]) || LowReal(edges, Snapshot(), node, lowlinks[node])
    {
      hide Reach, StackLinked, Contained, Reported, Scanning, LowBounds, LowReal;
      ghost var e, base := Snapshot(), |before.stack|;
      ScanEnds(edges, gray, before, e, node, lowlinks[node]);
      if lowlinks[node] == indices[node] {
        var component := PopComponent(node, base);
        if |component| > 1 || node in Succ(edges, node) {
          cycles := cycles + [component];
        }
        PopKeepsWf(edges, gray, e, node, base, component, Snapshot());
        assert stack == before.stack;
        NoEdgesAbove(edges, Snapshot(), lowlinks[node]);
      } else {
        BlackenKeepsWf(edges, gray, e, node, lowlinks[node]);
      }
    }

    /** The `while True: member = stack.pop()` loop: removes everything from `node` upwards. */
    method PopComponent(node: N, ghost base: nat) returns (component: set<N>)
      requires Snapshot().StackSorted() && base < |stack| && stack[base] == node
      requires forall x :: x in onStack <==> x in stack
      modifies this`stack, this`onStack
      ensures stack == old(stack)[..base]
      ensures forall x :: x in onStack <==> x in stack
      ensures forall x :: x in component <==> x in old(stack)[base..]
    {
      component := {};
      ghost var k := |stack|;
      while true
        invariant base < k == |stack| <= |old(stack)| && stack == old(stack)[..k]
        invariant forall x :: x in onStack <==> x in stack
        invariant forall x :: x in component <==> x in old(stack)[k..]
        decreases k
      {
        var member := stack[|stack| - 1];
        stack := stack[..|stack| - 1];
        k := k - 1;
        assert old(stack)[k..] == [member] + old(stack)[k + 1..];
        assert old(stack)[..k + 1] == old(stack)[..k] + [member];
        assert forall j :: 0 <= j < k ==> old(stack)[j] != member;
        onStack := onStack - {member};
        component := component + {member};
        if member == node {
          assert k == base;
          break;
        }
      }
    }
  }

  /**
   * Every maximal strongly connected component with a cycle is returned, nothing else is, and none twice.
   */
  method FindCycles<N(==, !new)>(edges: Graph<N>) returns (cycles: seq<set<N>>)
    ensures forall c :: c in cycles <==> CyclicScc(edges, c)
    ensures forall i, j :: 0 <= i < j < |cycles| ==> cycles[i] !! cycles[j]
  {
    hide Reach;
    var search := new Search(edges);
    var todo := edges.Keys;
    while todo != {}
      invariant todo <= edges.Keys && search.edges == edges && fresh(search)
      invariant search.Valid({}) && edges.Keys - todo <= search.indices.Keys
      decreases todo
    {
      var node :| node in todo;
      todo := todo - {node};
      if node !in search.indices {
        search.StrongConnect(node, {});
      }
    }
    cycles := search.cycles;
    ghost var e := search.Snapshot();
    assert e.stack == [] by {
      if e.stack != [] {
        var w := AnchorOf(edges, {}, e, e.stack[0]);
      }
    }
    forall c | CyclicScc(edges, c) ensures forall x :: x in c ==> e.Done(x) {
      forall x | x in c ensures e.Done(x) {
        CyclicSccHasEdges(edges, c, x);
      }
    }
    forall i, j | 0 <= i < j < |cycles| ensures cycles[i] !! cycles[j] {
      assert cycles[i] in cycles && cycles[j] in cycles;
      SccsDisjoint(edges, cycles[i], cycles[j]);
    }
  }

  lemma CyclicSccHasEdges<N(!new)>(g: Graph<N>, c: set<N>, x: N)
    requires CyclicScc(g, c) && x in c
    ensures OnCycle(g, x) && x in g
  {
    hide Reach;
    if |c| > 1 {
      assert c != {x};
      var y :| y in c && y != x;
      assert Mutual(g, x, y);
    } else {
      assert |c - {x}| == 0;
      var z :| z in c && z in Succ(g, z);
      assert z == x;
    }
    OnCycleIff(g, x);
    OnCycleIsKey(g, x);
  }

  lemma SccsDisjoint<N(!new)>(g: Graph<N>, c: set<N>, d: set<N>)
    requires IsScc(g, c) && IsScc(g, d) && c != d
    ensures c !! d
  {
    hide Reach;
    if x :| x in c && x in d {
      assert forall y :: y in c <==> Mutual(g, x, y);
    }
  }

  /** Every directed cycle lies wholly inside one reported component. */
  lemma CycleInsideOne<N(!new)>(g: Graph<N>, p: seq<N>) returns (c: set<N>)
    requires ClosedWalk(g, p)
    ensures CyclicScc(g, c) && forall x :: x in p ==> x in c
  {
    hide Reach;
    var nodes := Nodes(g);
    c := set y | y in nodes && Mutual(g, p[0], y);
    assert p[1] in Succ(g, p[0]);
    ClosedWalkMutual(g, p, p[0], p[0]);
    forall x, y | x in c ensures y in c <==> Mutual(g, x, y) {
      if y in c {
        ReachTrans(g, x, p[0], y);
        ReachTrans(g, y, p[0], x);
      }
      if Mutual(g, x, y) {
        ReachTrans(g, p[0], x, y);
        ReachTrans(g, y, x, p[0]);
        ClosedContainsReach(g, nodes, p[0], y);
      }
    }
    forall x | x in p ensures x in c {
      ClosedWalkMutual(g, p, p[0], x);
      ClosedContainsReach(g, nodes, p[0], x);
    }
    if p[1] != p[0] {
      assert {p[0], p[1]} <= c;
      assert |c - {p[0]} - {p[1]}| + 2 == |c|;
    }
  }
}
