/** What pruning keeps, said with chains. */
module PruningChains {
  import opened Prelude
  import opened DataPoints
  import opened LiteGraph
  import opened Availability
  import opened Pruning

  /** Something `made` is a kind of something `wanted`. */
  ghost predicate Serves(made: set<Class>, wanted: set<Class>) {
    exists c, d :: c in made && d in wanted && d.name in c.mro
  }

  /** Each operator produces for the next, and the last for a sink. */
  ghost predicate OpChain(operators: seq<Operator>, sinks: set<Class>, p: seq<Operator>) {
    && p != [] && (forall i :: 0 <= i < |p| ==> p[i] in operators)
    && (forall i :: 0 <= i < |p| - 1 ==> Serves(p[i].produces, p[i + 1].dependsOn))
    && Serves(p[|p| - 1].produces, sinks)
  }

  /** Each capability provides for the next, and the last for one of the operators. */
  ghost predicate CapChain(capabilities: seq<Capability>, ops: set<Operator>, p: seq<Capability>) {
    && p != [] && (forall i :: 0 <= i < |p| ==> p[i] in capabilities)
    && (forall i :: 0 <= i < |p| - 1 ==> Serves({p[i].self}, p[i + 1].requires_))
    && exists op :: op in ops && Serves({p[|p| - 1].self}, op.requires_)
  }

  /** What pruning keeps: the operators a chain leads from to a sink, and the capabilities one leads from to a kept operator. */
  lemma KeptIffChain(operators: seq<Operator>, capabilities: seq<Capability>, sinks: set<Class>, keptOps: set<Operator>, keptCaps: set<Capability>)
    requires IsLeastOps(operators, sinks, keptOps) && IsLeastCaps(capabilities, keptOps, keptCaps)
    ensures forall op :: op in keptOps <==> exists p :: OpChain(operators, sinks, p) && p[0] == op
    ensures forall c :: c in keptCaps <==> exists p :: CapChain(capabilities, keptOps, p) && p[0] == c
  {
    hide Serves;
    var ops := set op | op in operators && exists p :: OpChain(operators, sinks, p) && p[0] == op;
    ChainedOpsClosed(operators, sinks, ops);
    forall p | OpChain(operators, sinks, p) ensures p[0] in keptOps { OpChainKept(operators, sinks, keptOps, p, 0); }
    var caps := set c | c in capabilities && exists p :: CapChain(capabilities, keptOps, p) && p[0] == c;
    ChainedCapsClosed(capabilities, keptOps, caps);
    forall p | CapChain(capabilities, keptOps, p) ensures p[0] in keptCaps { CapChainKept(capabilities, keptOps, keptCaps, p, 0); }
  }

  lemma ProducesIs(op: Operator, needed: set<Class>)
    ensures Produces(op, needed) <==> Serves(op.produces, needed)
  {
    if c, d :| c in op.produces && d in needed && d.name in c.mro { assert IsSubclass(c, d); }
  }

  lemma ProvidesIs(cap: Capability, required: set<Class>)
    ensures Provides(cap, required) <==> Serves({cap.self}, required)
  {
    if d :| d in required && d.name in cap.self.mro { assert IsSubclass(cap.self, d); }
  }

  lemma ChainedOpsClosed(operators: seq<Operator>, sinks: set<Class>, ops: set<Operator>)
    requires forall op :: op in ops <==> op in operators && exists p :: OpChain(operators, sinks, p) && p[0] == op
    ensures ClosedOps(operators, sinks, ops)
  {
    forall op | op in operators && Produces(op, Needed(sinks, ops)) ensures op in ops {
      ProducesIs(op, Needed(sinks, ops));
      var c, d :| c in op.produces && d in Needed(sinks, ops) && d.name in c.mro;
      if d in sinks {
        assert OpChain(operators, sinks, [op]);
      } else {
        var next :| next in ops && d in next.dependsOn;
        var p :| OpChain(operators, sinks, p) && p[0] == next;
        assert OpChain(operators, sinks, [op] + p) by { LongerOps(operators, sinks, op, p); }
      }
    }
  }

  lemma LongerOps(operators: seq<Operator>, sinks: set<Class>, op: Operator, p: seq<Operator>)
    requires OpChain(operators, sinks, p) && op in operators && Serves(op.produces, p[0].dependsOn)
    ensures OpChain(operators, sinks, [op] + p)
  {
    hide Serves;
  }

  lemma {:induction false} OpChainKept(operators: seq<Operator>, sinks: set<Class>, kept: set<Operator>, p: seq<Operator>, i: nat)
    requires OpChain(operators, sinks, p) && ClosedOps(operators, sinks, kept) && i < |p|
    ensures p[i] in kept
    decreases |p| - i
  {
    if i < |p| - 1 { OpChainKept(operators, sinks, kept, p, i + 1); }
    ProducesIs(p[i], Needed(sinks, kept));
    var wanted := if i < |p| - 1 then p[i + 1].dependsOn else sinks;
    assert Serves(p[i].produces, wanted) && wanted <= Needed(sinks, kept);
  }

  lemma ChainedCapsClosed(capabilities: seq<Capability>, ops: set<Operator>, caps: set<Capability>)
    requires forall c :: c in caps <==> c in capabilities && exists p :: CapChain(capabilities, ops, p) && p[0] == c
    ensures ClosedCaps(capabilities, ops, caps)
  {
    forall c | c in capabilities && Provides(c, RequiredBy(ops, caps)) ensures c in caps {
      ProvidesIs(c, RequiredBy(ops, caps));
      var d :| d in RequiredBy(ops, caps) && d.name in c.self.mro;
      if op :| op in ops && d in op.requires_ {
        assert Serves({c.self}, op.requires_);
        assert CapChain(capabilities, ops, [c]);
      } else {
        var next :| next in caps && d in next.requires_;
        var p :| CapChain(capabilities, ops, p) && p[0] == next;
        assert Serves({c.self}, next.requires_);
        assert CapChain(capabilities, ops, [c] + p) by { LongerCaps(capabilities, ops, c, p); }
      }
    }
  }

  lemma LongerCaps(capabilities: seq<Capability>, ops: set<Operator>, c: Capability, p: seq<Capability>)
    requires CapChain(capabilities, ops, p) && c in capabilities && Serves({c.self}, p[0].requires_)
    ensures CapChain(capabilities, ops, [c] + p)
  {
    hide Serves;
  }

  lemma {:induction false} CapChainKept(capabilities: seq<Capability>, ops: set<Operator>, kept: set<Capability>, p: seq<Capability>, i: nat)
    requires CapChain(capabilities, ops, p) && ClosedCaps(capabilities, ops, kept) && i < |p|
    ensures p[i] in kept
    decreases |p| - i
  {
    ProvidesIs(p[i], RequiredBy(ops, kept));
    if i < |p| - 1 {
      CapChainKept(capabilities, ops, kept, p, i + 1);
      assert Serves({p[i].self}, p[i + 1].requires_) && p[i + 1].requires_ <= RequiredBy(ops, kept);
    } else {
      var op :| op in ops && Serves({p[i].self}, op.requires_);
      assert op.requires_ <= RequiredBy(ops, kept);
    }
  }

  /** When an operator of the pruned flow runs, by class names and the kept capabilities alone. */
  lemma PrunedCanRun(registered: Registry, permitted: set<string>, keptCaps: set<Capability>, present: set<Class>, available: set<string>, op: Operator)
    requires IsLeast(Restricted(registered, keptCaps), permitted, present, available)
    ensures CanRun(Restricted(registered, keptCaps), permitted, present, op) <==>
      && (forall d :: d in op.dependsOn ==> exists p :: p in present && d.name in p.mro)
      && (forall r :: r in op.requires_ ==>
            exists id :: id in available && id in registered && registered[id] in keptCaps && r.name in registered[id].self.mro)
  {
    var few := Restricted(registered, keptCaps);
    AvailableIsLeast(few, permitted, present);
    assert available == Available(few, permitted, present);
    DataByName(op.dependsOn, present);
    ProvidersByName(op.requires_, available, few);
    hide DepsPresent, RequiresAvailable;
    assert forall id :: id in few <==> id in registered && registered[id] in keptCaps;
  }
}
