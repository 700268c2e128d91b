/** Pruning to what the sinks need, and why it loses none of them. */
module Pruning {
  import opened Prelude
  import opened DataPoints
  import opened LiteGraph
  import opened Availability

  // An operator's `produces` stands for its effective produces, abstract types expanded to their leaves.

  // ----- the backward closure -----

  function All(operators: seq<Operator>): set<Operator> {
    set op | op in operators
  }

  /** What the sinks and the kept operators need. */
  function Needed(sinks: set<Class>, kept: set<Operator>): set<Class> {
    sinks + set op, d | op in kept && d in op.dependsOn :: d
  }

  predicate Produces(op: Operator, needed: set<Class>) {
    exists p, n :: p in op.produces && n in needed && IsSubclass(p, n)
  }

  /** Every operator producing something needed is kept. */
  ghost predicate ClosedOps(operators: seq<Operator>, sinks: set<Class>, kept: set<Operator>) {
    forall op :: op in operators && Produces(op, Needed(sinks, kept)) ==> op in kept
  }

  ghost predicate IsLeastOps(operators: seq<Operator>, sinks: set<Class>, kept: set<Operator>) {
    && ClosedOps(operators, sinks, kept)
    && forall k :: ClosedOps(operators, sinks, k) ==> kept <= k
  }

  /** What the kept operators and capabilities require. */
  function RequiredBy(ops: set<Operator>, caps: set<Capability>): set<Class> {
    (set op, r | op in ops && r in op.requires_ :: r) + (set c, r | c in caps && r in c.requires_ :: r)
  }

  predicate Provides(cap: Capability, required: set<Class>) {
    exists r :: r in required && IsSubclass(cap.self, r)
  }

  /** Every capability something kept requires is kept, through every layer. */
  ghost predicate ClosedCaps(capabilities: seq<Capability>, ops: set<Operator>, kept: set<Capability>) {
    forall c :: c in capabilities && Provides(c, RequiredBy(ops, kept)) ==> c in kept
  }

  ghost predicate IsLeastCaps(capabilities: seq<Capability>, ops: set<Operator>, kept: set<Capability>) {
    && ClosedCaps(capabilities, ops, kept)
    && forall k :: ClosedCaps(capabilities, ops, k) ==> kept <= k
  }

  lemma ProducesMore(op: Operator, a: set<Class>, b: set<Class>)
    requires a <= b && Produces(op, a)
    ensures Produces(op, b)
  {
  }

  /** The operators producing, through any number of steps, toward the sinks, and the capabilities they require. */
  method BackwardReachable(operators: seq<Operator>, capabilities: seq<Capability>, sinks: set<Class>)
    returns (keptOps: set<Operator>, keptCaps: set<Capability>)
    ensures IsLeastOps(operators, sinks, keptOps) && IsLeastCaps(capabilities, keptOps, keptCaps)
    ensures sinks == {} ==> keptOps == {} && keptCaps == {}
  {
    keptOps := KeepOperators(operators, sinks);
    keptCaps := KeepCapabilities(capabilities, keptOps);
    if sinks == {} {
      assert ClosedOps(operators, sinks, {});
      assert ClosedCaps(capabilities, {}, {});
    }
  }

  method KeepOperators(operators: seq<Operator>, sinks: set<Class>) returns (kept: set<Operator>)
    ensures IsLeastOps(operators, sinks, kept)
  {
    var needed := sinks;
    kept := {};
    var changed := true;
    ghost var all := All(operators);
    while changed
      invariant kept <= all && needed == Needed(sinks, kept)
      invariant forall k :: ClosedOps(operators, sinks, k) ==> kept <= k
      invariant !changed ==> ClosedOps(operators, sinks, kept)
      decreases |all - kept|, changed
    {
      changed := false;
      ghost var start := kept;
      for i := 0 to |operators|
        invariant start <= kept <= all && needed == Needed(sinks, kept) && (changed <==> kept != start)
        invariant forall k :: ClosedOps(operators, sinks, k) ==> kept <= k
        invariant !changed ==> forall j :: 0 <= j < i && Produces(operators[j], needed) ==> operators[j] in kept
      {
        var op := operators[i];
        assert op in operators;
        if op !in kept && Produces(op, needed) {
          forall k | ClosedOps(operators, sinks, k) ensures op in k {
            ProducesMore(op, needed, Needed(sinks, k));
          }
          kept, needed, changed := kept + {op}, needed + op.dependsOn, true;
        }
      }
      if changed { FewerLeft(all, start, kept); }
    }
  }

  method KeepCapabilities(capabilities: seq<Capability>, ops: set<Operator>) returns (kept: set<Capability>)
    ensures IsLeastCaps(capabilities, ops, kept)
  {
    hide RequiredBy, Provides;
    kept := {};
    var changed := true;
    ghost var all := set c | c in capabilities;
    while changed
      invariant kept <= all
      invariant forall k :: ClosedCaps(capabilities, ops, k) ==> kept <= k
      invariant !changed ==> ClosedCaps(capabilities, ops, kept)
      decreases |all - kept|, changed
    {
      changed := false;
      ghost var start := kept;
      var required := RequiredBy(ops, kept);
      for i := 0 to |capabilities|
        invariant start <= kept <= all && (changed <==> kept != start)
        invariant forall k :: ClosedCaps(capabilities, ops, k) ==> kept <= k
        invariant forall j :: 0 <= j < i && Provides(capabilities[j], required) ==> capabilities[j] in kept
      {
        var provider := capabilities[i];
        assert provider in capabilities;
        if provider !in kept && Provides(provider, required) {
          EveryCloses(capabilities, ops, start, provider);
          kept, changed := kept + {provider}, true;
        }
      }
      if changed { FewerLeft(all, start, kept); }
    }
  }

  /** What a subset of every closed set makes needed is in every closed set. */
  lemma EveryCloses(capabilities: seq<Capability>, ops: set<Operator>, start: set<Capability>, provider: Capability)
    requires forall k :: ClosedCaps(capabilities, ops, k) ==> start <= k
    requires provider in capabilities && Provides(provider, RequiredBy(ops, start))
    ensures forall k :: ClosedCaps(capabilities, ops, k) ==> provider in k
  {
    forall k | ClosedCaps(capabilities, ops, k) ensures provider in k {
      ProvidesMore(provider, RequiredBy(ops, start), RequiredBy(ops, k));
    }
  }

  lemma ProvidesMore(cap: Capability, a: set<Class>, b: set<Class>)
    requires a <= b && Provides(cap, a)
    ensures Provides(cap, b)
  {
  }

  // ----- running forward -----

  /** One operator run and the types it emitted. */
  datatype Firing = Firing(op: Operator, emitted: set<Class>)

  function Present(seed: set<Class>, run: seq<Firing>): set<Class> {
    if run == [] then seed else Present(seed, run[..|run| - 1]) + run[|run| - 1].emitted
  }

  ghost predicate CanRun(registered: Registry, permitted: set<string>, present: set<Class>, op: Operator) {
    && DepsPresent(op.dependsOn, present)
    && RequiresAvailable(op.requires_, Available(registered, permitted, present), registered)
  }

  /** Each operator runs when it is ready, and emits only what it produces. */
  ghost predicate IsRun(ops: set<Operator>, registered: Registry, permitted: set<string>, seed: set<Class>, run: seq<Firing>) {
    run != [] ==>
      var init, last := run[..|run| - 1], run[|run| - 1];
      && IsRun(ops, registered, permitted, seed, init)
      && last.op in ops && last.emitted <= last.op.produces && CanRun(registered, permitted, Present(seed, init), last.op)
  }

  function Kept(run: seq<Firing>, ops: set<Operator>): seq<Firing> {
    if run == [] then []
    else Kept(run[..|run| - 1], ops) + if run[|run| - 1].op in ops then [run[|run| - 1]] else []
  }

  function Restricted(registered: Registry, caps: set<Capability>): Registry {
    map id | id in registered && registered[id] in caps :: registered[id]
  }

  // ----- the closure that follows capabilities' data too -----

  /** What the sinks, the kept operators and the kept capabilities need. */
  function NeededByAll(sinks: set<Class>, ops: set<Operator>, caps: set<Capability>): set<Class> {
    Needed(sinks, ops) + set c, d | c in caps && d in c.dependsOn :: d
  }

  /** Everything producing toward the sinks is kept, what capabilities wait for included, and every provider. */
  ghost predicate ClosedFlow(operators: seq<Operator>, capabilities: seq<Capability>, sinks: set<Class>,
                             ops: set<Operator>, caps: set<Capability>) {
    && (forall op :: op in operators && Produces(op, NeededByAll(sinks, ops, caps)) ==> op in ops)
    && ClosedCaps(capabilities, ops, caps)
  }

  ghost predicate IsLeastFlow(operators: seq<Operator>, capabilities: seq<Capability>, sinks: set<Class>,
                              ops: set<Operator>, caps: set<Capability>) {
    && ClosedFlow(operators, capabilities, sinks, ops, caps)
    && forall o, c :: ClosedFlow(operators, capabilities, sinks, o, c) ==> ops <= o && caps <= c
  }

  /** There is such a least closure for every flow. */
  lemma LeastFlowExists(operators: seq<Operator>, capabilities: seq<Capability>, sinks: set<Class>)
      returns (ops: set<Operator>, caps: set<Capability>)
    ensures IsLeastFlow(operators, capabilities, sinks, ops, caps) && ops <= All(operators)
  {
    hide Produces, Provides, NeededByAll, RequiredBy;
    ops := set op | op in operators && forall o, c :: ClosedFlow(operators, capabilities, sinks, o, c) ==> op in o;
    caps := set cap | cap in capabilities && forall o, c :: ClosedFlow(operators, capabilities, sinks, o, c) ==> cap in c;
    WholeFlowCloses(operators, capabilities, sinks);
    forall op, o, c | op in operators && Produces(op, NeededByAll(sinks, ops, caps)) && ClosedFlow(operators, capabilities, sinks, o, c)
      ensures op in o
    {
      NeededGrows(sinks, ops, caps, o, c);
      ProducesMore(op, NeededByAll(sinks, ops, caps), NeededByAll(sinks, o, c));
    }
    forall cap, o, c | cap in capabilities && Provides(cap, RequiredBy(ops, caps)) && ClosedFlow(operators, capabilities, sinks, o, c)
      ensures cap in c
    {
      RequiredGrows(ops, caps, o, c);
      ProvidesMore(cap, RequiredBy(ops, caps), RequiredBy(o, c));
    }
  }

  lemma WholeFlowCloses(operators: seq<Operator>, capabilities: seq<Capability>, sinks: set<Class>)
    ensures ClosedFlow(operators, capabilities, sinks, All(operators), set c | c in capabilities)
  {
  }

  lemma NeededGrows(sinks: set<Class>, ops: set<Operator>, caps: set<Capability>, o: set<Operator>, c: set<Capability>)
    requires ops <= o && caps <= c
    ensures NeededByAll(sinks, ops, caps) <= NeededByAll(sinks, o, c)
  {
  }

  lemma RequiredGrows(ops: set<Operator>, caps: set<Capability>, o: set<Operator>, c: set<Capability>)
    requires ops <= o && caps <= c
    ensures RequiredBy(ops, caps) <= RequiredBy(o, c)
  {
  }

  /**
   * Where the kept capabilities take their data from is kept too. Data-independent capabilities, which depend on
   * no data at all, satisfy this.
   */
  ghost predicate CapabilitiesFed(operators: seq<Operator>, keptOps: set<Operator>, keptCaps: set<Capability>) {
    forall c, op :: c in keptCaps && op in operators && Produces(op, c.dependsOn) ==> op in keptOps
  }

  /** What the pruned run must still show: every type that matters to a sink, a kept operator or a kept capability. */
  ghost predicate ShowsNeeded(sinks: set<Class>, keptOps: set<Operator>, keptCaps: set<Capability>, full: set<Class>, pruned: set<Class>) {
    forall t, n :: t in full && n in NeededByAll(sinks, keptOps, keptCaps) && IsSubclass(t, n) ==> t in pruned
  }

  /** A kept capability available in full is available with only the kept ones. */
  lemma AvailableKept(registered: Registry, permitted: set<string>, keptOps: set<Operator>, keptCaps: set<Capability>,
                      capabilities: seq<Capability>, full: set<Class>, pruned: set<Class>)
    requires ClosedCaps(capabilities, keptOps, keptCaps) && forall id :: id in registered ==> registered[id] in capabilities
    requires forall c, d, t :: c in keptCaps && d in c.dependsOn && t in full && IsSubclass(t, d) ==> t in pruned
    ensures var few, all := Available(Restricted(registered, keptCaps), permitted, pruned), Available(registered, permitted, full);
      forall id :: id in all && registered[id] in keptCaps ==> id in few
  {
    var kept := Restricted(registered, keptCaps);
    var few, all := Available(kept, permitted, pruned), Available(registered, permitted, full);
    AvailableIsLeast(kept, permitted, pruned);
    AvailableIsLeast(registered, permitted, full);
    var x := few + (set id | id in registered && registered[id] !in keptCaps);
    forall id | Enters(registered, permitted, full, x, id) ensures id in x {
      if registered[id] in keptCaps {
        var c := registered[id];
        forall d | d in c.dependsOn ensures exists p :: p in pruned && IsSubclass(p, d) {
          var p :| p in full && IsSubclass(p, d);
        }
        forall r | r in c.requires_ ensures Provided(r, few, kept) {
          assert Provided(r, x, registered);
          var q :| q in x && q in registered && IsSubclass(registered[q].self, r);
          assert r in RequiredBy(keptOps, keptCaps);
          assert Provides(registered[q], RequiredBy(keptOps, keptCaps));
        }
        assert Enters(kept, permitted, pruned, few, id);
      }
    }
    assert Closed(registered, permitted, full, x);
  }

  /** A kept operator that can run in full can run pruned. */
  lemma RunsPruned(registered: Registry, permitted: set<string>, sinks: set<Class>, keptOps: set<Operator>, keptCaps: set<Capability>,
                   capabilities: seq<Capability>, full: set<Class>, pruned: set<Class>, op: Operator)
    requires ClosedCaps(capabilities, keptOps, keptCaps) && forall id :: id in registered ==> registered[id] in capabilities
    requires ShowsNeeded(sinks, keptOps, keptCaps, full, pruned)
    requires op in keptOps && CanRun(registered, permitted, full, op)
    ensures CanRun(Restricted(registered, keptCaps), permitted, pruned, op)
  {
    var kept := Restricted(registered, keptCaps);
    forall d | d in op.dependsOn ensures exists p :: p in pruned && IsSubclass(p, d) {
      var p :| p in full && IsSubclass(p, d);
      assert d in NeededByAll(sinks, keptOps, keptCaps);
    }
    forall c, d, t | c in keptCaps && d in c.dependsOn && t in full && IsSubclass(t, d) ensures t in pruned {
      assert d in NeededByAll(sinks, keptOps, keptCaps);
    }
    AvailableKept(registered, permitted, keptOps, keptCaps, capabilities, full, pruned);
    forall r | r in op.requires_ ensures Provided(r, Available(kept, permitted, pruned), kept) {
      assert Provided(r, Available(registered, permitted, full), registered);
      var q :| q in Available(registered, permitted, full) && q in registered && IsSubclass(registered[q].self, r);
      assert r in RequiredBy(keptOps, keptCaps);
      assert Provides(registered[q], RequiredBy(keptOps, keptCaps));
    }
  }

  /** Dropping the unneeded operators from a run leaves a run, which shows everything needed that the full one shows. */
  lemma {:induction false} PrunedRunShows(operators: seq<Operator>, capabilities: seq<Capability>, registered: Registry,
                                          permitted: set<string>, sinks: set<Class>, keptOps: set<Operator>,
                                          keptCaps: set<Capability>, seed: set<Class>, run: seq<Firing>)
    requires ClosedFlow(operators, capabilities, sinks, keptOps, keptCaps)
    requires forall id :: id in registered ==> registered[id] in capabilities
    requires IsRun(All(operators), registered, permitted, seed, run)
    ensures IsRun(keptOps, Restricted(registered, keptCaps), permitted, seed, Kept(run, keptOps))
    ensures ShowsNeeded(sinks, keptOps, keptCaps, Present(seed, run), Present(seed, Kept(run, keptOps)))
  {
    if run != [] {
      var init, last := run[..|run| - 1], run[|run| - 1];
      PrunedRunShows(operators, capabilities, registered, permitted, sinks, keptOps, keptCaps, seed, init);
      var shorter := Kept(init, keptOps);
      var full, pruned := Present(seed, init), Present(seed, shorter);
      if last.op in keptOps {
        RunsPruned(registered, permitted, sinks, keptOps, keptCaps, capabilities, full, pruned, last.op);
        assert (shorter + [last])[..|shorter|] == shorter;
        ShowsMore(sinks, keptOps, keptCaps, full, pruned, last.emitted);
      } else {
        assert shorter + [] == shorter;
        DroppedIsUnneeded(operators, capabilities, sinks, keptOps, keptCaps, full, pruned, last);
      }
    }
  }

  lemma ShowsMore(sinks: set<Class>, keptOps: set<Operator>, keptCaps: set<Capability>, full: set<Class>, pruned: set<Class>, emitted: set<Class>)
    requires ShowsNeeded(sinks, keptOps, keptCaps, full, pruned)
    ensures ShowsNeeded(sinks, keptOps, keptCaps, full + emitted, pruned + emitted)
  {
  }

  /** A dropped operator emits nothing a sink, a kept operator or a kept capability could use. */
  lemma DroppedIsUnneeded(operators: seq<Operator>, capabilities: seq<Capability>, sinks: set<Class>, keptOps: set<Operator>,
                          keptCaps: set<Capability>, full: set<Class>, pruned: set<Class>, last: Firing)
    requires ClosedFlow(operators, capabilities, sinks, keptOps, keptCaps)
    requires last.op in operators && last.op !in keptOps && last.emitted <= last.op.produces
    requires ShowsNeeded(sinks, keptOps, keptCaps, full, pruned)
    ensures ShowsNeeded(sinks, keptOps, keptCaps, full + last.emitted, pruned)
  {
    hide ClosedCaps;
    forall t, n | t in last.emitted && n in NeededByAll(sinks, keptOps, keptCaps) ensures !IsSubclass(t, n) {
      assert !Produces(last.op, NeededByAll(sinks, keptOps, keptCaps));
    }
  }

  /** The other way round: fewer operators and capabilities run nothing the whole flow could not. */
  lemma {:induction false} PrunedRunsAnyway(registered: Registry, permitted: set<string>, keptCaps: set<Capability>, all: set<Operator>,
                                            keptOps: set<Operator>, seed: set<Class>, run: seq<Firing>)
    requires keptOps <= all && IsRun(keptOps, Restricted(registered, keptCaps), permitted, seed, run)
    ensures IsRun(all, registered, permitted, seed, run)
  {
    if run != [] {
      var init, last := run[..|run| - 1], run[|run| - 1];
      PrunedRunsAnyway(registered, permitted, keptCaps, all, keptOps, seed, init);
      var kept, present := Restricted(registered, keptCaps), Present(seed, init);
      AvailableWider(registered, permitted, keptCaps, present);
      forall r | r in last.op.requires_ ensures Provided(r, Available(registered, permitted, present), registered) {
        assert Provided(r, Available(kept, permitted, present), kept);
      }
    }
  }

  lemma AvailableWider(registered: Registry, permitted: set<string>, keptCaps: set<Capability>, present: set<Class>)
    ensures Available(Restricted(registered, keptCaps), permitted, present) <= Available(registered, permitted, present)
  {
    var kept, all := Restricted(registered, keptCaps), Available(registered, permitted, present);
    AvailableIsLeast(registered, permitted, present);
    AvailableIsLeast(kept, permitted, present);
    forall id | Enters(kept, permitted, present, all, id) ensures id in all {
      forall r | r in registered[id].requires_ ensures Provided(r, all, registered) { assert Provided(r, all, kept); }
      assert Enters(registered, permitted, present, all, id);
    }
    assert Closed(kept, permitted, present, all);
  }

  ghost predicate Derivable(ops: set<Operator>, registered: Registry, permitted: set<string>, seed: set<Class>, sink: Class) {
    exists run, t :: IsRun(ops, registered, permitted, seed, run) && t in Present(seed, run) && IsSubclass(t, sink)
  }

  /**
   * Running only a closed part of a flow preserves meaning, whatever data its capabilities wait for: from any seed,
   * exactly the same sink types can be derived as by running all operators with all capabilities.
   */
  lemma ClosedFlowPreservesSinks(operators: seq<Operator>, capabilities: seq<Capability>, registered: Registry, permitted: set<string>,
                                 sinks: set<Class>, ops: set<Operator>, caps: set<Capability>, seed: set<Class>, sink: Class)
    requires ClosedFlow(operators, capabilities, sinks, ops, caps) && ops <= All(operators)
    requires forall id :: id in registered ==> registered[id] in capabilities
    requires sink in sinks
    ensures Derivable(All(operators), registered, permitted, seed, sink)
       <==> Derivable(ops, Restricted(registered, caps), permitted, seed, sink)
  {
    var all := All(operators);
    if Derivable(all, registered, permitted, seed, sink) {
      var run, t :| IsRun(all, registered, permitted, seed, run) && t in Present(seed, run) && IsSubclass(t, sink);
      PrunedRunShows(operators, capabilities, registered, permitted, sinks, ops, caps, seed, run);
      assert sink in NeededByAll(sinks, ops, caps);
      assert t in Present(seed, Kept(run, ops));
    }
    if Derivable(ops, Restricted(registered, caps), permitted, seed, sink) {
      var run, t :| IsRun(ops, Restricted(registered, caps), permitted, seed, run) && t in Present(seed, run) && IsSubclass(t, sink);
      PrunedRunsAnyway(registered, permitted, caps, all, ops, seed, run);
    }
  }

  /**
   * What the code keeps is that closure exactly when every operator that feeds a kept capability is kept; it follows
   * operators' data but not capabilities'.
   */
  lemma KeepsLeastFlowIff(operators: seq<Operator>, capabilities: seq<Capability>, sinks: set<Class>,
                          keptOps: set<Operator>, keptCaps: set<Capability>)
    requires IsLeastOps(operators, sinks, keptOps) && IsLeastCaps(capabilities, keptOps, keptCaps)
    ensures IsLeastFlow(operators, capabilities, sinks, keptOps, keptCaps) <==> CapabilitiesFed(operators, keptOps, keptCaps)
  {
    if CapabilitiesFed(operators, keptOps, keptCaps) { FedIsLeast(operators, capabilities, sinks, keptOps, keptCaps); }
    if IsLeastFlow(operators, capabilities, sinks, keptOps, keptCaps) {
      forall c, op | c in keptCaps && op in operators && Produces(op, c.dependsOn) ensures op in keptOps {
        ProducesMore(op, c.dependsOn, NeededByAll(sinks, keptOps, keptCaps));
      }
    }
  }

  lemma FedIsLeast(operators: seq<Operator>, capabilities: seq<Capability>, sinks: set<Class>,
                   keptOps: set<Operator>, keptCaps: set<Capability>)
    requires IsLeastOps(operators, sinks, keptOps) && IsLeastCaps(capabilities, keptOps, keptCaps)
    requires CapabilitiesFed(operators, keptOps, keptCaps)
    ensures IsLeastFlow(operators, capabilities, sinks, keptOps, keptCaps)
  {
    forall op | op in operators && Produces(op, NeededByAll(sinks, keptOps, keptCaps)) ensures op in keptOps {
      var p, n :| p in op.produces && n in NeededByAll(sinks, keptOps, keptCaps) && IsSubclass(p, n);
      if n in Needed(sinks, keptOps) {
        assert Produces(op, Needed(sinks, keptOps));
      } else {
        var c :| c in keptCaps && n in c.dependsOn;
        assert Produces(op, c.dependsOn);
      }
    }
    forall o, c | ClosedFlow(operators, capabilities, sinks, o, c) ensures keptOps <= o && keptCaps <= c {
      FlowClosesOps(operators, capabilities, sinks, o, c);
      FlowClosesCaps(capabilities, keptOps, o, c);
    }
  }

  lemma FlowClosesOps(operators: seq<Operator>, capabilities: seq<Capability>, sinks: set<Class>, o: set<Operator>, c: set<Capability>)
    requires ClosedFlow(operators, capabilities, sinks, o, c)
    ensures ClosedOps(operators, sinks, o)
  {
    hide ClosedCaps;
    forall op | op in operators && Produces(op, Needed(sinks, o)) ensures op in o {
      ProducesMore(op, Needed(sinks, o), NeededByAll(sinks, o, c));
    }
  }

  lemma FlowClosesCaps(capabilities: seq<Capability>, keptOps: set<Operator>, o: set<Operator>, c: set<Capability>)
    requires keptOps <= o && ClosedCaps(capabilities, o, c)
    ensures ClosedCaps(capabilities, keptOps, c)
  {
    forall cap | cap in capabilities && Provides(cap, RequiredBy(keptOps, c)) ensures cap in c {
      RequiredGrows(keptOps, c, o, c);
      ProvidesMore(cap, RequiredBy(keptOps, c), RequiredBy(o, c));
    }
  }

  /**
   * Pruning as the code does it preserves meaning whenever the kept capabilities' data is kept too: from any seed,
   * exactly the same sink types can be derived by running all operators with all capabilities as by running only
   * the backward closure.
   */
  lemma PruningPreservesSinks(operators: seq<Operator>, capabilities: seq<Capability>, registered: Registry, permitted: set<string>,
                              sinks: set<Class>, keptOps: set<Operator>, keptCaps: set<Capability>, seed: set<Class>, sink: Class)
    requires IsLeastOps(operators, sinks, keptOps) && IsLeastCaps(capabilities, keptOps, keptCaps)
    requires forall id :: id in registered ==> registered[id] in capabilities
    requires CapabilitiesFed(operators, keptOps, keptCaps) && sink in sinks
    ensures Derivable(All(operators), registered, permitted, seed, sink)
       <==> Derivable(keptOps, Restricted(registered, keptCaps), permitted, seed, sink)
  {
    KeptWithin(operators, sinks, keptOps);
    FedIsLeast(operators, capabilities, sinks, keptOps, keptCaps);
    ClosedFlowPreservesSinks(operators, capabilities, registered, permitted, sinks, keptOps, keptCaps, seed, sink);
  }

  lemma KeptWithin(operators: seq<Operator>, sinks: set<Class>, keptOps: set<Operator>)
    requires IsLeastOps(operators, sinks, keptOps)
    ensures keptOps <= All(operators)
  {
    assert ClosedOps(operators, sinks, All(operators));
  }

  /**
   * A flow where it matters: the one provider of what the sink's producer requires waits for data only a dropped
   * operator produces, and the pruned flow never reaches the sink the whole flow reaches. (With another way to the
   * sink it would lose nothing: keeping the feeders is enough, not necessary.)
   */
  lemma UnfedCapabilityLosesSink(data: Class, sink: Class, self: Class, policy: Policy)
    requires data.name in data.mro && sink.name in sink.mro && self.name in self.mro && !IsSubclass(data, sink)
    ensures var feeder := Operator("feeder", {}, {}, {data}, {}, policy);
      var worker := Operator("worker", {}, {}, {sink}, {self}, policy);
      var cap := Capability("cap", self, {data}, {});
      var registered := map["cap" := cap];
      && IsLeastOps([feeder, worker], {sink}, {worker}) && IsLeastCaps([cap], {worker}, {cap})
      && Derivable({feeder, worker}, registered, {"cap"}, {}, sink)
      && !Derivable({worker}, Restricted(registered, {cap}), {"cap"}, {}, sink)
  {
    var feeder := Operator("feeder", {}, {}, {data}, {}, policy);
    var worker := Operator("worker", {}, {}, {sink}, {self}, policy);
    var cap := Capability("cap", self, {data}, {});
    var registered := map["cap" := cap];
    assert Needed({sink}, {worker}) == {sink};
    assert Produces(worker, Needed({sink}, {}));
    forall k | ClosedOps([feeder, worker], {sink}, k) ensures {worker} <= k {
      assert worker in [feeder, worker];
      ProducesMore(worker, {sink}, Needed({sink}, k));
    }
    forall k | ClosedCaps([cap], {worker}, k) ensures {cap} <= k {
      assert self in RequiredBy({worker}, k) && cap in [cap];
    }
    WholeFlowReaches(feeder, worker, cap, registered, data, sink);
    PrunedFlowStuck(worker, cap, Restricted(registered, {cap}), data, sink);
  }

  lemma WholeFlowReaches(feeder: Operator, worker: Operator, cap: Capability, registered: Registry, data: Class, sink: Class)
    requires feeder.dependsOn == {} && feeder.requires_ == {} && feeder.produces == {data}
    requires worker.dependsOn == {} && worker.requires_ == {cap.self} && worker.produces == {sink}
    requires cap.dependsOn == {data} && cap.requires_ == {} && registered == map["cap" := cap]
    requires data.name in data.mro && sink.name in sink.mro && cap.self.name in cap.self.mro
    ensures Derivable({feeder, worker}, registered, {"cap"}, {}, sink)
  {
    var first, second := Firing(feeder, {data}), Firing(worker, {sink});
    var run := [first, second];
    assert run[..1] == [first] && [first][..0] == [];
    assert Present({}, [first]) == {data};
    assert IsRun({feeder, worker}, registered, {"cap"}, {}, [first]);
    AvailableIsLeast(registered, {"cap"}, {data});
    assert Enters(registered, {"cap"}, {data}, Available(registered, {"cap"}, {data}), "cap");
    assert Provided(cap.self, Available(registered, {"cap"}, {data}), registered);
    assert IsRun({feeder, worker}, registered, {"cap"}, {}, run);
    assert IsRun({feeder, worker}, registered, {"cap"}, {}, run) && sink in Present({}, run) && IsSubclass(sink, sink);
  }

  lemma PrunedFlowStuck(worker: Operator, cap: Capability, registered: Registry, data: Class, sink: Class)
    requires worker.requires_ == {cap.self} && cap.dependsOn == {data} && registered == map["cap" := cap]
    ensures !Derivable({worker}, registered, {"cap"}, {}, sink)
  {
    forall run | IsRun({worker}, registered, {"cap"}, {}, run) ensures run == [] {
      NothingRuns(worker, cap, registered, data, run);
    }
  }

  lemma {:induction false} NothingRuns(worker: Operator, cap: Capability, registered: Registry, data: Class, run: seq<Firing>)
    requires worker.requires_ == {cap.self} && cap.dependsOn == {data} && registered == map["cap" := cap]
    requires IsRun({worker}, registered, {"cap"}, {}, run)
    ensures run == []
  {
    WorkerStuck(worker, cap, registered, data);
    if run != [] { NothingRuns(worker, cap, registered, data, run[..|run| - 1]); }
  }

  lemma WorkerStuck(worker: Operator, cap: Capability, registered: Registry, data: Class)
    requires worker.requires_ == {cap.self} && cap.dependsOn == {data} && registered == map["cap" := cap]
    ensures !CanRun(registered, {"cap"}, {}, worker)
  {
    assert !DepsPresent(cap.dependsOn, {}) by { assert data in cap.dependsOn; }
    assert Closed(registered, {"cap"}, {}, {});
    assert Available(registered, {"cap"}, {}) == {};
    assert !Provided(cap.self, {}, registered);
    assert cap.self in worker.requires_;
  }
}
