/** Flows of one operator that meet the termination hypotheses, or miss one. */
module LiteLoopWitnesses {
  import opened Prelude
  import opened DataPoints
  import opened KeyedMerge
  import opened SessionState
  import opened Digraph
  import opened LiteGraph
  import opened LiteLoop
  import opened LiteLoopSafety
  import opened LiteLoopBounds
  import opened LiteLoopTermination
  import opened LiteLoopProgress
  import opened LiteLoopQuiescence
  import CycleRule

  function Sole(o: Operator, caps: map<string, int>): Config {
    Config([o], caps, None)
  }

  // ----- one round of one operator -----

  /** A pass that finds the operator due launches it, and does nothing else. */
  lemma SolePass(o: Operator, caps: map<string, int>, w: World)
    requires w.s.phase.Top? && !w.s.deadlineHit && MayLaunch(Sole(o, caps), w.s, o, map[], w.s.now)
    ensures var cfg, step := Sole(o, caps), PlanAndLaunch(map[], [w.s.now]);
      && Enabled(cfg, w.s, step)
      && var w' := Next(cfg, w, step);
      && w'.s.session == w.s.session && w'.s.queue == w.s.queue && w'.s.now == w.s.now && !w'.s.deadlineHit && w'.s.phase.Waiting?
      && w'.s.At(o.id).running.Some? && w'.s.At(o.id).running.value.observed == w.s.session.revision
      && w'.s.At(o.id).retryAt.None? && w'.s.At(o.id).count == w.s.At(o.id).count && w'.s.At(o.id).failed == w.s.At(o.id).failed
      && (w.s.At(o.id).retryAt.None? ==> w'.s.At(o.id).debounceAt.None?)
      && w'.h.sent == w.h.sent && w'.h.At(o.id).launches == w.h.At(o.id).launches + 1
  {
    var cfg, s, times := Sole(o, caps), w.s, [w.s.now];
    assert Enabled(cfg, s, PlanAndLaunch(map[], times));
    assert PlanUpTo(cfg, s, map[], times, 0) == (s, Plan([], None)) && NotePlanUpTo(cfg, s, w.h, map[], times, 0) == w.h;
    assert PlanUpTo(cfg, s, map[], times, 1) == PlanOne(cfg, s, Plan([], None), o, map[], s.now);
    assert NotePlanUpTo(cfg, s, w.h, map[], times, 1) == NotePlan(cfg, s, w.h, o, map[], s.now);
    var (s1, plan) := PlanUpTo(cfg, s, map[], times, 1);
    hide PlanUpTo, NotePlanUpTo, Ready, Relevant, Tripped, OpDelta;
    assert |plan.runnable| == 1 && plan.runnable[0].op == o;
    var r := plan.runnable[0];
    assert LaunchUpTo(s1, plan.runnable, map[], 1) == LaunchOne(s1, r, map[]) by { assert LaunchUpTo(s1, plan.runnable, map[], 0) == s1; }
    assert NoteLaunchUpTo(s1, w.h, plan.runnable, 1) == NoteLaunch(s1, w.h, r) by { assert NoteLaunchUpTo(s1, w.h, plan.runnable, 0) == w.h; }
  }

  /** One running operator emits, one ends its run, and both are recorded; `w` is the world while they run. */
  function RoundSteps(p: string, d: DataPoint, o: string, error: Option<string>): seq<Step> {
    [Arrive(Emitted(p, d)), Arrive(Completed(o, error, false)), Consume([0, 0])]
  }

  lemma Round(cfg: Config, p: string, d: DataPoint, o: string, error: Option<string>, w: World) returns (w1: World, w2: World, w3: World)
    requires w.s.phase.Waiting? && w.s.queue == [] && w.s.At(p).running.Some? && w.s.At(o).running.Some? && !w.s.deadlineHit
    ensures var steps := RoundSteps(p, d, o, error);
      StepsTo(cfg, w, steps[0], w1) && StepsTo(cfg, w1, steps[1], w2) && StepsTo(cfg, w2, steps[2], w3)
    ensures w1.h.sent == w2.h.sent == w3.h.sent == w.h.sent + [Emission(p, d)]
    ensures forall q :: w3.h.At(q).launches == w.h.At(q).launches && (q != o ==> w3.s.At(q) == w.s.At(q))
    ensures w3.s.phase.Top? && w3.s.queue == [] && !w3.s.deadlineHit && w3.s.now == w.s.now && w3.s.At(o).running.None?
    ensures var x, outcome := w.s.At(o), Complete(cfg, o, w.s.At(o), error, false, w.s.now);
      && w3.s.At(o) == outcome.op
      && w3.s.session.entries == Merge(w.s.session, [d]).entries && w3.s.session.revision == Merge(w.s.session, [d]).revision
      && (outcome.advances ==> o in w3.s.session.watermarks && w3.s.session.watermarks[o] == x.running.value.observed)
  {
    var steps := RoundSteps(p, d, o, error);
    w1 := Next(cfg, w, steps[0]);
    w2 := Next(cfg, w1, steps[1]);
    w3 := Next(cfg, w2, steps[2]);
    var q := w2.s.queue;
    assert q == [Emitted(p, d), Completed(o, error, false)];
    QueuedPoint(p, d, o, error);
    var m := MergeQueued(w2.s);
    assert RecordUpTo(cfg, m, q, [0, 0], 0) == m && RecordUpTo(cfg, m, q, [0, 0], 1) == m;
    assert RecordUpTo(cfg, m, q, [0, 0], 2) == RecordCompletion(cfg, m, o, error, false, 0);
    assert forall r :: m.At(r) == w.s.At(r);
    NoteUpToSendsNothing(cfg, m, NoteMerge(w2.s, w2.h), q, [0, 0], 2);
    ConsumeKeepsLaunches(cfg, w2.s, w2.h, [0, 0]);
    hide RecordUpTo, NoteUpTo, Merge, Complete;
  }

  lemma QueuedPoint(p: string, d: DataPoint, o: string, error: Option<string>)
    ensures Points(Emissions([Emitted(p, d), Completed(o, error, false)])) == [d]
  {
    var q := [Emitted(p, d), Completed(o, error, false)];
    assert q[..1] == [q[0]] && [q[0]][..0] == [];
    assert Emissions([q[0]]) == [Emission(p, d)];
  }

  // ----- an emission keeps a run tame while its launch has one left -----

  lemma EmitCounts(perRun: nat, w: World, id: string, d: DataPoint, h: History)
    requires forall o :: SentBy(o, w.h.sent) <= perRun * w.h.At(o).launches
    requires SentBy(id, w.h.sent) < perRun * w.h.At(id).launches
    requires h.tracks == w.h.tracks && h.sent == w.h.sent + [Emission(id, d)]
    ensures forall o :: SentBy(o, h.sent) <= perRun * h.At(o).launches
  {
    assert (w.h.sent + [Emission(id, d)])[..|w.h.sent|] == w.h.sent;
    assert forall o :: h.At(o) == w.h.At(o);
  }

  lemma EmitTame(cfg: Config, perRun: nat, capIds: set<string>, seed: seq<DataPoint>, now: int,
                 steps: seq<Step>, trace: seq<World>, id: string, d: DataPoint)
    requires IsRun(cfg, seed, now, steps, trace) && Tame(cfg, perRun, capIds, steps, trace)
    requires Enabled(cfg, trace[|steps|].s, Arrive(Emitted(id, d))) && Declared(cfg, Emission(id, d))
    requires SentBy(id, trace[|steps|].h.sent) < perRun * trace[|steps|].h.At(id).launches
    ensures var w' := Next(cfg, trace[|steps|], Arrive(Emitted(id, d)));
      GoesOn(cfg, perRun, capIds, seed, now, steps, trace, [Arrive(Emitted(id, d))], [w'])
    ensures LastAvailable(steps + [Arrive(Emitted(id, d))], |steps| + 1) == LastAvailable(steps, |steps|)
  {
    hide Declared, Enabled, NoLess, IsRun, SentBy;
    var step, w := Arrive(Emitted(id, d)), trace[|steps|];
    var w' := Next(cfg, w, step);
    var more, states := steps + [step], trace + [w'];
    ExtendRun(cfg, seed, now, steps, trace, step);
    EmitCounts(perRun, w, id, d, w'.h);
    assert w'.h.sent == w.h.sent + [Emission(id, d)];
    hide Next;
    forall n, e | 0 <= n < |states| && e in states[n].h.sent ensures Declared(cfg, e) {
      if n == |trace| { assert e == Emission(id, d) || e in trace[|steps|].h.sent; } else { assert e in trace[n].h.sent; }
    }
    PrefixAlike(steps, step, |steps|);
    forall i | 0 <= i < |more| && more[i].PlanAndLaunch?
      ensures more[i].available.Keys <= capIds && NoLess(LastAvailable(more, i), more[i].available)
    {
      PrefixAlike(steps, step, i);
      assert more[i] == steps[i];
    }
  }

  /** The operator has nothing running or armed, is due, and has sent once for each launch. */
  ghost predicate Resting(o: Operator, caps: map<string, int>, steps: seq<Step>, w: World, n: nat) {
    && w.s.phase.Top? && !w.s.deadlineHit && w.s.queue == [] && LastAvailable(steps, |steps|) == map[]
    && w.s.At(o.id).retryAt.None? && w.s.At(o.id).failed == 0
    && MayLaunch(Sole(o, caps), w.s, o, map[], w.s.now)
    && w.h.At(o.id).launches == n && SentBy(o.id, w.h.sent) == n
  }

  /** A run ending in a resting world goes on by a launch and an emission of that launch. */
  lemma LaunchAndEmit(o: Operator, caps: map<string, int>, seed: seq<DataPoint>, now: int,
                      steps: seq<Step>, trace: seq<World>, n: nat, d: DataPoint) returns (more: seq<Step>, states: seq<World>)
    requires IsRun(Sole(o, caps), seed, now, steps, trace) && Tame(Sole(o, caps), 1, {}, steps, trace)
    requires Resting(o, caps, steps, trace[|steps|], n) && Declared(Sole(o, caps), Emission(o.id, d))
    ensures GoesOn(Sole(o, caps), 1, {}, seed, now, steps, trace, more, states) && |more| == 2
    ensures more[1] == Arrive(Emitted(o.id, d)) && LastAvailable(steps + more, |steps + more|) == map[]
    ensures states[0].s.phase.Waiting? && states[0].s.queue == [] && !states[0].s.deadlineHit
    ensures states[0].s.At(o.id).running.Some? && states[0].s.At(o.id).running.value.observed == trace[|steps|].s.session.revision
    ensures states[0].s.At(o.id).retryAt.None? && states[0].s.At(o.id).debounceAt.None? && states[0].s.At(o.id).failed == 0
    ensures states[0].s.At(o.id).count == trace[|steps|].s.At(o.id).count
    ensures states[0].s.session == trace[|steps|].s.session && states[0].s.now == trace[|steps|].s.now
    ensures states[0].h.sent == trace[|steps|].h.sent && states[0].h.At(o.id).launches == n + 1
    ensures states[1] == Next(Sole(o, caps), states[0], more[1])
  {
    hide Declared, MayLaunch, IsRun, Tame, NextState, NextHistory;
    RunLength(Sole(o, caps), seed, now, steps, trace);
    var cfg, w := Sole(o, caps), trace[|steps|];
    var pass, emit := PlanAndLaunch(map[], [w.s.now]), Arrive(Emitted(o.id, d));
    SolePass(o, caps, w);
    var w1 := OneOn(cfg, 1, {}, seed, now, steps, trace, pass);
    var steps1, trace1 := steps + [pass], trace + [w1];
    EmitTame(cfg, 1, {}, seed, now, steps1, trace1, o.id, d);
    more, states := [pass, emit], [w1, Next(cfg, w1, emit)];
    assert steps + more == steps1 + [emit] && trace + states == trace1 + [states[1]];
  }

  /** ... and then by the end of that run and its drain. */
  lemma WholeRound(o: Operator, caps: map<string, int>, seed: seq<DataPoint>, now: int,
                   steps: seq<Step>, trace: seq<World>, n: nat, d: DataPoint, error: Option<string>)
      returns (steps': seq<Step>, trace': seq<World>)
    requires IsRun(Sole(o, caps), seed, now, steps, trace) && Tame(Sole(o, caps), 1, {}, steps, trace)
    requires Resting(o, caps, steps, trace[|steps|], n) && Declared(Sole(o, caps), Emission(o.id, d))
    ensures IsRun(Sole(o, caps), seed, now, steps', trace') && Tame(Sole(o, caps), 1, {}, steps', trace')
    ensures LastAvailable(steps', |steps'|) == map[]
    ensures var w, w' := trace[|steps|], trace'[|steps'|];
      && w'.s.phase.Top? && w'.s.queue == [] && !w'.s.deadlineHit && w'.s.At(o.id).running.None?
      && w'.s.session.entries == Merge(w.s.session, [d]).entries && w'.s.session.revision == Merge(w.s.session, [d]).revision
      && w'.h.At(o.id).launches == n + 1 && w'.h.sent == w.h.sent + [Emission(o.id, d)]
      && (error.None? ==> && w'.s.At(o.id).retryAt.None? && w'.s.At(o.id).debounceAt.None? && w'.s.At(o.id).failed == 0
                          && o.id in w'.s.session.watermarks && w'.s.session.watermarks[o.id] == w.s.session.revision)
      && (error.Some? && WillRetry(Sole(o, caps), o.id, 1, w.s.At(o.id).count + 1) ==> w'.s.At(o.id).armed.Some?)
  {
    hide Declared, Resting, IsRun, Tame, NextState, NextHistory, Enabled, Merge, WillRetry;
    var cfg := Sole(o, caps);
    var more, states := LaunchAndEmit(o, caps, seed, now, steps, trace, n, d);
    RunLength(cfg, seed, now, steps, trace);
    var w1, w2, w3 := Round(cfg, o.id, d, o.id, error, states[0]);
    steps', trace' := steps + more, trace + states;
    var finish, drain := Arrive(Completed(o.id, error, false)), Consume([0, 0]);
    RunLength(cfg, seed, now, steps', trace');
    assert trace'[|steps'|] == w1;
    var x2 := OneOn(cfg, 1, {}, seed, now, steps', trace', finish);
    steps', trace' := steps' + [finish], trace' + [x2];
    RunLength(cfg, seed, now, steps', trace');
    assert trace'[|steps'|] == w2;
    var x3 := OneOn(cfg, 1, {}, seed, now, steps', trace', drain);
    steps', trace' := steps' + [drain], trace' + [x3];
    RunLength(cfg, seed, now, steps', trace');
    assert trace'[|steps'|] == w3;
  }

  // ----- the hypotheses can be met -----

  lemma StartRests(o: Operator, caps: map<string, int>, seed: seq<DataPoint>, now: int)
    requires o.requires_ == {} && Ready(o, Merge(Session(map[], 0, map[]), seed).entries, map[]) && !Tripped(Sole(o, caps), o.id, 0)
    ensures var w := StartWorld(Sole(o, caps), seed, now);
      IsRun(Sole(o, caps), seed, now, [], [w]) && Tame(Sole(o, caps), 1, {}, [], [w]) && Resting(o, caps, [], w, 0)
  {
    hide Merge, Ready, Tripped;
    var w := StartWorld(Sole(o, caps), seed, now);
    assert w.s.At(o.id) == NOTHING && w.s.session.watermarks == map[] by { MergeLeavesMarks(seed); }
  }

  lemma MergeLeavesMarks(seed: seq<DataPoint>)
    ensures Merge(Session(map[], 0, map[]), seed).watermarks == map[]
  {
  }

  lemma SoleDeclared(o: Operator, caps: map<string, int>, d: DataPoint)
    requires o.produces == {d.identity.kind} && IsSubclass(d.identity.kind, d.identity.kind)
    ensures Declared(Sole(o, caps), Emission(o.id, d))
  {
    assert o in Sole(o, caps).operators;
  }

  /** The graph of one operator that is on no cycle. */
  lemma SoleAcyclic(o: Operator) returns (g: Graph<Node>)
    requires !Feeds(o, o.dependsOn)
    ensures g == map[OpNode(o) := {}] && Validated(Sole(o, map[]), g, []) && !OnCycle(g, OpNode(o))
  {
    g := map[OpNode(o) := {}];
    assert o in [o];
    forall p: seq<Node> ensures !ClosedWalk(g, p) {
      if |p| > 1 { assert p[0 + 1] !in Succ(g, p[0]); }
    }
    hide OnCycle;
    assert NodesOf([o], []) == {OpNode(o)};
    assert !IsEdge(OpNode(o), OpNode(o));
  }

  /** One operator that needs nothing, launched by the first pass, emitting what it declares. */
  lemma TameRunExists(o: Operator, d: DataPoint, now: int)
      returns (cfg: Config, g: Graph<Node>, steps: seq<Step>, trace: seq<World>)
    requires o.dependsOn == o.uses == o.requires_ == {} && o.produces == {d.identity.kind}
    requires IsSubclass(d.identity.kind, d.identity.kind)
    ensures Validated(cfg, g, []) && Settles(cfg)
    ensures IsRun(cfg, [], now, steps, trace) && Tame(cfg, 1, {}, steps, trace)
    ensures trace[|steps|].h.sent == [Emission(o.id, d)]
  {
    hide Declared, IsRun, Tame, Resting, Settles;
    cfg := Sole(o, map[]);
    g := SoleAcyclic(o);
    AcceptedSettles(cfg, g, []);
    StartRests(o, map[], [], now);
    SoleDeclared(o, map[], d);
    var start := StartWorld(cfg, [], now);
    var more, states := LaunchAndEmit(o, map[], [], now, [], [start], 0, d);
    steps, trace := [] + more, [start] + states;
  }

  /** An operator that needs and produces the same type, capped at two runs: its own cycle, accepted. */
  lemma SoleCycle(o: Operator, kind: Class) returns (g: Graph<Node>)
    requires o.dependsOn == o.produces == {kind} && o.requires_ == {} && IsSubclass(kind, kind) && o.policy.maxCycles.Some?
    ensures var cfg := Sole(o, map[o.id := o.policy.maxCycles.value]); Validated(cfg, g, []) && OnCycle(g, OpNode(o))
  {
    var x := OpNode(o);
    g := map[x := {x}];
    assert o in [o] && ClosedWalk(g, [x, x]) && x in [x, x];
    assert OnCycle(g, x);
    forall y | OnCycle(g, y) ensures y == x { OnCycleIsKey(g, y); }
    ReachRefl(g, x);
    assert Mutual(g, x, x);
    hide OnCycle, Reach;
    assert NodesOf([o], []) == {x};
    assert Overlaps(kind, kind) && kind in o.produces && kind in o.dependsOn;
    assert IsEdge(x, x);
    assert CycleRule.CappedOnCycle(g, x);
  }

  /** The hypotheses cover what the rule is for: a capped operator on a cycle of its own, whose failed run is to be retried. */
  lemma TameRetryOnCycle(o: Operator, d: DataPoint, error: string, now: int)
      returns (cfg: Config, g: Graph<Node>, steps: seq<Step>, trace: seq<World>)
    requires o.dependsOn == o.produces == {d.identity.kind} && o.uses == o.requires_ == {}
    requires IsSubclass(d.identity.kind, d.identity.kind)
    requires o.policy.maxCycles == Some(2) && o.policy.maxAttempts == Some(2)
    ensures Validated(cfg, g, []) && Settles(cfg) && OnCycle(g, OpNode(o))
    ensures IsRun(cfg, [d], now, steps, trace) && Tame(cfg, 1, {}, steps, trace)
    ensures var w := trace[|steps|]; w.s.At(o.id).armed.Some? && w.h.sent == [Emission(o.id, d)] && !w.s.phase.Ended?
  {
    hide Declared, IsRun, Tame, Resting, OnCycle, Validated, Settles;
    var caps := map[o.id := 2];
    cfg := Sole(o, caps);
    g := SoleCycle(o, d.identity.kind);
    AcceptedSettles(cfg, g, []);
    SeededReady(o, d);
    StartRests(o, caps, [d], now);
    SoleDeclared(o, caps, d);
    var start := StartWorld(cfg, [d], now);
    steps, trace := WholeRound(o, caps, [d], now, [], [start], 0, d, Some(error));
    assert start.s.At(o.id) == NOTHING;
    assert RetryBudget(cfg.operators, o.id) == Some(2);
  }

  lemma SeededReady(o: Operator, d: DataPoint)
    requires o.dependsOn == {d.identity.kind} && o.requires_ == {} && IsSubclass(d.identity.kind, d.identity.kind)
    ensures Ready(o, Merge(Session(map[], 0, map[]), [d]).entries, map[])
  {
    var none: Entries := map[];
    assert [d][..0] == [] && MergeAll(none, [d], 1) == MergeOne(none, d, 1);
    assert d.identity in MergeOne(none, d, 1);
    assert MergeOne(none, d, 1) != none;
  }

  // ----- a `uses` edge the cycle check does not see -----

  /** The dependency graph with the `uses` triggers added as edges; the code never builds it. */
  function WithUses(g: Graph<Node>, operators: seq<Operator>): Graph<Node> {
    map x | x in g :: if x.OpNode? then g[x] + UsersOf(x.op, operators) else g[x]
  }

  function UsersOf(producer: Operator, operators: seq<Operator>): set<Node> {
    set o | o in operators && Feeds(producer, o.uses) :: OpNode(o)
  }

  /** An observation of this identity newer than what the session has. */
  function Newer(s: Session, k: Identity): DataPoint {
    DataPoint(k, "", 0, if k in s.entries then s.entries[k].dp.lastRetrieved + 1 else 0)
  }

  lemma NewerMerges(s: Session, k: Identity)
    ensures var s' := Merge(s, [Newer(s, k)]);
      && s'.revision == s.revision + 1 && k in s'.entries && s'.entries[k].updatedRev == s.revision + 1
  {
    var d := Newer(s, k);
    assert [d][..0] == [] && MergeAll(s.entries, [d], s.revision + 1) == MergeOne(s.entries, d, s.revision + 1);
    assert MergeOne(s.entries, d, s.revision + 1)[k] != if k in s.entries then s.entries[k] else Entry(d, 0, 0);
  }

  /** An operator triggered by what it produces is due again as soon as its run is recorded. */
  lemma DueAgain(o: Operator, s: State, k: Identity)
    requires o.dependsOn == o.requires_ == {} && o.uses == {k.kind} && IsSubclass(k.kind, k.kind)
    requires o.policy.rerunOnNewData && !o.policy.addedOnly && o.policy.debounce == 0
    requires s.At(o.id).running.None? && s.At(o.id).retryAt.None? && s.At(o.id).debounceAt.None?
    requires o.id in s.session.watermarks && k in s.session.entries && s.session.entries[k].updatedRev > s.session.watermarks[o.id]
    ensures MayLaunch(Sole(o, map[]), s, o, map[], s.now)
  {
    var delta := OpDelta(s, o.id, map[]);
    assert Triggers(o, k.kind) by { assert k.kind in o.dependsOn + o.uses; }
    if s.session.entries[k].addedRev > s.session.watermarks[o.id] { assert k in delta.added; } else { assert k in delta.updated; }
  }

  /**
   * What the hypothesis on `uses` is for: an operator that declares a cap and is triggered, through `uses`, by what
   * it produces. The dependency graph has no cycle and is accepted; with `uses` edges added the cycle is there and
   * its operator is capped; but the breaker takes its caps from the dependency graph, so for any number of launches
   * there is a run, tame in every other way, that makes them.
   */
  lemma {:induction false} UsesCycleNeverStops(o: Operator, k: Identity, now: int, n: nat)
      returns (g: Graph<Node>, steps: seq<Step>, trace: seq<World>)
    requires o.dependsOn == o.requires_ == {} && o.uses == o.produces == {k.kind} && IsSubclass(k.kind, k.kind)
    requires o.policy.rerunOnNewData && !o.policy.addedOnly && o.policy.debounce == 0 && o.policy.maxCycles.Some?
    ensures Validated(Sole(o, map[]), g, []) && CycleRule.Bounded(WithUses(g, [o])) && !Settles(Sole(o, map[]))
    ensures IsRun(Sole(o, map[]), [], now, steps, trace) && Tame(Sole(o, map[]), 1, {}, steps, trace)
    ensures trace[|steps|].h.At(o.id).launches == n && Resting(o, map[], steps, trace[|steps|], n)
  {
    hide Declared, IsRun, Tame, Resting, Validated, MayLaunch, Merge, Settles;
    var cfg := Sole(o, map[]);
    if n == 0 {
      g := SoleAcyclic(o);
      UsesCloses(o, g, k.kind);
      StartRests(o, map[], [], now);
      steps, trace := [], [StartWorld(cfg, [], now)];
      RestingCounts(o, map[], steps, trace[0], 0);
    } else {
      g, steps, trace := UsesCycleNeverStops(o, k, now, n - 1);
      RunLength(cfg, [], now, steps, trace);
      var s := trace[|steps|].s.session;
      var d := Newer(s, k);
      SoleDeclared(o, map[], d);
      NewerMerges(s, k);
      RestingCounts(o, map[], steps, trace[|steps|], n - 1);
      var sent := trace[|steps|].h.sent;
      steps, trace := WholeRound(o, map[], [], now, steps, trace, n - 1, d, None);
      RunLength(cfg, [], now, steps, trace);
      DueAgain(o, trace[|steps|].s, k);
      assert (sent + [Emission(o.id, d)])[..|sent|] == sent;
      assert Resting(o, map[], steps, trace[|steps|], n) by { RestsAgain(o, steps, trace[|steps|], n); }
    }
  }

  lemma RestingCounts(o: Operator, caps: map<string, int>, steps: seq<Step>, w: World, n: nat)
    requires Resting(o, caps, steps, w, n)
    ensures w.h.At(o.id).launches == n && SentBy(o.id, w.h.sent) == n
  {
  }

  lemma RestsAgain(o: Operator, steps: seq<Step>, w: World, n: nat)
    requires w.s.phase.Top? && !w.s.deadlineHit && w.s.queue == [] && LastAvailable(steps, |steps|) == map[]
    requires w.s.At(o.id).retryAt.None? && w.s.At(o.id).failed == 0
    requires MayLaunch(Sole(o, map[]), w.s, o, map[], w.s.now)
    requires w.h.At(o.id).launches == n && SentBy(o.id, w.h.sent) == n
    ensures Resting(o, map[], steps, w, n)
  {
  }

  lemma UsesCloses(o: Operator, g: Graph<Node>, kind: Class)
    requires g == map[OpNode(o) := {}] && !OnCycle(g, OpNode(o)) && o.policy.maxCycles.Some? && o.policy.rerunOnNewData
    requires o.uses == o.produces == {kind} && IsSubclass(kind, kind)
    ensures CycleRule.Bounded(WithUses(g, [o])) && !Settles(Sole(o, map[]))
  {
    var x, t := OpNode(o), WithUses(g, [o]);
    assert Feeds(o, o.uses) by { assert Overlaps(kind, kind) && kind in o.produces && kind in o.uses; }
    assert o in [o] && UsersOf(o, [o]) == {x};
    assert t.Keys == {x} && t[x] == g[x] + UsersOf(o, [o]) == {x};
    assert ClosedWalk(t, [x, x]) && x in [x, x];
    assert OnCycle(t, x);
    ReachRefl(t, x);
    assert Mutual(t, x, x);
    forall y | OnCycle(t, y) ensures y == x { OnCycleIsKey(t, y); }
    var cfg := Sole(o, map[]);
    assert Feeds(o, Wanted(o)) by { assert Overlaps(kind, kind) && kind in o.produces && kind in Wanted(o); }
    assert o in cfg.operators && o in Succ(TriggerGraph(cfg), o);
    assert ClosedWalk(TriggerGraph(cfg), [o, o]);
  }
}
