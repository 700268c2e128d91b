/** The bounded-cycle rule bounds launches: what it is for. */
module LiteLoopTermination {
  import opened Prelude
  import opened DataPoints
  import opened KeyedMerge
  import opened SessionState
  import opened Digraph
  import opened LiteGraph
  import opened LiteLoop
  import opened LiteLoopSafety
  import opened LiteLoopBounds
  import CycleRule
  import Tarjan
  import LiteLoopTheorems

  // ----- hypotheses -----

  /** The graph was accepted, and the breaker has the caps of its cycles. */
  ghost predicate Validated(cfg: Config, g: Graph<Node>, capabilities: seq<Capability>) {
    && WellFormed(cfg)
    && IsDependencyGraph(g, cfg.operators, capabilities)
    && CycleRule.Bounded(g)
    && (forall x :: CycleRule.CappedOnCycle(g, x) ==> x.op.id in cfg.caps)
    && (forall id :: id in cfg.caps ==>
          exists x :: CycleRule.CappedOnCycle(g, x) && x.op.id == id && cfg.caps[id] == x.op.policy.maxCycles.value)
  }

  /** The emission is of a type its operator declares. */
  ghost predicate Declared(cfg: Config, e: Emission) {
    && (exists op :: op in cfg.operators && op.id == e.id
          && exists p :: p in op.produces && IsSubclass(e.dp.identity.kind, p))
    && TreeLike(cfg, e)
  }

  /** Types form a tree: of two declared types the emission is both of, one is a subtype of the other. */
  ghost predicate TreeLike(cfg: Config, e: Emission) {
    forall o, c, p, d ::
      (o in cfg.operators && c in cfg.operators && p in o.produces && d in c.dependsOn + c.uses
       && IsSubclass(e.dp.identity.kind, p) && IsSubclass(e.dp.identity.kind, d))
      ==> IsSubclass(p, d) || IsSubclass(d, p)
  }

  // ----- the graph of triggers -----

  /** Everything whose arrival can launch the operator again. */
  function Wanted(o: Operator): set<Class> {
    o.dependsOn + o.uses
  }

  /** The operator runs boundedly often whatever arrives: the breaker caps it, or it does not rerun on new data. */
  predicate Stopped(cfg: Config, o: Operator) {
    o.id in cfg.caps || !o.policy.rerunOnNewData
  }

  /** What an operator that is not stopped can trigger, through `depends_on` and `uses` alike; the code never builds it. */
  function TriggerGraph(cfg: Config): Graph<Operator> {
    map p | p in cfg.operators :: if Stopped(cfg, p) then {} else set o | o in cfg.operators && Feeds(p, Wanted(o))
  }

  /** Every cycle of triggers is broken by a stopped operator. */
  ghost predicate Settles(cfg: Config) {
    forall p: seq<Operator> :: !ClosedWalk(TriggerGraph(cfg), p)
  }

  /** What `find_cycles` tells of that graph before the session. */
  lemma SettlesIff(cfg: Config)
    ensures Settles(cfg) <==> forall c :: !Tarjan.CyclicScc(TriggerGraph(cfg), c)
  {
    hide Reach, ClosedWalk, Mutual, TriggerGraph;
    var t := TriggerGraph(cfg);
    if c :| Tarjan.CyclicScc(t, c) {
      var x :| x in c;
      Tarjan.CyclicSccHasEdges(t, c, x);
      var p :| ClosedWalk(t, p) && x in p;
    }
    if p :| ClosedWalk(t, p) { var c := Tarjan.CycleInsideOne(t, p); }
  }

  /** Accepting the dependency graph makes a flow without `uses` settle: every trigger is then one of its edges. */
  lemma AcceptedSettles(cfg: Config, g: Graph<Node>, capabilities: seq<Capability>)
    requires Validated(cfg, g, capabilities) && forall o :: o in cfg.operators ==> o.uses == {}
    ensures Settles(cfg)
  {
    hide Feeds, OnCycle, Mutual, Validated, Stopped, ClosedWalk;
    if p: seq<Operator> :| ClosedWalk(TriggerGraph(cfg), p) {
      WalkRuns(cfg, p);
      AcceptedWalk(cfg, g, capabilities, p);
      CycleStopped(cfg, g, capabilities, p[0]);
    }
  }

  /** A closed walk of triggers passes only through operators of the flow that are not stopped. */
  lemma WalkRuns(cfg: Config, p: seq<Operator>)
    requires ClosedWalk(TriggerGraph(cfg), p)
    ensures |p| > 1 && forall i :: 0 <= i < |p| ==> p[i] in cfg.operators && !Stopped(cfg, p[i])
    ensures forall i :: 0 <= i < |p| - 1 ==> Feeds(p[i], Wanted(p[i + 1]))
  {
    hide Stopped, Feeds;
    forall i | 0 <= i < |p| - 1 ensures p[i] in cfg.operators && !Stopped(cfg, p[i]) && Feeds(p[i], Wanted(p[i + 1])) {
      assert p[i + 1] in Succ(TriggerGraph(cfg), p[i]);
    }
  }

  /** Without `uses` it is a closed walk of the dependency graph. */
  lemma AcceptedWalk(cfg: Config, g: Graph<Node>, capabilities: seq<Capability>, p: seq<Operator>)
    requires Validated(cfg, g, capabilities) && forall o :: o in cfg.operators ==> o.uses == {}
    requires ClosedWalk(TriggerGraph(cfg), p)
    ensures |p| > 1 && OnCycle(g, OpNode(p[0]))
  {
    hide Feeds, OnCycle, Stopped;
    WalkRuns(cfg, p);
    var q := seq(|p|, i requires 0 <= i < |p| => OpNode(p[i]));
    forall i | 0 <= i < |q| - 1 ensures q[i + 1] in Succ(g, q[i]) {
      assert Feeds(p[i], Wanted(p[i + 1]));
      TriggerIsEdge(cfg, g, capabilities, p[i], p[i + 1]);
    }
    WalkOnCycle(g, q);
  }

  lemma CycleStopped(cfg: Config, g: Graph<Node>, capabilities: seq<Capability>, o: Operator)
    requires Validated(cfg, g, capabilities) && OnCycle(g, OpNode(o))
    ensures Stopped(cfg, o)
  {
    hide OnCycle, Mutual;
    assert CycleRule.CappedOnCycle(g, OpNode(o));
  }

  lemma WalkOnCycle(g: Graph<Node>, p: seq<Node>)
    requires ClosedWalk(g, p)
    ensures OnCycle(g, p[0])
  {
  }

  lemma TriggerIsEdge(cfg: Config, g: Graph<Node>, capabilities: seq<Capability>, p: Operator, o: Operator)
    requires IsDependencyGraph(g, cfg.operators, capabilities) && o.uses == {}
    requires p in cfg.operators && o in cfg.operators && Feeds(p, Wanted(o))
    ensures OpNode(o) in Succ(g, OpNode(p))
  {
    assert OpNode(p) in g && OpNode(o) in g;
    assert Wanted(o) == o.dependsOn;
    assert IsEdge(OpNode(p), OpNode(o));
  }

  predicate NoLess(before: map<string, Class>, after: map<string, Class>) {
    forall id :: id in before ==> id in after && after[id] == before[id]
  }

  /** What the last pass had available. */
  function LastAvailable(steps: seq<Step>, n: nat): map<string, Class>
    requires n <= |steps|
  {
    if n == 0 then map[]
    else if steps[n - 1].PlanAndLaunch? then steps[n - 1].available
    else LastAvailable(steps, n - 1)
  }

  /**
   * No deadline, declared emissions, at most `perRun` of them per launch, and permissions that are never
   * withdrawn, within `capIds`.
   */
  ghost predicate Tame(cfg: Config, perRun: nat, capIds: set<string>, steps: seq<Step>, trace: seq<World>) {
    && cfg.deadline.None?
    && |trace| == |steps| + 1
    && (forall n, o :: 0 <= n < |trace| ==> SentBy(o, trace[n].h.sent) <= perRun * trace[n].h.At(o).launches)
    && (forall n, e :: 0 <= n < |trace| && e in trace[n].h.sent ==> Declared(cfg, e))
    && (forall i :: 0 <= i < |steps| && steps[i].PlanAndLaunch? ==>
          steps[i].available.Keys <= capIds && NoLess(LastAvailable(steps, i), steps[i].available))
  }

  // ----- the invariant along a tame run -----

  lemma {:induction false} RunPaid(cfg: Config, perRun: nat, capIds: set<string>, seed: seq<DataPoint>, now: int,
                                   steps: seq<Step>, trace: seq<World>, n: nat)
    requires IsRun(cfg, seed, now, steps, trace) && Tame(cfg, perRun, capIds, steps, trace) && n < |trace|
    ensures Paid(cfg, trace[n].s, trace[n].h, LastAvailable(steps, n).Keys) && !trace[n].s.deadlineHit
    ensures LastAvailable(steps, n).Keys <= capIds
  {
    hide Paid, Inv, Next, Enabled;
    if n == 0 {
      assert LastAvailable(steps, 0).Keys == {};
      StartPaid(cfg, seed, now);
      StartNoHit(cfg, seed, now);
    } else {
      RunPaid(cfg, perRun, capIds, seed, now, steps, trace, n - 1);
      RunKeepsInv(cfg, seed, now, steps, trace, n - 1);
      assert StepsTo(cfg, trace[n - 1], steps[n - 1], trace[n]);
      StepPaid(cfg, trace[n - 1], steps[n - 1], LastAvailable(steps, n - 1).Keys);
    }
  }

  lemma StartNoHit(cfg: Config, seed: seq<DataPoint>, now: int)
    ensures !StartWorld(cfg, seed, now).s.deadlineHit
  {
  }

  lemma StepPaid(cfg: Config, w: World, step: Step, cur: set<string>)
    requires WellFormed(cfg) && cfg.deadline.None? && Inv(cfg, w) && Enabled(cfg, w.s, step)
    requires Paid(cfg, w.s, w.h, cur) && !w.s.deadlineHit
    requires step.PlanAndLaunch? ==> cur <= step.available.Keys
    ensures Paid(cfg, Next(cfg, w, step).s, Next(cfg, w, step).h, if step.PlanAndLaunch? then step.available.Keys else cur)
    ensures !Next(cfg, w, step).s.deadlineHit
  {
    hide Core, Paid, PhaseOk, ConsumeQueue, NoteConsume;
    var w' := Next(cfg, w, step);
    match step
    case Tick(_) => RephasedPaid(cfg, w.s, w.h, w.s.phase, w'.s.now, cur);
    case Arrive(signal) => ArrivePaid(cfg, w.s, w.h, signal, w'.h.sent, cur);
    case PlanAndLaunch(available, times) =>
      PassPaid(cfg, w, available, times, cur);
      PassNoHit(cfg, w, available, times);
    case Consume(delays) =>
      ConsumePaid(cfg, w.s, w.h, delays, cur);
      ConsumeKeeps(cfg, w.s, w.h, delays);
      RephasedPaid(cfg, ConsumeQueue(cfg, w.s, delays), w'.h, Top, ConsumeQueue(cfg, w.s, delays).now, cur);
    case Wake => RephasedPaid(cfg, w.s, w.h, Top, w.s.now, cur);
    case Quiesce => RephasedPaid(cfg, w.s, w.h, Ended, w.s.now, cur);
    case HitDeadline(delays) => assert false;
    case Finish(delays) => DrainingHit(cfg, w);
  }

  lemma DrainingHit(cfg: Config, w: World)
    requires Inv(cfg, w) && w.s.phase.Draining?
    ensures w.s.deadlineHit
  {
  }

  lemma PassNoHit(cfg: Config, w: World, available: map<string, Class>, times: seq<int>)
    requires WellFormed(cfg) && Inv(cfg, w) && Enabled(cfg, w.s, PlanAndLaunch(available, times))
    ensures !Next(cfg, w, PlanAndLaunch(available, times)).s.deadlineHit
  {
    hide Core, PlanInv, Next;
    PassKeeps(cfg, w, available, times);
    PassWaits(cfg, w, available, times);
  }

  lemma PassWaits(cfg: Config, w: World, available: map<string, Class>, times: seq<int>)
    requires Enabled(cfg, w.s, PlanAndLaunch(available, times))
    ensures Next(cfg, w, PlanAndLaunch(available, times)).s.phase.Waiting?
  {
  }

  // ----- the launch bound -----

  ghost function Ancestors(g: Graph<Operator>, x: Operator): set<Operator> {
    set y | y in g && Reach(g, y, x)
  }

  lemma AncestorsShrink(g: Graph<Operator>, p: Operator, x: Operator)
    requires p in g && x in g && x in Succ(g, p) && !OnCycle(g, x)
    ensures |Ancestors(g, p)| < |Ancestors(g, x)|
  {
    hide Reach, OnCycle;
    ReachEdge(g, p, x);
    ReachRefl(g, x);
    OnCycleIff(g, x);
    assert Reach(g, x, p) ==> Mutual(g, x, p);
    forall y | y in Ancestors(g, p) ensures y in Ancestors(g, x) && y != x {
      ReachTrans(g, y, p, x);
    }
    SmallerSet(Ancestors(g, p) + {x}, Ancestors(g, x));
  }

  /** In a flow that settles, what triggers an operator has fewer ancestors than it. */
  lemma FeederEarlier(cfg: Config, p: Operator, o: Operator)
    requires Settles(cfg) && p in cfg.operators && o in cfg.operators && Feeds(p, Wanted(o)) && !Stopped(cfg, p)
    ensures |Ancestors(TriggerGraph(cfg), p)| < |Ancestors(TriggerGraph(cfg), o)|
  {
    var t := TriggerGraph(cfg);
    assert !OnCycle(t, o);
    AncestorsShrink(t, p, o);
  }

  /** How often a stopped operator can launch. */
  function StopBound(cfg: Config, o: Operator): nat {
    if o.id !in cfg.caps then Attempts(cfg, o.id) else if cfg.caps[o.id] > 0 then cfg.caps[o.id] else 0
  }

  /** A stopped operator's own bound; for another, what its feeders, capabilities and retry budget can pay for. */
  ghost function LaunchBound(cfg: Config, perRun: nat, caps: nat, o: Operator): nat
    requires Settles(cfg) && o in cfg.operators
    decreases |Ancestors(TriggerGraph(cfg), o)|, |cfg.operators| + 1
  {
    if Stopped(cfg, o) then StopBound(cfg, o)
    else Attempts(cfg, o.id) * (1 + caps + perRun * FeedersBound(cfg, perRun, caps, o, |cfg.operators|))
  }

  ghost function FeedersBound(cfg: Config, perRun: nat, caps: nat, o: Operator, n: nat): nat
    requires Settles(cfg) && o in cfg.operators && n <= |cfg.operators|
    decreases |Ancestors(TriggerGraph(cfg), o)|, n
  {
    if n == 0 then 0
    else
      var p := cfg.operators[n - 1];
      FeedersBound(cfg, perRun, caps, o, n - 1) +
      if !Feeds(p, Wanted(o)) then 0
      else if Stopped(cfg, p) then StopBound(cfg, p)
      else
        FeederEarlier(cfg, p, o);
        LaunchBound(cfg, perRun, caps, p)
  }

  /** Emissions by the first `n` operators that are in `who`. */
  function SentByAny(operators: seq<Operator>, who: set<Operator>, sent: seq<Emission>, n: nat): nat
    requires n <= |operators|
  {
    if n == 0 then 0
    else SentByAny(operators, who, sent, n - 1) + if operators[n - 1] in who then SentBy(operators[n - 1].id, sent) else 0
  }

  lemma {:induction false} SentByAnyGrows(operators: seq<Operator>, who: set<Operator>, sent: seq<Emission>, e: Emission, n: nat)
    requires n <= |operators|
    ensures SentByAny(operators, who, sent + [e], n) >= SentByAny(operators, who, sent, n)
      + if exists j :: 0 <= j < n && operators[j] in who && operators[j].id == e.id then 1 else 0
  {
    if n > 0 {
      SentByAnyGrows(operators, who, sent, e, n - 1);
      assert (sent + [e])[..|sent|] == sent;
    }
  }

  ghost predicate AllDeclared(cfg: Config, sent: seq<Emission>) {
    forall e :: e in sent ==> Declared(cfg, e)
  }

  function Feeders(cfg: Config, o: Operator): set<Operator> {
    set p | p in cfg.operators && Feeds(p, Wanted(o))
  }

  /** An emission that triggers `o` was made by an operator the graph has an edge from. */
  lemma EmitterFeeds(cfg: Config, o: Operator, e: Emission) returns (j: nat)
    requires Declared(cfg, e) && o in cfg.operators && Concerns(o, e)
    ensures j < |cfg.operators| && cfg.operators[j] in Feeders(cfg, o) && cfg.operators[j].id == e.id
  {
    var op :| op in cfg.operators && op.id == e.id && exists p :: p in op.produces && IsSubclass(e.dp.identity.kind, p);
    var p :| p in op.produces && IsSubclass(e.dp.identity.kind, p);
    var t :| t in o.dependsOn + o.uses && IsSubclass(e.dp.identity.kind, t);
    assert Overlaps(p, t);
    j :| 0 <= j < |cfg.operators| && cfg.operators[j] == op;
  }

  lemma {:induction false} RelevantFromFeeders(cfg: Config, o: Operator, sent: seq<Emission>)
    requires AllDeclared(cfg, sent) && o in cfg.operators
    ensures RelevantSent(o, sent) <= SentByAny(cfg.operators, Feeders(cfg, o), sent, |cfg.operators|)
  {
    hide Declared, Concerns;
    if sent != [] {
      var init, e := sent[..|sent| - 1], sent[|sent| - 1];
      assert sent == init + [e];
      RelevantFromFeeders(cfg, o, init);
      SentByAnyGrows(cfg.operators, Feeders(cfg, o), init, e, |cfg.operators|);
      if Concerns(o, e) { var j := EmitterFeeds(cfg, o, e); }
    }
  }

  /** The facts about one state of a tame run that the launch bound rests on. */
  ghost predicate Accounted(cfg: Config, perRun: nat, capIds: set<string>, w: World) {
    && Core(cfg, w.s, w.h) && !w.s.deadlineHit && w.h.merged <= |w.h.sent|
    && (exists cur :: cur <= capIds && Paid(cfg, w.s, w.h, cur))
    && AllDeclared(cfg, w.h.sent)
    && (forall o :: SentBy(o, w.h.sent) <= perRun * w.h.At(o).launches)
  }

  /** What one operator's launches are paid by, in one inequality. */
  lemma LaunchesPaid(cfg: Config, perRun: nat, capIds: set<string>, w: World, o: Operator)
    requires Accounted(cfg, perRun, capIds, w) && o in cfg.operators
    ensures w.h.At(o.id).launches <=
      Attempts(cfg, o.id) * (1 + |capIds| + SentByAny(cfg.operators, Feeders(cfg, o), w.h.sent, |cfg.operators|))
  {
    hide Core, Declared, RetriesPaid, StartsPaid, Feeders, Attempts;
    var cur :| cur <= capIds && Paid(cfg, w.s, w.h, cur);
    var x := SliceOf(w.s, w.h, o.id);
    var paid := RelevantSent(o, w.h.sent[..w.h.merged]);
    assert RetriesPaid(cfg, o.id, x) && w.s.At(o.id).prevCaps <= cur;
    assert StartsPaid(w.s.session.entries, o, x, paid);
    RelevantSentGrows(o, w.h.sent, w.h.merged);
    RelevantFromFeeders(cfg, o, w.h.sent);
    SmallerSet(x.op.prevCaps, capIds);
    SlicePaid(cfg, w.s.session.entries, o, x, paid, |capIds| + SentByAny(cfg.operators, Feeders(cfg, o), w.h.sent, |cfg.operators|));
  }

  lemma SlicePaid(cfg: Config, es: Entries, o: Operator, x: Slice, paid: nat, rest: nat)
    requires RetriesPaid(cfg, o.id, x) && StartsPaid(es, o, x, paid) && paid + |x.op.prevCaps| <= rest
    ensures x.t.launches <= Attempts(cfg, o.id) * (1 + rest)
  {
    hide HasNews;
    var a := Attempts(cfg, o.id);
    hide Attempts;
    assert x.t.launches <= a * x.t.starts by { assert a * x.t.starts == a * (x.t.starts - 1) + a; }
    if x.t.launches > 0 { MulMono(a, x.t.starts, 1 + rest); }
  }

  lemma MulMono(a: nat, b: int, c: int)
    requires b <= c
    ensures a * b <= a * c
  {
  }

  lemma MulSum(a: nat, b: nat, c: nat)
    ensures a * (b + c) == a * b + a * c
  {
  }

  /** A stopped operator stops. */
  lemma StoppedBounded(cfg: Config, perRun: nat, capIds: set<string>, w: World, o: Operator)
    requires Accounted(cfg, perRun, capIds, w) && o in cfg.operators && Stopped(cfg, o)
    ensures w.h.At(o.id).launches <= StopBound(cfg, o)
  {
    hide Declared, StartsPaid, Attempts, RetriesPaid;
    var cur :| cur <= capIds && Paid(cfg, w.s, w.h, cur);
    var x := SliceOf(w.s, w.h, o.id);
    assert OpInv(cfg, w.s, w.h, o.id) && RetriesPaid(cfg, o.id, x);
    assert StartsPaid(w.s.session.entries, o, x, RelevantSent(o, w.h.sent[..w.h.merged]));
    if o.id !in cfg.caps { FirstOnly(cfg, w.s.session.entries, o, x, RelevantSent(o, w.h.sent[..w.h.merged])); }
  }

  lemma FirstOnly(cfg: Config, es: Entries, o: Operator, x: Slice, paid: nat)
    requires RetriesPaid(cfg, o.id, x) && StartsPaid(es, o, x, paid) && !o.policy.rerunOnNewData
    ensures x.t.launches <= Attempts(cfg, o.id)
  {
    hide HasNews, Attempts;
    var a := Attempts(cfg, o.id);
    MulMono(a, x.t.starts, 1);
    if x.t.starts > 0 { assert a * (x.t.starts - 1) == a * x.t.starts - a; }
  }

  lemma {:induction false} LaunchesBounded(cfg: Config, perRun: nat, capIds: set<string>, w: World, o: Operator)
    requires Settles(cfg) && Accounted(cfg, perRun, capIds, w) && o in cfg.operators
    ensures w.h.At(o.id).launches <= LaunchBound(cfg, perRun, |capIds|, o)
    decreases |Ancestors(TriggerGraph(cfg), o)|, |cfg.operators| + 1
  {
    hide Accounted, Settles, Stopped, StopBound;
    if Stopped(cfg, o) {
      StoppedBounded(cfg, perRun, capIds, w, o);
    } else {
      LaunchesPaid(cfg, perRun, capIds, w, o);
      FeedersBounded(cfg, perRun, capIds, w, o, |cfg.operators|);
      MulMono(Attempts(cfg, o.id),
              1 + |capIds| + SentByAny(cfg.operators, Feeders(cfg, o), w.h.sent, |cfg.operators|),
              1 + |capIds| + perRun * FeedersBound(cfg, perRun, |capIds|, o, |cfg.operators|));
    }
  }

  lemma {:induction false} FeedersBounded(cfg: Config, perRun: nat, capIds: set<string>, w: World, o: Operator, n: nat)
    requires Settles(cfg) && Accounted(cfg, perRun, capIds, w) && o in cfg.operators && n <= |cfg.operators|
    ensures SentByAny(cfg.operators, Feeders(cfg, o), w.h.sent, n) <= perRun * FeedersBound(cfg, perRun, |capIds|, o, n)
    decreases |Ancestors(TriggerGraph(cfg), o)|, n
  {
    hide Accounted, Settles, Stopped, StopBound;
    if n > 0 {
      FeedersBounded(cfg, perRun, capIds, w, o, n - 1);
      var p := cfg.operators[n - 1];
      var rest := FeedersBound(cfg, perRun, |capIds|, o, n - 1);
      if Feeds(p, Wanted(o)) {
        var bound := LaunchBound(cfg, perRun, |capIds|, p);
        if Stopped(cfg, p) {
          StoppedBounded(cfg, perRun, capIds, w, p);
        } else {
          FeederEarlier(cfg, p, o);
          LaunchesBounded(cfg, perRun, capIds, w, p);
        }
        SentAtMost(cfg, perRun, capIds, w, p.id);
        MulMono(perRun, w.h.At(p.id).launches, bound);
        MulSum(perRun, rest, bound);
      }
    }
  }

  lemma SentAtMost(cfg: Config, perRun: nat, capIds: set<string>, w: World, id: string)
    requires Accounted(cfg, perRun, capIds, w)
    ensures SentBy(id, w.h.sent) <= perRun * w.h.At(id).launches
  {
  }

  lemma RunAccounted(cfg: Config, perRun: nat, capIds: set<string>, seed: seq<DataPoint>, now: int,
                     steps: seq<Step>, trace: seq<World>, n: nat)
    requires IsRun(cfg, seed, now, steps, trace) && Tame(cfg, perRun, capIds, steps, trace) && n < |trace|
    ensures Accounted(cfg, perRun, capIds, trace[n])
  {
    hide Paid, Core, Next, Enabled, Declared;
    RunPaid(cfg, perRun, capIds, seed, now, steps, trace, n);
    RunKeepsInv(cfg, seed, now, steps, trace, n);
  }

  /** In every state of every tame run of a flow that settles, an operator has launched at most `LaunchBound` times. */
  lemma BoundedLaunches(cfg: Config, perRun: nat, capIds: set<string>, seed: seq<DataPoint>, now: int,
                        steps: seq<Step>, trace: seq<World>, n: nat, o: Operator)
    requires Settles(cfg) && IsRun(cfg, seed, now, steps, trace) && Tame(cfg, perRun, capIds, steps, trace)
    requires n < |trace| && o in cfg.operators
    ensures trace[n].h.At(o.id).launches <= LaunchBound(cfg, perRun, |capIds|, o)
  {
    hide Accounted, Settles;
    RunAccounted(cfg, perRun, capIds, seed, now, steps, trace, n);
    LaunchesBounded(cfg, perRun, capIds, trace[n], o);
  }
}
