/** A flow that does not settle need never stop: exactly which flows do. */
module LiteLoopConverse {
  import opened Prelude
  import opened DataPoints
  import opened KeyedMerge
  import opened SessionState
  import opened Digraph
  import opened LiteGraph
  import opened LiteLoop
  import opened LiteLoopSafety
  import opened LiteLoopBounds
  import opened LiteLoopTermination
  import opened LiteLoopProgress
  import opened LiteLoopQuiescence
  import opened LiteLoopWitnesses

  // ----- what one pass does to one operator -----

  function PassNow(cfg: Config, s: State, available: map<string, Class>): Step {
    PlanAndLaunch(available, seq(|cfg.operators|, _ => s.now))
  }

  /** Planning touches no more of the operator than its rerun window. */
  ghost predicate Alike(s: State, s': State, id: string) {
    && s'.At(id) == s.At(id).(debounceAt := s'.At(id).debounceAt)
    && At(s'.session.watermarks, id) == At(s.session.watermarks, id)
    && s'.session.entries == s.session.entries && s'.session.revision == s.session.revision
  }

  lemma PlanOneLeaves(cfg: Config, s: State, plan: Plan, op: Operator, available: map<string, Class>, now: int, id: string)
    requires s.At(id).retryAt.None?
    ensures Alike(s, PlanOne(cfg, s, plan, op, available, now).0, id)
  {
    hide Ready, Relevant, Tripped, OpDelta;
  }

  lemma {:induction false} PlanUpToLeaves(cfg: Config, s: State, available: map<string, Class>, times: seq<int>, n: nat, id: string)
    requires n <= |cfg.operators| == |times| && s.At(id).retryAt.None?
    ensures Alike(s, PlanUpTo(cfg, s, available, times, n).0, id)
  {
    hide PlanOne;
    if n > 0 {
      PlanUpToLeaves(cfg, s, available, times, n - 1, id);
      var (s1, plan) := PlanUpTo(cfg, s, available, times, n - 1);
      PlanOneLeaves(cfg, s1, plan, cfg.operators[n - 1], available, times[n - 1], id);
    }
  }

  /** A pass at the top: the data, the queue and the clock stay, and what runs goes on running. */
  lemma PassFrame(cfg: Config, w: World, available: map<string, Class>)
    requires WellFormed(cfg) && Inv(cfg, w) && w.s.phase.Top? && !w.s.deadlineHit && cfg.deadline.None?
    ensures Enabled(cfg, w.s, PassNow(cfg, w.s, available))
    ensures var w' := Next(cfg, w, PassNow(cfg, w.s, available));
      && Inv(cfg, w') && w'.s.phase.Waiting? && w'.s.phase.available == available && !w'.s.deadlineHit
      && w'.s.queue == w.s.queue && w'.s.now == w.s.now
      && w'.s.session.entries == w.s.session.entries && w'.s.session.revision == w.s.session.revision
      && w'.h.sent == w.h.sent && (forall o :: w.h.At(o).launches <= w'.h.At(o).launches)
      && (forall o :: w.s.At(o).running.Some? ==> w'.s.At(o).running.Some?)
  {
    hide Core, QueueOk, SentOk, PlanUpTo, NotePlanUpTo, LaunchUpTo, NoteLaunchUpTo, PlanInv, Launched;
    var s, step := w.s, PassNow(cfg, w.s, available);
    assert Enabled(cfg, s, step);
    PassKeeps(cfg, w, available, step.times);
    PlanUpToKeeps(cfg, s, w.h, available, step.times, |step.times|);
    var (s1, plan) := PlanUpTo(cfg, s, available, step.times, |step.times|);
    PlannedRunnable(cfg, s, s1, plan, available);
    LaunchUpToKeeps(cfg, s1, NotePlanUpTo(cfg, s, w.h, available, step.times, |step.times|), plan.runnable, available, |plan.runnable|);
    var s2, w' := LaunchUpTo(s1, plan.runnable, available, |plan.runnable|), Next(cfg, w, step);
    PlainSendsNothing(cfg, w, step, available);
    PlanThenLaunch(cfg, s, s1, s2, plan, available);
    assert forall o :: w'.s.At(o) == s2.At(o);
  }

  lemma PlanThenLaunch(cfg: Config, s: State, s1: State, s2: State, plan: Plan, available: map<string, Class>)
    requires PlanInv(cfg, s, s1, plan, available, |cfg.operators|) && Launched(s1, s2, plan.runnable, |plan.runnable|)
    ensures s2.session.entries == s.session.entries && s2.session.revision == s.session.revision && s2.session == s1.session
    ensures s2.queue == s.queue && s2.deadlineHit == s.deadlineHit
    ensures forall o :: s.At(o).running.Some? ==> s2.At(o).running.Some?
    ensures forall i :: 0 <= i < |plan.runnable| ==> plan.runnable[i].op in cfg.operators && s2.At(plan.runnable[i].op.id).running.Some?
    ensures forall o :: (forall i :: 0 <= i < |plan.runnable| ==> plan.runnable[i].op.id != o) ==> s2.At(o) == s1.At(o)
  {
    hide RunnableOk, Considered;
    assert cfg.operators[..|cfg.operators|] == cfg.operators;
    forall o | s.At(o).running.Some? ensures s2.At(o).running.Some? {
      assert s1.At(o).running == s.At(o).running;
    }
  }

  /** An operator that may launch does, and is counted; an idle one with no retry armed that may not, stays as it was. */
  lemma PassOn(cfg: Config, w: World, available: map<string, Class>, o: Operator)
    requires WellFormed(cfg) && Inv(cfg, w) && w.s.phase.Top? && !w.s.deadlineHit && cfg.deadline.None?
    requires o in cfg.operators && w.s.At(o.id).retryAt.None?
    requires Enabled(cfg, w.s, PassNow(cfg, w.s, available))
    ensures var w' := Next(cfg, w, PassNow(cfg, w.s, available));
      if MayLaunch(cfg, w.s, o, available, w.s.now) then w'.s.At(o.id).running.Some? && w.h.At(o.id).launches < w'.h.At(o.id).launches
      else Alike(w.s, w'.s, o.id)
  {
    hide Core, QueueOk, SentOk, PlanUpTo, NotePlanUpTo, LaunchUpTo, NoteLaunchUpTo, PlanInv, Launched, MayLaunch;
    var s, h, step := w.s, w.h, PassNow(cfg, w.s, available);
    var times := step.times;
    PlanUpToKeeps(cfg, s, h, available, times, |times|);
    var (s1, plan) := PlanUpTo(cfg, s, available, times, |times|);
    var h1 := NotePlanUpTo(cfg, s, h, available, times, |times|);
    PlannedRunnable(cfg, s, s1, plan, available);
    LaunchUpToKeeps(cfg, s1, h1, plan.runnable, available, |plan.runnable|);
    var s2, w' := LaunchUpTo(s1, plan.runnable, available, |plan.runnable|), Next(cfg, w, step);
    PlanThenLaunch(cfg, s, s1, s2, plan, available);
    assert w'.s.At(o.id) == s2.At(o.id);
    var j :| 0 <= j < |cfg.operators| && cfg.operators[j] == o;
    PassPlansExactlyDue(cfg, s, available, times, |times|, j);
    if MayLaunch(cfg, s, o, available, s.now) {
      var i :| 0 <= i < |plan.runnable| && plan.runnable[i].op == o;
      PlanKeepsLaunches(cfg, s, h, available, times, |times|);
      LaunchesCounted(s1, h1, plan.runnable, |plan.runnable|);
    } else {
      PlanUpToLeaves(cfg, s, available, times, |times|, o.id);
      forall i | 0 <= i < |plan.runnable| ensures plan.runnable[i].op.id != o.id {
        if plan.runnable[i].op.id == o.id { SameOperator(cfg, plan.runnable[i].op, o); }
      }
    }
  }

  // ----- an operator with news is launched again, at once or when its window is over -----

  /** Idle, untripped and ready, with news. */
  ghost predicate Due(cfg: Config, s: State, o: Operator, available: map<string, Class>) {
    var x := s.At(o.id);
    && o in cfg.operators && x.running.None? && x.retryAt.None? && !Tripped(cfg, o.id, x.count)
    && Ready(o, s.session.entries, available) && o.id in s.session.watermarks
    && o.policy.rerunOnNewData && Relevant(o, OpDelta(s, o.id, available))
  }

  lemma StillDue(cfg: Config, s: State, s': State, o: Operator, available: map<string, Class>)
    requires Due(cfg, s, o, available) && Alike(s, s', o.id)
    ensures Due(cfg, s', o, available)
  {
    hide Ready, Relevant, Tripped;
    assert OpDelta(s', o.id, available) == OpDelta(s, o.id, available);
  }

  /** What is due and not launched waits for a window, and the pass wakes by then. */
  lemma DueWaits(cfg: Config, s: State, o: Operator, wake: Option<int>, available: map<string, Class>)
    requires Settled(cfg, s, o, wake, available) && Due(cfg, s, o, available)
    ensures DueBy(s.At(o.id).debounceAt, wake)
  {
    hide Ready, Relevant, Tripped, OpDelta;
  }

  lemma DueAt(cfg: Config, s: State, o: Operator, available: map<string, Class>)
    requires Due(cfg, s, o, available) && s.At(o.id).debounceAt.Some? && s.At(o.id).debounceAt.value <= s.now
    ensures MayLaunch(cfg, s, o, available, s.now)
  {
    hide Ready, Relevant, Tripped, OpDelta;
  }

  /** Where a run stands between rounds: waiting, with nothing queued, what was available still so. */
  ghost predicate Waits(steps: seq<Step>, w: World, available: map<string, Class>) {
    w.s.phase.Waiting? && w.s.queue == [] && !w.s.deadlineHit && LastAvailable(steps, |steps|) == available
  }

  /** Nothing but launches happened: what ran still runs, and no data came. */
  ghost predicate OnlyLaunches(w: World, w': World) {
    && w'.s.session.entries == w.s.session.entries && w'.h.sent == w.h.sent
    && (forall o :: w.h.At(o).launches <= w'.h.At(o).launches)
    && (forall o :: w.s.At(o).running.Some? ==> w'.s.At(o).running.Some?)
  }

  /** The run, longer. */
  ghost predicate TameRun(cfg: Config, capIds: set<string>, seed: seq<DataPoint>, now: int, steps: seq<Step>, trace: seq<World>) {
    IsRun(cfg, seed, now, steps, trace) && Tame(cfg, 1, capIds, steps, trace)
  }

  lemma Longer(cfg: Config, capIds: set<string>, seed: seq<DataPoint>, now: int, steps: seq<Step>, trace: seq<World>, step: Step)
      returns (steps': seq<Step>, trace': seq<World>)
    requires TameRun(cfg, capIds, seed, now, steps, trace)
    requires Enabled(cfg, trace[|steps|].s, step) && Plain(step, LastAvailable(steps, |steps|))
    ensures TameRun(cfg, capIds, seed, now, steps', trace') && |trace'| == |steps'| + 1
    ensures trace'[|steps'|] == Next(cfg, trace[|steps|], step)
    ensures LastAvailable(steps', |steps'|) == LastAvailable(steps, |steps|)
  {
    hide IsRun, Tame, Next, Enabled, LastAvailable;
    RunLength(cfg, seed, now, steps, trace);
    var w := OneOn(cfg, 1, capIds, seed, now, steps, trace, step);
    steps', trace' := steps + [step], trace + [w];
    RunLength(cfg, seed, now, steps', trace');
  }

  lemma RunStands(cfg: Config, capIds: set<string>, seed: seq<DataPoint>, now: int, steps: seq<Step>, trace: seq<World>)
    requires TameRun(cfg, capIds, seed, now, steps, trace)
    ensures |trace| == |steps| + 1 && Inv(cfg, trace[|steps|]) && WellFormed(cfg) && cfg.deadline.None?
    ensures forall o :: SentBy(o, trace[|steps|].h.sent) <= trace[|steps|].h.At(o).launches
  {
    hide Inv, Next, Enabled;
    RunKeepsInv(cfg, seed, now, steps, trace, |steps|);
    forall o ensures SentBy(o, trace[|steps|].h.sent) <= trace[|steps|].h.At(o).launches {
      assert SentBy(o, trace[|steps|].h.sent) <= 1 * trace[|steps|].h.At(o).launches;
    }
  }

  lemma LaunchNow(cfg: Config, capIds: set<string>, seed: seq<DataPoint>, now: int, steps: seq<Step>, trace: seq<World>,
                  o: Operator, available: map<string, Class>) returns (steps': seq<Step>, trace': seq<World>)
    requires TameRun(cfg, capIds, seed, now, steps, trace) && o in cfg.operators && LastAvailable(steps, |steps|) == available
    requires var s := trace[|steps|].s; s.phase.Top? && s.queue == [] && !s.deadlineHit && s.At(o.id).retryAt.None?
    ensures TameRun(cfg, capIds, seed, now, steps', trace') && |trace'| == |steps'| + 1
    ensures var w, w' := trace[|steps|], trace'[|steps'|];
      && Waits(steps', w', available) && OnlyLaunches(w, w') && w'.s.phase.available == available && w'.s.now == w.s.now
      && if MayLaunch(cfg, w.s, o, available, w.s.now) then w'.s.At(o.id).running.Some? && w.h.At(o.id).launches < w'.h.At(o.id).launches
         else Alike(w.s, w'.s, o.id)
  {
    hide IsRun, Tame, Inv, NextState, NextHistory, Enabled, LastAvailable, MayLaunch, Alike;
    RunStands(cfg, capIds, seed, now, steps, trace);
    var w := trace[|steps|];
    PassFrame(cfg, w, available);
    PassOn(cfg, w, available, o);
    steps', trace' := Longer(cfg, capIds, seed, now, steps, trace, PassNow(cfg, w.s, available));
  }

  /** The clock moves on until the window is over, and the loop is back at its top. */
  lemma WaitOut(cfg: Config, capIds: set<string>, seed: seq<DataPoint>, now: int, steps: seq<Step>, trace: seq<World>,
                available: map<string, Class>, due: int) returns (steps': seq<Step>, trace': seq<World>)
    requires TameRun(cfg, capIds, seed, now, steps, trace) && |trace| == |steps| + 1 && Waits(steps, trace[|steps|], available)
    requires trace[|steps|].s.phase.wake.Some? && trace[|steps|].s.phase.wake.value <= due
    ensures TameRun(cfg, capIds, seed, now, steps', trace') && |trace'| == |steps'| + 1
    ensures var w, w' := trace[|steps|], trace'[|steps'|];
      && w'.h == w.h && w'.s == w.s.(phase := Top, now := w'.s.now) && due <= w'.s.now && LastAvailable(steps', |steps'|) == available
  {
    hide IsRun, Tame, LastAvailable;
    var s := trace[|steps|].s;
    steps', trace' := Longer(cfg, capIds, seed, now, steps, trace, Tick(if due > s.now then due - s.now else 0));
    steps', trace' := Longer(cfg, capIds, seed, now, steps', trace', Wake);
  }

  lemma LaunchedAgain(cfg: Config, capIds: set<string>, seed: seq<DataPoint>, now: int, steps: seq<Step>, trace: seq<World>,
                      o: Operator, available: map<string, Class>) returns (steps': seq<Step>, trace': seq<World>)
    requires TameRun(cfg, capIds, seed, now, steps, trace) && |trace| == |steps| + 1 && LastAvailable(steps, |steps|) == available
    requires var s := trace[|steps|].s; s.phase.Top? && s.queue == [] && !s.deadlineHit && Due(cfg, s, o, available)
    ensures TameRun(cfg, capIds, seed, now, steps', trace') && |trace'| == |steps'| + 1
    ensures var w, w' := trace[|steps|], trace'[|steps'|];
      Waits(steps', w', available) && OnlyLaunches(w, w') && w'.s.At(o.id).running.Some? && w.h.At(o.id).launches < w'.h.At(o.id).launches
  {
    hide TameRun, LastAvailable, MayLaunch, Due, Alike, Settled;
    var w := trace[|steps|];
    assert o in cfg.operators && w.s.At(o.id).retryAt.None? by { DueIdle(cfg, w.s, o, available); }
    steps', trace' := LaunchNow(cfg, capIds, seed, now, steps, trace, o, available);
    if !MayLaunch(cfg, w.s, o, available, w.s.now) {
      var w1 := trace'[|steps'|];
      StillDue(cfg, w.s, w1.s, o, available);
      DueIdle(cfg, w1.s, o, available);
      WaitingSettled(cfg, capIds, seed, now, steps', trace', o);
      DueWaits(cfg, w1.s, o, w1.s.phase.wake, available);
      var due := w1.s.At(o.id).debounceAt.value;
      steps', trace' := WaitOut(cfg, capIds, seed, now, steps', trace', available, due);
      var w2 := trace'[|steps'|];
      assert forall q :: w2.s.At(q) == w1.s.At(q);
      assert Alike(w1.s, w2.s, o.id) by { AlikeRephased(w1.s, w2.s, o.id); }
      StillDue(cfg, w1.s, w2.s, o, available);
      DueAt(cfg, w2.s, o, available);
      steps', trace' := LaunchNow(cfg, capIds, seed, now, steps', trace', o, available);
    }
  }

  lemma AlikeRephased(s: State, s': State, id: string)
    requires s' == s.(phase := s'.phase, now := s'.now)
    ensures Alike(s, s', id)
  {
  }

  lemma DueIdle(cfg: Config, s: State, o: Operator, available: map<string, Class>)
    requires Due(cfg, s, o, available)
    ensures o in cfg.operators && s.At(o.id).retryAt.None? && s.At(o.id).running.None?
  {
  }

  lemma WaitingSettled(cfg: Config, capIds: set<string>, seed: seq<DataPoint>, now: int, steps: seq<Step>, trace: seq<World>, o: Operator)
    requires TameRun(cfg, capIds, seed, now, steps, trace) && |trace| == |steps| + 1 && o in cfg.operators
    requires trace[|steps|].s.phase.Waiting?
    ensures var s := trace[|steps|].s; Settled(cfg, s, o, s.phase.wake, s.phase.available)
  {
    hide IsRun, Tame, Core, QueueOk, SentOk, Settled;
    RunStands(cfg, capIds, seed, now, steps, trace);
  }

  // ----- one turn of a cycle of triggers -----

  /** Classes are subclasses of themselves, and the declared types form a tree. */
  ghost predicate ProperTypes(cfg: Config) {
    && (forall o, c :: o in cfg.operators && c in o.produces + o.dependsOn + o.uses + o.requires_ ==> IsSubclass(c, c))
    && (forall o, k, v :: o in cfg.operators && k in o.produces + o.dependsOn + o.uses ==>
          TreeLike(cfg, Emission(o.id, DataPoint(Identity(k, v), "", 0, 0))))
  }

  /** The type an operator emits to trigger another. */
  lemma TriggerKind(cfg: Config, p: Operator, o: Operator, v: string) returns (kind: Class)
    requires ProperTypes(cfg) && p in cfg.operators && o in cfg.operators && Feeds(p, Wanted(o))
    ensures Triggers(o, kind) && Declared(cfg, Emission(p.id, DataPoint(Identity(kind, v), "", 0, 0)))
  {
    var made, t :| made in p.produces && t in Wanted(o) && Overlaps(made, t);
    assert IsSubclass(made, made) && IsSubclass(t, t) by {
      assert made in p.produces + p.dependsOn + p.uses + p.requires_ && t in o.produces + o.dependsOn + o.uses + o.requires_;
    }
    kind := if IsSubclass(made, t) then made else t;
    assert IsSubclass(kind, made) && IsSubclass(kind, t);
    if IsSubclass(made, t) {
      assert made in p.produces + p.dependsOn + p.uses;
      assert TreeLike(cfg, Emission(p.id, DataPoint(Identity(made, v), "", 0, 0)));
    } else {
      assert t in o.produces + o.dependsOn + o.uses;
      assert TreeLike(cfg, Emission(o.id, DataPoint(Identity(t, v), "", 0, 0)));
    }
  }

  /** There is always a value not seen yet. */
  lemma {:induction false} FreshValue(keys: set<Identity>) returns (v: string)
    ensures forall k :: k in keys ==> |k.value| < |v|
    decreases keys
  {
    if keys == {} {
      v := "";
    } else {
      var k :| k in keys;
      v := FreshValue(keys - {k});
      v := v + k.value + "x";
    }
  }

  lemma NewMerges(s: Session, d: DataPoint)
    requires d.identity !in s.entries
    ensures var s' := Merge(s, [d]);
      && s'.revision == s.revision + 1 && d.identity in s'.entries && s'.entries[d.identity].addedRev == s.revision + 1
      && forall k :: k in s.entries ==> k in s'.entries
  {
    assert [d][..0] == [] && MergeAll(s.entries, [d], s.revision + 1) == MergeOne(s.entries, d, s.revision + 1);
    assert d.identity in MergeOne(s.entries, d, s.revision + 1);
  }

  lemma ReadyStays(o: Operator, es: Entries, es': Entries, available: map<string, Class>)
    requires Ready(o, es, available) && forall k :: k in es ==> k in es'
    ensures Ready(o, es', available)
  {
    forall d | d in o.dependsOn ensures exists k :: k in es' && IsSubclass(k.kind, d) {
      var k :| k in es && IsSubclass(k.kind, d);
      assert k in es';
    }
  }

  /** A run in flight looked at a revision the session has reached. */
  lemma LookedBefore(cfg: Config, w: World, o: string)
    requires Inv(cfg, w) && w.s.At(o).running.Some?
    ensures w.s.At(o).running.value.observed <= w.s.session.revision && w.s.At(o).retryAt.None?
  {
    hide QueueOk, SentOk, PhaseOk, DeltaOk, HasOperator, Tripped;
    assert OpInv(cfg, w.s, w.h, o);
  }

  /** Ended without an error after a new observation that triggers it was merged, the operator is due. */
  lemma EndedDue(cfg: Config, w: World, w': World, o: Operator, d: DataPoint, available: map<string, Class>)
    requires Inv(cfg, w) && o in cfg.operators && !Stopped(cfg, o) && w.s.At(o.id).running.Some?
    requires Ready(o, w.s.session.entries, available) && d.identity !in w.s.session.entries && Triggers(o, d.identity.kind)
    requires w'.s.At(o.id) == Complete(cfg, o.id, w.s.At(o.id), None, false, w.s.now).op
    requires w'.s.session.entries == Merge(w.s.session, [d]).entries
    requires o.id in w'.s.session.watermarks && w'.s.session.watermarks[o.id] == w.s.At(o.id).running.value.observed
    ensures Due(cfg, w'.s, o, available)
  {
    hide Inv, Ready, Merge, Triggers;
    LookedBefore(cfg, w, o.id);
    NewMerges(w.s.session, d);
    ReadyStays(o, w.s.session.entries, w'.s.session.entries, available);
    assert d.identity in OpDelta(w'.s, o.id, available).added;
  }

  /** Everyone on the walk is running and ready. */
  ghost predicate AllFlying(walk: seq<Operator>, s: State, available: map<string, Class>) {
    forall i :: 0 <= i < |walk| ==> s.At(walk[i].id).running.Some? && Ready(walk[i], s.session.entries, available)
  }

  lemma Turn(cfg: Config, capIds: set<string>, seed: seq<DataPoint>, now: int, steps: seq<Step>, trace: seq<World>,
             p: Operator, o: Operator, d: DataPoint, available: map<string, Class>) returns (steps': seq<Step>, trace': seq<World>)
    requires TameRun(cfg, capIds, seed, now, steps, trace) && |trace| == |steps| + 1 && Waits(steps, trace[|steps|], available)
    requires trace[|steps|].s.At(p.id).running.Some? && trace[|steps|].s.At(o.id).running.Some?
    requires Declared(cfg, Emission(p.id, d)) && SentBy(p.id, trace[|steps|].h.sent) < trace[|steps|].h.At(p.id).launches
    ensures TameRun(cfg, capIds, seed, now, steps', trace') && |trace'| == |steps'| + 1 && LastAvailable(steps', |steps'|) == available
    ensures var w, w' := trace[|steps|], trace'[|steps'|];
      && w'.s.phase.Top? && w'.s.queue == [] && !w'.s.deadlineHit && w'.h.sent == w.h.sent + [Emission(p.id, d)]
      && (forall q :: w'.h.At(q).launches == w.h.At(q).launches && (q != o.id ==> w'.s.At(q) == w.s.At(q)))
      && w'.s.session.entries == Merge(w.s.session, [d]).entries
      && w'.s.At(o.id) == Complete(cfg, o.id, w.s.At(o.id), None, false, w.s.now).op
      && o.id in w'.s.session.watermarks && w'.s.session.watermarks[o.id] == w.s.At(o.id).running.value.observed
  {
    hide IsRun, Tame, Declared, LastAvailable, NextState, NextHistory, Enabled, Merge;
    var w := trace[|steps|];
    var emit, end, drain := Arrive(Emitted(p.id, d)), Arrive(Completed(o.id, None, false)), Consume([0, 0]);
    var w1, w2, w3 := Round(cfg, p.id, d, o.id, None, w);
    EmitTame(cfg, 1, capIds, seed, now, steps, trace, p.id, d);
    steps', trace' := steps + [emit], trace + [w1];
    RunLength(cfg, seed, now, steps', trace');
    assert trace'[|steps'|] == w1;
    steps', trace' := Longer(cfg, capIds, seed, now, steps', trace', end);
    steps', trace' := Longer(cfg, capIds, seed, now, steps', trace', drain);
  }

  /** The turn passes from one operator of the walk to the next: it emits, the next ends its run, and is launched again. */
  lemma PassTurn(cfg: Config, capIds: set<string>, seed: seq<DataPoint>, now: int, steps: seq<Step>, trace: seq<World>,
                 walk: seq<Operator>, p: Operator, o: Operator, available: map<string, Class>)
      returns (steps': seq<Step>, trace': seq<World>)
    requires TameRun(cfg, capIds, seed, now, steps, trace) && |trace| == |steps| + 1 && Waits(steps, trace[|steps|], available)
    requires ProperTypes(cfg) && p in walk && o in walk && p in cfg.operators && o in cfg.operators
    requires Feeds(p, Wanted(o)) && !Stopped(cfg, o) && AllFlying(walk, trace[|steps|].s, available)
    requires SentBy(p.id, trace[|steps|].h.sent) < trace[|steps|].h.At(p.id).launches
    ensures TameRun(cfg, capIds, seed, now, steps', trace') && |trace'| == |steps'| + 1 && Waits(steps', trace'[|steps'|], available)
    ensures AllFlying(walk, trace'[|steps'|].s, available)
    ensures SentBy(o.id, trace'[|steps'|].h.sent) < trace'[|steps'|].h.At(o.id).launches
    ensures trace[|steps|].h.At(o.id).launches < trace'[|steps'|].h.At(o.id).launches
    ensures forall q :: trace[|steps|].h.At(q).launches <= trace'[|steps'|].h.At(q).launches
  {
    hide TameRun, Waits, LastAvailable, Declared, ProperTypes, Feeds, Stopped, Triggers, Ready, Merge, Due, Complete, AllFlying, SentBy;
    hide Inv;
    var w := trace[|steps|];
    var d := NewsFor(cfg, w.s.session, p, o);
    RunStands(cfg, capIds, seed, now, steps, trace);
    assert w.s.At(p.id).running.Some? && w.s.At(o.id).running.Some? && Ready(o, w.s.session.entries, available) by {
      IsFlying(walk, w.s, available, p);
      IsFlying(walk, w.s, available, o);
    }
    steps', trace' := Turn(cfg, capIds, seed, now, steps, trace, p, o, d, available);
    var w1 := trace'[|steps'|];
    EndedDue(cfg, w, w1, o, d, available);
    steps', trace' := LaunchedAgain(cfg, capIds, seed, now, steps', trace', o, available);
    StillFlying(walk, o, d, w, w1, trace'[|steps'|], available);
    OneMoreSent(p.id, o.id, d, w.h, trace'[|steps'|].h);
  }

  /** Something new of a type that triggers the next operator. */
  lemma NewsFor(cfg: Config, session: Session, p: Operator, o: Operator) returns (d: DataPoint)
    requires ProperTypes(cfg) && p in cfg.operators && o in cfg.operators && Feeds(p, Wanted(o))
    ensures d.identity !in session.entries && Triggers(o, d.identity.kind) && Declared(cfg, Emission(p.id, d))
  {
    hide ProperTypes, Feeds, Declared, Triggers;
    var v := FreshValue(session.entries.Keys);
    var kind := TriggerKind(cfg, p, o, v);
    d := DataPoint(Identity(kind, v), "", 0, 0);
  }

  lemma IsFlying(walk: seq<Operator>, s: State, available: map<string, Class>, o: Operator)
    requires AllFlying(walk, s, available) && o in walk
    ensures s.At(o.id).running.Some? && Ready(o, s.session.entries, available)
  {
    hide Ready;
    var i :| 0 <= i < |walk| && walk[i] == o;
  }

  lemma StillFlying(walk: seq<Operator>, o: Operator, d: DataPoint, w: World, w1: World, w2: World, available: map<string, Class>)
    requires AllFlying(walk, w.s, available) && d.identity !in w.s.session.entries
    requires w1.s.session.entries == Merge(w.s.session, [d]).entries && forall q :: q != o.id ==> w1.s.At(q) == w.s.At(q)
    requires OnlyLaunches(w1, w2) && w2.s.At(o.id).running.Some?
    ensures AllFlying(walk, w2.s, available)
  {
    hide Ready, Merge;
    NewMerges(w.s.session, d);
    forall i | 0 <= i < |walk| ensures w2.s.At(walk[i].id).running.Some? && Ready(walk[i], w2.s.session.entries, available) {
      ReadyStays(walk[i], w.s.session.entries, w2.s.session.entries, available);
      if walk[i].id != o.id { assert w1.s.At(walk[i].id) == w.s.At(walk[i].id); }
    }
  }

  lemma OneMoreSent(p: string, o: string, d: DataPoint, h: History, h': History)
    requires h'.sent == h.sent + [Emission(p, d)] && SentBy(p, h.sent) < h.At(p).launches
    requires SentBy(o, h.sent) <= h.At(o).launches < h'.At(o).launches
    ensures SentBy(o, h'.sent) < h'.At(o).launches
  {
    assert (h.sent + [Emission(p, d)])[..|h.sent|] == h.sent;
  }

  // ----- round and round -----

  /** One datum for each of these classes. */
  function SeedOf(classes: seq<Class>): seq<DataPoint> {
    seq(|classes|, i requires 0 <= i < |classes| => DataPoint(Identity(classes[i], ""), "", 0, 0))
  }

  /** One capability for each of these classes. */
  function OfferOf(classes: seq<Class>): map<string, Class> {
    if classes == [] then map[]
    else OfferOf(classes[..|classes| - 1])[seq(|classes|, _ => 'c') := classes[|classes| - 1]]
  }

  lemma {:induction false} Offered(classes: seq<Class>)
    ensures forall id :: id in OfferOf(classes) ==> |id| <= |classes|
    ensures forall c :: c in classes ==> exists id :: id in OfferOf(classes) && OfferOf(classes)[id] == c
  {
    if classes != [] {
      var init, last := classes[..|classes| - 1], classes[|classes| - 1];
      Offered(init);
      var id := seq(|classes|, _ => 'c');
      assert |id| == |classes| && OfferOf(classes)[id] == last;
      forall c | c in classes ensures exists i :: i in OfferOf(classes) && OfferOf(classes)[i] == c {
        if c in init {
          var i :| i in OfferOf(init) && OfferOf(init)[i] == c;
          assert OfferOf(classes)[i] == c;
        }
      }
    }
  }

  lemma {:induction false} Listed(classes: set<Class>) returns (list: seq<Class>)
    ensures forall c :: c in classes <==> c in list
    decreases classes
  {
    if classes == {} {
      list := [];
    } else {
      var c :| c in classes;
      list := Listed(classes - {c});
      list := list + [c];
    }
  }

  /** A seed and capabilities with which every operator is ready from the start. */
  lemma AllReady(cfg: Config) returns (seed: seq<DataPoint>, available: map<string, Class>)
    requires ProperTypes(cfg)
    ensures forall o :: o in cfg.operators ==> Ready(o, Merge(Session(map[], 0, map[]), seed).entries, available)
  {
    var data := Listed(set o, c | o in cfg.operators && c in o.dependsOn :: c);
    var caps := Listed(set o, c | o in cfg.operators && c in o.requires_ :: c);
    seed, available := SeedOf(data), OfferOf(caps);
    Offered(caps);
    var none: Entries := map[];
    var es := MergeAll(none, seed, 1);
    forall o | o in cfg.operators ensures Ready(o, es, available) {
      forall c | c in o.dependsOn ensures exists k :: k in es && IsSubclass(k.kind, c) {
        assert c in data && c in o.produces + o.dependsOn + o.uses + o.requires_;
        var i :| 0 <= i < |data| && data[i] == c;
        MergeCovers(none, seed, 1, seed[i]);
        assert Identity(c, "") in es;
      }
      forall c | c in o.requires_ ensures exists id :: id in available && IsSubclass(available[id], c) {
        assert c in caps && c in o.produces + o.dependsOn + o.uses + o.requires_;
      }
    }
  }

  lemma TameAtStart(cfg: Config, capIds: set<string>, seed: seq<DataPoint>, now: int)
    requires WellFormed(cfg) && cfg.deadline.None?
    ensures TameRun(cfg, capIds, seed, now, [], [StartWorld(cfg, seed, now)])
    ensures var w := StartWorld(cfg, seed, now);
      && w.s.phase.Top? && w.s.queue == [] && !w.s.deadlineHit && w.h.sent == [] && w.s.session == Merge(Session(map[], 0, map[]), seed)
      && w.s.session.watermarks == map[] && forall o :: w.s.At(o) == NOTHING
  {
    hide Merge;
    MergeLeavesMarks(seed);
  }

  lemma FreshMayLaunch(cfg: Config, s: State, o: Operator, available: map<string, Class>)
    requires s.At(o.id) == NOTHING && s.session.watermarks == map[] && o.id !in cfg.caps && Ready(o, s.session.entries, available)
    ensures MayLaunch(cfg, s, o, available, s.now)
  {
    hide Ready;
  }

  /** The first pass launches everyone on the walk. */
  lemma FirstLaunch(cfg: Config, seed: seq<DataPoint>, now: int, walk: seq<Operator>, available: map<string, Class>)
      returns (steps: seq<Step>, trace: seq<World>)
    requires WellFormed(cfg) && cfg.deadline.None?
    requires forall o :: o in cfg.operators ==> Ready(o, Merge(Session(map[], 0, map[]), seed).entries, available)
    requires forall i :: 0 <= i < |walk| ==> walk[i] in cfg.operators && !Stopped(cfg, walk[i])
    ensures TameRun(cfg, available.Keys, seed, now, steps, trace) && |trace| == |steps| + 1 && Waits(steps, trace[|steps|], available)
    ensures AllFlying(walk, trace[|steps|].s, available) && trace[|steps|].h.sent == []
    ensures forall i :: 0 <= i < |walk| ==> trace[|steps|].h.At(walk[i].id).launches > 0
  {
    hide IsRun, Ready, Merge, MayLaunch, Inv, NextState, NextHistory, StartWorld, Declared;
    TameAtStart(cfg, available.Keys, seed, now);
    var w := StartWorld(cfg, seed, now);
    RunStands(cfg, available.Keys, seed, now, [], [w]);
    PassFrame(cfg, w, available);
    var step := PassNow(cfg, w.s, available);
    var w' := Next(cfg, w, step);
    forall i | 0 <= i < |walk| ensures w'.s.At(walk[i].id).running.Some? && w'.h.At(walk[i].id).launches > 0 {
      FreshMayLaunch(cfg, w.s, walk[i], available);
      PassOn(cfg, w, available, walk[i]);
    }
    steps, trace := [] + [step], [w] + [w'];
    ExtendRun(cfg, seed, now, [], [w], step);
    assert SentBy("", w'.h.sent) == 0;
    forall n, o | 0 <= n < |trace| ensures SentBy(o, trace[n].h.sent) <= 1 * trace[n].h.At(o).launches { assert trace[n].h.sent == []; }
    assert LastAvailable(steps, 0) == map[];
  }

  /**
   * A closed walk of triggers through operators that are not stopped goes round for ever: with some seed and some
   * capabilities, for any number of launches there is a tame run that makes them.
   */
  lemma {:induction false} GoesRound(cfg: Config, seed: seq<DataPoint>, now: int, walk: seq<Operator>, available: map<string, Class>, n: nat)
      returns (steps: seq<Step>, trace: seq<World>, at: nat)
    requires WellFormed(cfg) && cfg.deadline.None? && ProperTypes(cfg) && ClosedWalk(TriggerGraph(cfg), walk)
    requires forall o :: o in cfg.operators ==> Ready(o, Merge(Session(map[], 0, map[]), seed).entries, available)
    ensures TameRun(cfg, available.Keys, seed, now, steps, trace) && |trace| == |steps| + 1 && Waits(steps, trace[|steps|], available)
    ensures at < |walk| - 1 && AllFlying(walk, trace[|steps|].s, available)
    ensures SentBy(walk[at].id, trace[|steps|].h.sent) < trace[|steps|].h.At(walk[at].id).launches
    ensures n <= TotalLaunches(cfg.operators, trace[|steps|].h, |cfg.operators|)
  {
    hide TameRun, Waits, AllFlying, ProperTypes, Stopped, Ready, Merge, Feeds;
    WalkRuns(cfg, walk);
    if n == 0 {
      steps, trace := FirstLaunch(cfg, seed, now, walk, available);
      at := 0;
    } else {
      steps, trace, at := GoesRound(cfg, seed, now, walk, available, n - 1);
      var h := trace[|steps|].h;
      steps, trace := PassTurn(cfg, available.Keys, seed, now, steps, trace, walk, walk[at], walk[at + 1], available);
      var j :| 0 <= j < |cfg.operators| && cfg.operators[j] == walk[at + 1];
      TotalLaunchesGrow(cfg.operators, h, trace[|steps|].h, |cfg.operators|);
      at := if at + 1 == |walk| - 1 then 0 else at + 1;
    }
  }

  // ----- exactly which flows stop -----

  ghost predicate LaunchesWithin(cfg: Config, perRun: nat, capIds: set<string>, bound: nat) {
    forall seed, now, steps, trace: seq<World> :: IsRun(cfg, seed, now, steps, trace) && Tame(cfg, perRun, capIds, steps, trace) ==>
      TotalLaunches(cfg.operators, trace[|steps|].h, |cfg.operators|) <= bound
  }

  ghost predicate SomeBound(cfg: Config, perRun: nat, capIds: set<string>) {
    exists bound: nat :: LaunchesWithin(cfg, perRun, capIds, bound)
  }

  /** However much each launch emits and whatever is permitted, launches are bounded over all tame runs. */
  ghost predicate AlwaysStops(cfg: Config) {
    forall perRun: nat, capIds :: SomeBound(cfg, perRun, capIds)
  }

  /**
   * Exactly which flows stop, of those whose types form a tree: launches are bounded over all tame runs iff every
   * cycle of triggers, through `depends_on` and `uses` alike, is broken by an operator the breaker caps or one that
   * does not rerun on new data.
   */
  lemma StopsIffSettles(cfg: Config)
    requires WellFormed(cfg) && cfg.deadline.None? && ProperTypes(cfg)
    ensures AlwaysStops(cfg) <==> Settles(cfg)
  {
    hide IsRun, Tame, ClosedWalk, ProperTypes, Ready, Merge;
    if Settles(cfg) {
      forall perRun: nat, capIds ensures SomeBound(cfg, perRun, capIds) { SettledWithin(cfg, perRun, capIds); }
    } else {
      var walk: seq<Operator> :| ClosedWalk(TriggerGraph(cfg), walk);
      var seed, available := AllReady(cfg);
      forall bound: nat ensures !LaunchesWithin(cfg, 1, available.Keys, bound) {
        var steps, trace, at := GoesRound(cfg, seed, 0, walk, available, bound + 1);
      }
      assert !SomeBound(cfg, 1, available.Keys);
    }
  }

  lemma SettledWithin(cfg: Config, perRun: nat, capIds: set<string>)
    requires Settles(cfg)
    ensures LaunchesWithin(cfg, perRun, capIds, TotalBound(cfg, perRun, |capIds|, |cfg.operators|))
  {
    hide Settles, Tame, Next, Enabled, Accounted;
    forall seed, now, steps, trace: seq<World> | IsRun(cfg, seed, now, steps, trace) && Tame(cfg, perRun, capIds, steps, trace)
      ensures TotalLaunches(cfg.operators, trace[|steps|].h, |cfg.operators|) <= TotalBound(cfg, perRun, |capIds|, |cfg.operators|)
    {
      RunAccounted(cfg, perRun, capIds, seed, now, steps, trace, |steps|);
      TotalLaunchesBounded(cfg, perRun, capIds, trace[|steps|], |cfg.operators|);
    }
  }
}
