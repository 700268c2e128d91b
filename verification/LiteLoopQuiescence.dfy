/** Quiescence is reached: a tame run goes on until nothing is left to do. */
module LiteLoopQuiescence {
  import opened Prelude
  import opened DataPoints
  import opened SessionState
  import opened Digraph
  import opened LiteGraph
  import opened LiteLoop
  import opened LiteLoopSafety
  import opened LiteLoopBounds
  import opened LiteLoopTermination
  import opened LiteLoopProgress

  // ----- one step further, keeping a run tame -----

  /** A step that asks nothing new of the environment: no emission, and a pass with the capabilities of the last one. */
  predicate Plain(step: Step, available: map<string, Class>) {
    match step
    case Tick(_) => true
    case Arrive(signal) => signal.Completed?
    case PlanAndLaunch(given, _) => given == available
    case Consume(_) => true
    case Wake => true
    case Quiesce => true
    case _ => false
  }

  lemma {:induction false} NoteUpToSendsNothing(cfg: Config, s: State, h: History, signals: seq<Signal>, delays: seq<nat>, n: nat)
    requires n <= |signals| == |delays|
    ensures NoteUpTo(cfg, s, h, signals, delays, n).sent == h.sent
  {
    hide Complete, RecordUpTo;
    if n > 0 { NoteUpToSendsNothing(cfg, s, h, signals, delays, n - 1); }
  }

  lemma {:induction false} NotePlanSendsNothing(cfg: Config, s: State, h: History, available: map<string, Class>, times: seq<int>, n: nat)
    requires n <= |cfg.operators| == |times|
    ensures NotePlanUpTo(cfg, s, h, available, times, n).sent == h.sent
  {
    hide Decide, PlanUpTo;
    if n > 0 { NotePlanSendsNothing(cfg, s, h, available, times, n - 1); }
  }

  lemma {:induction false} NoteLaunchSendsNothing(s: State, h: History, runnable: seq<Runnable>, n: nat)
    requires n <= |runnable|
    ensures NoteLaunchUpTo(s, h, runnable, n).sent == h.sent
  {
    if n > 0 { NoteLaunchSendsNothing(s, h, runnable, n - 1); }
  }

  /** A plain step sends nothing and loses no launch. */
  lemma PlainSendsNothing(cfg: Config, w: World, step: Step, available: map<string, Class>)
    requires Enabled(cfg, w.s, step) && Plain(step, available)
    ensures var w' := Next(cfg, w, step);
      w'.h.sent == w.h.sent && forall o :: w.h.At(o).launches <= w'.h.At(o).launches
  {
    hide PlanUpTo, NotePlanUpTo, NoteLaunchUpTo, NoteUpTo;
    match step
    case PlanAndLaunch(_, times) =>
      var (s1, plan) := PlanUpTo(cfg, w.s, available, times, |times|);
      var h1 := NotePlanUpTo(cfg, w.s, w.h, available, times, |times|);
      NotePlanSendsNothing(cfg, w.s, w.h, available, times, |times|);
      NoteLaunchSendsNothing(s1, h1, plan.runnable, |plan.runnable|);
      PlanKeepsLaunches(cfg, w.s, w.h, available, times, |times|);
      LaunchesCounted(s1, h1, plan.runnable, |plan.runnable|);
    case Consume(delays) =>
      NoteUpToSendsNothing(cfg, MergeQueued(w.s), NoteMerge(w.s, w.h), w.s.queue, delays, |w.s.queue|);
      ConsumeKeepsLaunches(cfg, w.s, w.h, delays);
    case _ =>
  }

  lemma {:induction false} PrefixAlike(steps: seq<Step>, last: Step, n: nat)
    requires n <= |steps|
    ensures LastAvailable(steps + [last], n) == LastAvailable(steps, n) && TallyOf(steps + [last], n) == TallyOf(steps, n)
  {
    if n > 0 { PrefixAlike(steps, last, n - 1); }
  }

  /** Passes, drains and waits are loop steps. */
  predicate IsLoopStep(step: Step) {
    step.PlanAndLaunch? || step.Consume? || step.Wake?
  }

  lemma MoreSteps(steps: seq<Step>, last: Step)
    ensures LoopSteps(steps + [last]) == LoopSteps(steps) + if IsLoopStep(last) then 1 else 0
  {
    PrefixAlike(steps, last, |steps|);
  }

  lemma ExtendRun(cfg: Config, seed: seq<DataPoint>, now: int, steps: seq<Step>, trace: seq<World>, step: Step)
    requires IsRun(cfg, seed, now, steps, trace) && Enabled(cfg, trace[|steps|].s, step)
    ensures IsRun(cfg, seed, now, steps + [step], trace + [Next(cfg, trace[|steps|], step)])
  {
    hide Next, Enabled;
    var more, states := steps + [step], trace + [Next(cfg, trace[|steps|], step)];
    forall i | 0 <= i < |more| ensures StepsTo(cfg, states[i], more[i], states[i + 1]) {
      if i < |steps| { assert StepsTo(cfg, trace[i], steps[i], trace[i + 1]); }
    }
  }

  lemma ExtendTame(cfg: Config, perRun: nat, capIds: set<string>, seed: seq<DataPoint>, now: int,
                   steps: seq<Step>, trace: seq<World>, step: Step)
    requires IsRun(cfg, seed, now, steps, trace) && Tame(cfg, perRun, capIds, steps, trace)
    requires Enabled(cfg, trace[|steps|].s, step) && Plain(step, LastAvailable(steps, |steps|))
    ensures Tame(cfg, perRun, capIds, steps + [step], trace + [Next(cfg, trace[|steps|], step)])
  {
    hide Next, Enabled, Declared, Paid;
    var w := trace[|steps|];
    var w' := Next(cfg, w, step);
    var more, states := steps + [step], trace + [w'];
    RunPaid(cfg, perRun, capIds, seed, now, steps, trace, |steps|);
    PlainSendsNothing(cfg, w, step, LastAvailable(steps, |steps|));
    forall n, o | 0 <= n < |states| ensures SentBy(o, states[n].h.sent) <= perRun * states[n].h.At(o).launches {
      if n == |trace| { MulMono(perRun, w.h.At(o).launches, w'.h.At(o).launches); }
    }
    forall n, e | 0 <= n < |states| && e in states[n].h.sent ensures Declared(cfg, e) {
      if n == |trace| { assert e in trace[|steps|].h.sent; } else { assert e in trace[n].h.sent; }
    }
    forall i | 0 <= i < |more| && more[i].PlanAndLaunch?
      ensures more[i].available.Keys <= capIds && NoLess(LastAvailable(more, i), more[i].available)
    {
      PrefixAlike(steps, step, i);
      if i < |steps| { assert more[i] == steps[i]; }
    }
  }

  /** The run goes on by these steps, and is still tame. */
  ghost predicate GoesOn(cfg: Config, perRun: nat, capIds: set<string>, seed: seq<DataPoint>, now: int,
                         steps: seq<Step>, trace: seq<World>, more: seq<Step>, states: seq<World>) {
    && |states| == |more|
    && IsRun(cfg, seed, now, steps + more, trace + states)
    && Tame(cfg, perRun, capIds, steps + more, trace + states)
  }

  lemma OneOn(cfg: Config, perRun: nat, capIds: set<string>, seed: seq<DataPoint>, now: int,
              steps: seq<Step>, trace: seq<World>, step: Step) returns (w: World)
    requires IsRun(cfg, seed, now, steps, trace) && Tame(cfg, perRun, capIds, steps, trace)
    requires Enabled(cfg, trace[|steps|].s, step) && Plain(step, LastAvailable(steps, |steps|))
    ensures w == Next(cfg, trace[|steps|], step) && GoesOn(cfg, perRun, capIds, seed, now, steps, trace, [step], [w])
    ensures LastAvailable(steps + [step], |steps| + 1) == LastAvailable(steps, |steps|)
    ensures LoopSteps(steps + [step]) == LoopSteps(steps) + if IsLoopStep(step) then 1 else 0
  {
    hide Next, Enabled, IsRun, Tame;
    RunLength(cfg, seed, now, steps, trace);
    w := Next(cfg, trace[|steps|], step);
    ExtendRun(cfg, seed, now, steps, trace, step);
    ExtendTame(cfg, perRun, capIds, seed, now, steps, trace, step);
    MoreSteps(steps, step);
    PrefixAlike(steps, step, |steps|);
  }

  // ----- on to quiescence -----

  /** A loop step the run can take, after at most one completion or one wait. */
  lemma OneLoopStep(cfg: Config, perRun: nat, capIds: set<string>, seed: seq<DataPoint>, now: int,
                    steps: seq<Step>, trace: seq<World>) returns (more: seq<Step>, states: seq<World>)
    requires IsRun(cfg, seed, now, steps, trace) && Tame(cfg, perRun, capIds, steps, trace)
    requires !trace[|steps|].s.phase.Ended?
    ensures GoesOn(cfg, perRun, capIds, seed, now, steps, trace, more, states) && 1 <= |more| <= 2
    ensures if more == [Quiesce] then states[0].s.phase.Ended?
            else LoopSteps(steps + more) == LoopSteps(steps) + 1 && !states[|more| - 1].s.phase.Ended?
  {
    hide NextState, NextHistory, Enabled, IsRun, Tame, LastAvailable, LoopSteps;
    RunLength(cfg, seed, now, steps, trace);
    var step := NextPlain(cfg, perRun, capIds, seed, now, steps, trace);
    var w := OneOn(cfg, perRun, capIds, seed, now, steps, trace, step);
    if step.Tick? || step.Arrive? {
      var then_ := AfterwardsPlain(cfg, trace[|steps|].s, step);
      more, states := TwoOn(cfg, perRun, capIds, seed, now, steps, trace, step, w, then_);
    } else {
      more, states := [step], [w];
      NotEnded(cfg, trace[|steps|], step);
    }
  }

  /** A completion or a wait, and the loop step it leads to. */
  lemma TwoOn(cfg: Config, perRun: nat, capIds: set<string>, seed: seq<DataPoint>, now: int,
              steps: seq<Step>, trace: seq<World>, step: Step, w: World, then_: Step) returns (more: seq<Step>, states: seq<World>)
    requires IsRun(cfg, seed, now, steps, trace) && (step.Tick? || step.Arrive?) && (then_.Wake? || then_.Consume?)
    requires GoesOn(cfg, perRun, capIds, seed, now, steps, trace, [step], [w]) && Enabled(cfg, w.s, then_)
    requires LoopSteps(steps + [step]) == LoopSteps(steps)
    ensures more == [step, then_] && |states| == 2
    ensures GoesOn(cfg, perRun, capIds, seed, now, steps, trace, more, states)
    ensures LoopSteps(steps + more) == LoopSteps(steps) + 1 && !states[1].s.phase.Ended?
  {
    hide Next, Enabled, IsRun, Tame, LastAvailable, LoopSteps;
    RunLength(cfg, seed, now, steps, trace);
    var w' := OneOn(cfg, perRun, capIds, seed, now, steps + [step], trace + [w], then_);
    NotEnded(cfg, w, then_);
    more, states := [step, then_], [w, w'];
    assert steps + more == steps + [step] + [then_] && trace + states == trace + [w] + [w'];
  }

  lemma NotEnded(cfg: Config, w: World, step: Step)
    requires Enabled(cfg, w.s, step)
    ensures step.PlanAndLaunch? || step.Consume? || step.Wake? ==> !Next(cfg, w, step).s.phase.Ended?
    ensures step.Quiesce? ==> Next(cfg, w, step).s.phase.Ended?
  {
    hide PlanUpTo, LaunchUpTo, RecordUpTo;
  }

  lemma NextPlain(cfg: Config, perRun: nat, capIds: set<string>, seed: seq<DataPoint>, now: int,
                  steps: seq<Step>, trace: seq<World>) returns (step: Step)
    requires IsRun(cfg, seed, now, steps, trace) && Tame(cfg, perRun, capIds, steps, trace)
    requires !trace[|steps|].s.phase.Ended?
    ensures Enabled(cfg, trace[|steps|].s, step) && Plain(step, LastAvailable(steps, |steps|))
    ensures step.Tick? ==>
      var s := trace[|steps|].s;
      s.phase.Waiting? && s.phase.wake.Some? && !s.AnyRunning() && s.now + step.elapsed >= s.phase.wake.value
    ensures step.Arrive? ==> trace[|steps|].s.phase.Waiting? && trace[|steps|].s.AnyRunning()
  {
    hide Paid, Inv;
    RunPaid(cfg, perRun, capIds, seed, now, steps, trace, |steps|);
    RunKeepsInv(cfg, seed, now, steps, trace, |steps|);
    if trace[|steps|].s.phase.Draining? { DrainingHit(cfg, trace[|steps|]); }
    step := NeverStuck(cfg, seed, now, steps, trace, |steps|);
  }

  /** What follows a completion is the drain that records it; what follows a wait is the window coming due. */
  lemma AfterwardsPlain(cfg: Config, s: State, step: Step) returns (then_: Step)
    requires Enabled(cfg, s, step)
    requires step.Tick? || (step.Arrive? && s.phase.Waiting? && s.AnyRunning())
    requires step.Tick? ==> s.phase.Waiting? && s.phase.wake.Some? && !s.AnyRunning() && s.now + step.elapsed >= s.phase.wake.value
    ensures then_ == if step.Tick? then Wake else Consume(seq(|s.queue| + 1, _ => 0))
    ensures Enabled(cfg, NextState(cfg, s, step), then_)
  {
    then_ := if step.Tick? then Wake else Consume(seq(|s.queue| + 1, _ => 0));
  }

  lemma WentOn(cfg: Config, perRun: nat, capIds: set<string>, seed: seq<DataPoint>, now: int,
               steps: seq<Step>, trace: seq<World>, more: seq<Step>, states: seq<World>)
    requires |trace| == |steps| + 1 && GoesOn(cfg, perRun, capIds, seed, now, steps, trace, more, states)
    ensures |states| == |more| && |trace + states| == |steps + more| + 1
    ensures IsRun(cfg, seed, now, steps + more, trace + states) && Tame(cfg, perRun, capIds, steps + more, trace + states)
  {
  }

  lemma OnAndOn(cfg: Config, perRun: nat, capIds: set<string>, seed: seq<DataPoint>, now: int, steps: seq<Step>, trace: seq<World>,
                more: seq<Step>, states: seq<World>, rest: seq<Step>, last: seq<World>)
    requires GoesOn(cfg, perRun, capIds, seed, now, steps, trace, more, states)
    requires GoesOn(cfg, perRun, capIds, seed, now, steps + more, trace + states, rest, last)
    ensures GoesOn(cfg, perRun, capIds, seed, now, steps, trace, more + rest, states + last)
    ensures |last| == |rest|
  {
    hide IsRun, Tame;
    assert steps + (more + rest) == steps + more + rest && trace + (states + last) == trace + states + last;
  }

  /**
   * Quiescence is reached. However a tame run of a flow that settles has gone so far, it goes on, by planning with
   * what it had, completing what runs and waiting out what is armed, until it quiesces. Getting there takes at most
   * two steps for each loop step still allowed by the bound on whole runs, and one more.
   */
  lemma {:induction false} ReachesQuiescence(cfg: Config, perRun: nat, capIds: set<string>, seed: seq<DataPoint>, now: int,
                                             steps: seq<Step>, trace: seq<World>) returns (more: seq<Step>, states: seq<World>)
    requires Settles(cfg) && IsRun(cfg, seed, now, steps, trace) && Tame(cfg, perRun, capIds, steps, trace)
    requires !trace[|steps|].s.phase.Ended?
    ensures GoesOn(cfg, perRun, capIds, seed, now, steps, trace, more, states)
    ensures |states| == |more| > 0 && more[|more| - 1].Quiesce? && states[|more| - 1].s.phase.Ended?
    ensures |more| <= 2 * (StepBound(cfg, perRun, |capIds|) - LoopSteps(steps)) + 1
    decreases StepBound(cfg, perRun, |capIds|) - LoopSteps(steps)
  {
    hide *;
    RunLength(cfg, seed, now, steps, trace);
    more, states := OneLoopStep(cfg, perRun, capIds, seed, now, steps, trace);
    WentOn(cfg, perRun, capIds, seed, now, steps, trace, more, states);
    var steps', trace' := steps + more, trace + states;
    BoundedRun(cfg, perRun, capIds, seed, now, steps, trace);
    if more != [Quiesce] {
      BoundedRun(cfg, perRun, capIds, seed, now, steps', trace');
      assert trace'[|steps'|] == states[|more| - 1];
      var rest, last := ReachesQuiescence(cfg, perRun, capIds, seed, now, steps', trace');
      OnAndOn(cfg, perRun, capIds, seed, now, steps, trace, more, states, rest, last);
      more, states := more + rest, states + last;
    }
  }

  lemma RunLength(cfg: Config, seed: seq<DataPoint>, now: int, steps: seq<Step>, trace: seq<World>)
    requires IsRun(cfg, seed, now, steps, trace)
    ensures |trace| == |steps| + 1
  {
  }
}
