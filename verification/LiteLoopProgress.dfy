/** From bounded launches to bounded runs: each drain uses up a signal, each window that comes due launches. */
module LiteLoopProgress {
  import opened Prelude
  import opened DataPoints
  import opened KeyedMerge
  import opened SessionState
  import opened Digraph
  import opened LiteGraph
  import opened LiteLoop
  import opened LiteLoopSafety
  import opened LiteLoopBounds
  import opened LiteLoopTermination

  // ----- totals over the operators -----

  function TotalLaunches(operators: seq<Operator>, h: History, n: nat): nat
    requires n <= |operators|
  {
    if n == 0 then 0 else TotalLaunches(operators, h, n - 1) + h.At(operators[n - 1].id).launches
  }

  function TotalRuns(operators: seq<Operator>, s: State, n: nat): nat
    requires n <= |operators|
  {
    if n == 0 then 0 else TotalRuns(operators, s, n - 1) + s.At(operators[n - 1].id).runs
  }

  lemma {:induction false} TotalRunsGrow(operators: seq<Operator>, s: State, s': State, n: nat)
    requires n <= |operators| && forall o :: s.At(o).runs <= s'.At(o).runs
    ensures TotalRuns(operators, s, n) <= TotalRuns(operators, s', n)
    ensures (exists j :: 0 <= j < n && s.At(operators[j].id).runs < s'.At(operators[j].id).runs) ==>
      TotalRuns(operators, s, n) < TotalRuns(operators, s', n)
  {
    if n > 0 { TotalRunsGrow(operators, s, s', n - 1); }
  }

  lemma {:induction false} TotalLaunchesGrow(operators: seq<Operator>, h: History, h': History, n: nat)
    requires n <= |operators| && forall o :: h.At(o).launches <= h'.At(o).launches
    ensures TotalLaunches(operators, h, n) <= TotalLaunches(operators, h', n)
    ensures (exists j :: 0 <= j < n && h.At(operators[j].id).launches < h'.At(operators[j].id).launches) ==>
      TotalLaunches(operators, h, n) < TotalLaunches(operators, h', n)
  {
    if n > 0 { TotalLaunchesGrow(operators, h, h', n - 1); }
  }

  lemma {:induction false} RunsWithinLaunches(cfg: Config, s: State, h: History, n: nat)
    requires n <= |cfg.operators| && Core(cfg, s, h)
    ensures TotalRuns(cfg.operators, s, n) <= TotalLaunches(cfg.operators, h, n)
  {
    if n > 0 {
      RunsWithinLaunches(cfg, s, h, n - 1);
      assert OpInv(cfg, s, h, cfg.operators[n - 1].id);
    }
  }

  lemma {:induction false} SentWithinLaunches(cfg: Config, perRun: nat, h: History, n: nat)
    requires n <= |cfg.operators| && forall o :: SentBy(o, h.sent) <= perRun * h.At(o).launches
    ensures SentByAny(cfg.operators, (set p | p in cfg.operators), h.sent, n) <= perRun * TotalLaunches(cfg.operators, h, n)
  {
    if n > 0 {
      SentWithinLaunches(cfg, perRun, h, n - 1);
      MulSum(perRun, TotalLaunches(cfg.operators, h, n - 1), h.At(cfg.operators[n - 1].id).launches);
    }
  }

  lemma {:induction false} AllSentCounted(cfg: Config, sent: seq<Emission>)
    requires AllDeclared(cfg, sent)
    ensures |sent| <= SentByAny(cfg.operators, (set p | p in cfg.operators), sent, |cfg.operators|)
  {
    if sent != [] {
      var init, e := sent[..|sent| - 1], sent[|sent| - 1];
      assert sent == init + [e];
      AllSentCounted(cfg, init);
      SentByAnyGrows(cfg.operators, (set p | p in cfg.operators), init, e, |cfg.operators|);
      var j := DeclaredIndex(cfg, e);
    }
  }

  lemma DeclaredIndex(cfg: Config, e: Emission) returns (j: nat)
    requires Declared(cfg, e)
    ensures j < |cfg.operators| && cfg.operators[j].id == e.id
  {
    var op :| op in cfg.operators && op.id == e.id;
    j :| 0 <= j < |cfg.operators| && cfg.operators[j] == op;
  }

  ghost function TotalBound(cfg: Config, perRun: nat, caps: nat, n: nat): nat
    requires Settles(cfg) && n <= |cfg.operators|
  {
    if n == 0 then 0 else TotalBound(cfg, perRun, caps, n - 1) + LaunchBound(cfg, perRun, caps, cfg.operators[n - 1])
  }

  lemma {:induction false} TotalLaunchesBounded(cfg: Config, perRun: nat, capIds: set<string>, w: World, n: nat)
    requires Settles(cfg) && Accounted(cfg, perRun, capIds, w) && n <= |cfg.operators|
    ensures TotalLaunches(cfg.operators, w.h, n) <= TotalBound(cfg, perRun, |capIds|, n)
  {
    hide Accounted;
    if n > 0 {
      TotalLaunchesBounded(cfg, perRun, capIds, w, n - 1);
      LaunchesBounded(cfg, perRun, capIds, w, cfg.operators[n - 1]);
    }
  }

  // ----- a window that comes due launches its operator -----

  /** `op` is the operator whose armed window is due at `t`, and the next pass would still want to launch it. */
  ghost predicate Attained(cfg: Config, s: State, op: Operator, t: int, available: map<string, Class>) {
    var x := s.At(op.id);
    && op in cfg.operators && x.running.None? && !Tripped(cfg, op.id, x.count)
    && Ready(op, s.session.entries, available)
    && (|| x.retryAt == Some(t)
        || (x.retryAt.None? && x.debounceAt == Some(t) && op.id in s.session.watermarks
            && op.policy.rerunOnNewData && Relevant(op, OpDelta(s, op.id, available))))
  }

  ghost predicate SomeAttains(cfg: Config, s: State, t: int, available: map<string, Class>) {
    exists op :: Attained(cfg, s, op, t, available)
  }

  lemma AttainedSame(cfg: Config, s: State, s': State, op: Operator, t: int, available: map<string, Class>)
    requires Attained(cfg, s, op, t, available)
    requires s'.At(op.id) == s.At(op.id) && At(s'.session.watermarks, op.id) == At(s.session.watermarks, op.id)
    requires s'.session.entries == s.session.entries
    ensures Attained(cfg, s', op, t, available)
  {
    hide Ready, Relevant, Tripped;
    SameSliceSameStanding(cfg, s, s', op, available);
  }

  /** The soonest window the plan reports belongs to an operator it did not launch. */
  ghost predicate SoonestAttained(cfg: Config, s: State, plan: Plan, available: map<string, Class>, n: nat)
    requires n <= |cfg.operators|
  {
    plan.soonest.Some? ==>
      exists j :: 0 <= j < n && Attained(cfg, s, cfg.operators[j], plan.soonest.value, available)
        && forall i :: 0 <= i < |plan.runnable| ==> plan.runnable[i].op.id != cfg.operators[j].id
  }

  lemma PlanOneAttains(cfg: Config, s: State, plan: Plan, op: Operator, available: map<string, Class>, now: int)
    requires op in cfg.operators
    ensures var (s', plan') := PlanOne(cfg, s, plan, op, available, now);
      || plan'.soonest == plan.soonest
      || (plan'.soonest.Some? && plan'.runnable == plan.runnable && Attained(cfg, s', op, plan'.soonest.value, available))
  {
    hide Ready, Relevant, Tripped;
    var (s', plan') := PlanOne(cfg, s, plan, op, available, now);
    if plan'.soonest != plan.soonest {
      assert OpDelta(s', op.id, available) == OpDelta(s, op.id, available);
    }
  }

  lemma {:induction false} PlanUpToAttains(cfg: Config, s: State, h: History, available: map<string, Class>, times: seq<int>, n: nat)
    requires WellFormed(cfg) && Core(cfg, s, h) && !s.deadlineHit && n <= |cfg.operators| == |times|
    ensures var (s', plan) := PlanUpTo(cfg, s, available, times, n); SoonestAttained(cfg, s', plan, available, n)
  {
    hide Core, PlanOne, NotePlan, Attained, PlanInv, SoonestAttained;
    if n == 0 {
      assert SoonestAttained(cfg, s, Plan([], None), available, 0) by { NothingAttained(cfg, s, available); }
    } else {
      PlanUpToAttains(cfg, s, h, available, times, n - 1);
      PlanUpToKeeps(cfg, s, h, available, times, n - 1);
      var (s1, plan) := PlanUpTo(cfg, s, available, times, n - 1);
      SoonestStep(cfg, s, s1, NotePlanUpTo(cfg, s, h, available, times, n - 1), plan, available, times[n - 1], n - 1);
    }
  }

  lemma NothingAttained(cfg: Config, s: State, available: map<string, Class>)
    ensures SoonestAttained(cfg, s, Plan([], None), available, 0)
  {
  }

  lemma SoonestStep(cfg: Config, s0: State, s: State, h: History, plan: Plan, available: map<string, Class>, now: int, n: nat)
    requires WellFormed(cfg) && n < |cfg.operators| && Core(cfg, s, h) && PlanInv(cfg, s0, s, plan, available, n) && !s0.deadlineHit
    requires SoonestAttained(cfg, s, plan, available, n)
    ensures var (s', plan') := PlanOne(cfg, s, plan, cfg.operators[n], available, now);
      SoonestAttained(cfg, s', plan', available, n + 1)
  {
    hide Core, PlanOne, NotePlan, Attained, Considered, RunnableOk;
    var op := cfg.operators[n];
    var (s', plan') := PlanOne(cfg, s, plan, op, available, now);
    PlanOneAttains(cfg, s, plan, op, available, now);
    PlanFrame(cfg, s, h, plan, op, available, now);
    PlanOneConsiders(cfg, s, h, plan, op, available, now);
    if plan'.soonest.Some? {
      if plan'.soonest == plan.soonest {
        var j :| 0 <= j < n && Attained(cfg, s, cfg.operators[j], plan.soonest.value, available)
          && forall i :: 0 <= i < |plan.runnable| ==> plan.runnable[i].op.id != cfg.operators[j].id;
        PlanOneLeavesOthers(cfg, s, h, plan, op, available, now, cfg.operators[j].id);
        AttainedSame(cfg, s, s', cfg.operators[j], plan.soonest.value, available);
        assert forall i :: 0 <= i < |plan.runnable| ==> plan'.runnable[i] == plan.runnable[i];
      } else {
        assert forall i :: 0 <= i < |plan.runnable| ==> plan.runnable[i].op in cfg.operators[..n];
      }
    }
  }

  /** After a pass that waits until `t`, some operator's window is due at `t`. */
  lemma PassAttains(cfg: Config, w: World, available: map<string, Class>, times: seq<int>)
    requires WellFormed(cfg) && Inv(cfg, w) && Enabled(cfg, w.s, PlanAndLaunch(available, times)) && cfg.deadline.None?
    ensures var s' := Next(cfg, w, PlanAndLaunch(available, times)).s;
      && s'.phase.Waiting? && s'.phase.available == available
      && (s'.phase.wake.Some? ==> SomeAttains(cfg, s', s'.phase.wake.value, available))
  {
    hide Core, PlanInv, LaunchUpTo, PlanUpTo, NotePlanUpTo, NoteLaunchUpTo, Attained;
    var s, h := w.s, w.h;
    PlanUpToKeeps(cfg, s, h, available, times, |times|);
    PlanUpToAttains(cfg, s, h, available, times, |times|);
    var (s1, plan) := PlanUpTo(cfg, s, available, times, |times|);
    var h1 := NotePlanUpTo(cfg, s, h, available, times, |times|);
    PlannedRunnable(cfg, s, s1, plan, available);
    LaunchUpToKeeps(cfg, s1, h1, plan.runnable, available, |plan.runnable|);
    var s2 := LaunchUpTo(s1, plan.runnable, available, |plan.runnable|);
    var s' := Next(cfg, w, PlanAndLaunch(available, times)).s;
    if plan.soonest.Some? {
      var j :| 0 <= j < |cfg.operators| && Attained(cfg, s1, cfg.operators[j], plan.soonest.value, available)
        && forall i :: 0 <= i < |plan.runnable| ==> plan.runnable[i].op.id != cfg.operators[j].id;
      assert s'.At(cfg.operators[j].id) == s2.At(cfg.operators[j].id);
      AttainedSame(cfg, s1, s', cfg.operators[j], plan.soonest.value, available);
    }
  }

  /** More capabilities keep an operator ready and keep its delta relevant. */
  lemma AttainedMonotone(cfg: Config, s: State, op: Operator, t: int, available: map<string, Class>, more: map<string, Class>)
    requires Attained(cfg, s, op, t, available) && NoLess(available, more)
    ensures Attained(cfg, s, op, t, more)
  {
    hide Triggers, Tripped;
    forall c | c in op.requires_ ensures exists id :: id in more && IsSubclass(more[id], c) {
      var id :| id in available && IsSubclass(available[id], c);
      assert id in more;
    }
    var d, d' := OpDelta(s, op.id, available), OpDelta(s, op.id, more);
    assert d.newCaps <= d'.newCaps;
  }

  lemma DueIsLaunched(cfg: Config, s: State, plan: Plan, op: Operator, t: int, available: map<string, Class>, now: int)
    requires Attained(cfg, s, op, t, available) && t <= now
    ensures var plan' := PlanOne(cfg, s, plan, op, available, now).1;
      |plan'.runnable| == |plan.runnable| + 1 && plan'.runnable[|plan.runnable|].op == op
  {
    hide Ready, Relevant, Tripped;
  }

  ghost predicate IsPlanned(plan: Plan, op: Operator) {
    exists i :: 0 <= i < |plan.runnable| && plan.runnable[i].op == op
  }

  lemma {:induction false} PlanLaunchesDue(cfg: Config, s: State, h: History, available: map<string, Class>, times: seq<int>, j: nat, t: int, n: nat)
    requires WellFormed(cfg) && Core(cfg, s, h) && !s.deadlineHit && j < n <= |cfg.operators| == |times|
    requires Attained(cfg, s, cfg.operators[j], t, available) && t <= times[j]
    ensures IsPlanned(PlanUpTo(cfg, s, available, times, n).1, cfg.operators[j])
    decreases n
  {
    hide Core, PlanOne, NotePlan, Attained, Considered, RunnableOk;
    PlanUpToKeeps(cfg, s, h, available, times, n - 1);
    var (s1, plan) := PlanUpTo(cfg, s, available, times, n - 1);
    var h1 := NotePlanUpTo(cfg, s, h, available, times, n - 1);
    if j == n - 1 {
      AttainedSame(cfg, s, s1, cfg.operators[j], t, available);
      DueIsLaunched(cfg, s1, plan, cfg.operators[j], t, available, times[j]);
    } else {
      PlanLaunchesDue(cfg, s, h, available, times, j, t, n - 1);
      PlanOneConsiders(cfg, s1, h1, plan, cfg.operators[n - 1], available, times[n - 1]);
      var plan' := PlanOne(cfg, s1, plan, cfg.operators[n - 1], available, times[n - 1]).1;
      var i :| 0 <= i < |plan.runnable| && plan.runnable[i].op == cfg.operators[j];
      assert plan'.runnable[..|plan.runnable|] == plan.runnable;
      assert plan'.runnable[i] == plan.runnable[i];
    }
  }

  /**
   * When an operator may launch, judged at the start of the pass: idle, untripped and ready, and its armed retry
   * due; or, with no retry armed, never run yet, or rerun-eligible with its coalescing window over.
   */
  predicate MayLaunch(cfg: Config, s: State, op: Operator, available: map<string, Class>, time: int) {
    var x := s.At(op.id);
    && x.running.None? && !Tripped(cfg, op.id, x.count) && Ready(op, s.session.entries, available)
    && if x.retryAt.Some? then time >= x.retryAt.value
       else
         || op.id !in s.session.watermarks
         || (op.policy.rerunOnNewData && Relevant(op, OpDelta(s, op.id, available))
             && time >= if x.debounceAt.Some? then x.debounceAt.value else time + op.policy.debounce)
  }

  /** One operator's standing: its entries, its watermark, and the data and revision it would be judged on. */
  ghost predicate SameStanding(s: State, s': State, id: string) {
    s'.At(id) == s.At(id) && At(s'.session.watermarks, id) == At(s.session.watermarks, id)
    && s'.session.entries == s.session.entries && s'.session.revision == s.session.revision
  }

  /**
   * A pass plans exactly the operators that may launch, each judged at its own clock reading and untouched by
   * what the pass decided about the others.
   */
  lemma {:induction false} PassPlansExactlyDue(cfg: Config, s: State, available: map<string, Class>, times: seq<int>, n: nat, j: nat)
    requires WellFormed(cfg) && n <= |cfg.operators| == |times| && j < |cfg.operators|
    ensures var (s', plan) := PlanUpTo(cfg, s, available, times, n);
      && (IsPlanned(plan, cfg.operators[j]) <==> j < n && MayLaunch(cfg, s, cfg.operators[j], available, times[j]))
      && (j >= n ==> SameStanding(s, s', cfg.operators[j].id))
  {
    if n > 0 {
      hide PlanOne, MayLaunch;
      PassPlansExactlyDue(cfg, s, available, times, n - 1, j);
      var (s1, plan) := PlanUpTo(cfg, s, available, times, n - 1);
      var op := cfg.operators[n - 1];
      if j == n - 1 {
        PlansIfDue(cfg, s, s1, plan, op, available, times[j]);
      } else {
        PlansOnlyOne(cfg, s1, plan, op, cfg.operators[j], available, times[n - 1]);
      }
    }
  }

  lemma PlansIfDue(cfg: Config, s: State, s1: State, plan: Plan, op: Operator, available: map<string, Class>, time: int)
    requires SameStanding(s, s1, op.id) && !IsPlanned(plan, op)
    ensures IsPlanned(PlanOne(cfg, s1, plan, op, available, time).1, op) <==> MayLaunch(cfg, s, op, available, time)
  {
    assert OpDelta(s1, op.id, available) == OpDelta(s, op.id, available);
    hide OpDelta, Ready, Relevant, Tripped, ArmWindow, DropRetry;
    var plan' := PlanOne(cfg, s1, plan, op, available, time).1;
    if MayLaunch(cfg, s, op, available, time) { assert plan'.runnable[|plan.runnable|].op == op; }
  }

  lemma PlansOnlyOne(cfg: Config, s1: State, plan: Plan, op: Operator, other: Operator, available: map<string, Class>, time: int)
    requires op.id != other.id
    ensures var (s', plan') := PlanOne(cfg, s1, plan, op, available, time);
      (IsPlanned(plan', other) <==> IsPlanned(plan, other)) && SameStanding(s1, s', other.id)
  {
    hide Decide, Ready, OpDelta;
    var plan' := PlanOne(cfg, s1, plan, op, available, time).1;
    if IsPlanned(plan, other) {
      var i :| 0 <= i < |plan.runnable| && plan.runnable[i].op == other;
      assert plan'.runnable[i] == plan.runnable[i];
    }
  }

  lemma {:induction false} TimesAdvance(from: int, times: seq<int>, j: nat)
    requires Nondecreasing(from, times) && j < |times|
    ensures from <= times[j]
  {
    if j > 0 { TimesAdvance(from, times, j - 1); }
    assert (if j == 0 then from else times[j - 1]) <= times[j];
  }

  lemma {:induction false} PlanKeepsLaunches(cfg: Config, s: State, h: History, available: map<string, Class>, times: seq<int>, n: nat)
    requires n <= |cfg.operators| == |times|
    ensures forall o :: NotePlanUpTo(cfg, s, h, available, times, n).At(o).launches == h.At(o).launches
  {
    hide Decide, PlanUpTo;
    if n > 0 { PlanKeepsLaunches(cfg, s, h, available, times, n - 1); }
  }

  lemma {:induction false} LaunchesCounted(s: State, h: History, runnable: seq<Runnable>, n: nat)
    requires n <= |runnable|
    ensures forall o :: h.At(o).launches <= NoteLaunchUpTo(s, h, runnable, n).At(o).launches
    ensures forall i :: 0 <= i < n ==> h.At(runnable[i].op.id).launches < NoteLaunchUpTo(s, h, runnable, n).At(runnable[i].op.id).launches
  {
    if n > 0 { LaunchesCounted(s, h, runnable, n - 1); }
  }

  /** A pass never loses launches, and makes one if a window is due. */
  lemma PassLaunches(cfg: Config, w: World, available: map<string, Class>, times: seq<int>, cur: map<string, Class>)
    requires WellFormed(cfg) && Inv(cfg, w) && Enabled(cfg, w.s, PlanAndLaunch(available, times)) && NoLess(cur, available)
    ensures var h' := Next(cfg, w, PlanAndLaunch(available, times)).h; var n := |cfg.operators|;
      && TotalLaunches(cfg.operators, w.h, n) <= TotalLaunches(cfg.operators, h', n)
      && ((exists t :: t <= w.s.now && SomeAttains(cfg, w.s, t, cur)) ==>
            TotalLaunches(cfg.operators, w.h, n) < TotalLaunches(cfg.operators, h', n))
  {
    hide Core, PlanUpTo, NotePlanUpTo, NoteLaunchUpTo, Attained;
    var s, h := w.s, w.h;
    var h' := Next(cfg, w, PlanAndLaunch(available, times)).h;
    var (s1, plan) := PlanUpTo(cfg, s, available, times, |times|);
    var h1 := NotePlanUpTo(cfg, s, h, available, times, |times|);
    PlanKeepsLaunches(cfg, s, h, available, times, |times|);
    LaunchesCounted(s1, h1, plan.runnable, |plan.runnable|);
    TotalLaunchesGrow(cfg.operators, h, h', |cfg.operators|);
    if t :| t <= s.now && SomeAttains(cfg, s, t, cur) {
      var op :| Attained(cfg, s, op, t, cur);
      assert op in cfg.operators by { AttainedOperator(cfg, s, op, t, cur); }
      var j :| 0 <= j < |cfg.operators| && cfg.operators[j] == op;
      AttainedMonotone(cfg, s, op, t, cur, available);
      TimesAdvance(s.now, times, j);
      PlanLaunchesDue(cfg, s, h, available, times, j, t, |times|);
      var i :| 0 <= i < |plan.runnable| && plan.runnable[i].op == op;
      assert h.At(cfg.operators[j].id).launches < h'.At(cfg.operators[j].id).launches;
    }
  }

  lemma AttainedOperator(cfg: Config, s: State, op: Operator, t: int, available: map<string, Class>)
    requires Attained(cfg, s, op, t, available)
    ensures op in cfg.operators
  {
  }

  // ----- counting loop steps -----

  datatype Tally = Tally(passes: nat, drains: nat, wakes: nat)

  function TallyOf(steps: seq<Step>, n: nat): Tally
    requires n <= |steps|
  {
    if n == 0 then Tally(0, 0, 0)
    else
      var t := TallyOf(steps, n - 1);
      match steps[n - 1]
      case PlanAndLaunch(_, _) => t.(passes := t.passes + 1)
      case Consume(_) => t.(drains := t.drains + 1)
      case Wake => t.(wakes := t.wakes + 1)
      case _ => t
  }

  /** Was the last loop step a window coming due? */
  predicate JustWoken(steps: seq<Step>, n: nat)
    requires n <= |steps|
  {
    n > 0 && (steps[n - 1].Wake? || ((steps[n - 1].Tick? || steps[n - 1].Arrive?) && JustWoken(steps, n - 1)))
  }

  ghost predicate Counted(cfg: Config, steps: seq<Step>, n: nat, w: World)
    requires n <= |steps|
  {
    var t, k := TallyOf(steps, n), |cfg.operators|;
    && t.drains <= w.h.merged + TotalRuns(cfg.operators, w.s, k)
    && t.wakes <= TotalLaunches(cfg.operators, w.h, k) + (if JustWoken(steps, n) then 1 else 0)
    && t.passes <= t.drains + t.wakes + (if w.s.phase.Top? then 0 else 1)
    && (JustWoken(steps, n) ==> w.s.phase.Top?)
  }

  /** Where a wait ends there is an operator to launch, and after the wait it is due. */
  ghost predicate WaitsForSome(cfg: Config, steps: seq<Step>, n: nat, s: State)
    requires n <= |steps|
  {
    && (s.phase.Waiting? && s.phase.wake.Some? ==> SomeAttains(cfg, s, s.phase.wake.value, LastAvailable(steps, n)))
    && (JustWoken(steps, n) ==> exists t :: t <= s.now && SomeAttains(cfg, s, t, LastAvailable(steps, n)))
  }

  lemma SomeAttainsSame(cfg: Config, s: State, s': State, t: int, available: map<string, Class>)
    requires SomeAttains(cfg, s, t, available) && s'.ops == s.ops && s'.session == s.session
    ensures SomeAttains(cfg, s', t, available)
  {
    hide Attained;
    var op :| Attained(cfg, s, op, t, available);
    AttainedSame(cfg, s, s', op, t, available);
  }

  lemma QuietStepCounted(cfg: Config, steps: seq<Step>, n: nat, w: World, w': World)
    requires n < |steps| && Counted(cfg, steps, n, w) && WaitsForSome(cfg, steps, n, w.s)
    requires steps[n].Tick? || steps[n].Arrive? || steps[n].Wake? || steps[n].Quiesce?
    requires w'.s.ops == w.s.ops && w'.s.session == w.s.session && w'.h.tracks == w.h.tracks && w'.h.merged == w.h.merged
    requires w.s.now <= w'.s.now
    requires steps[n].Tick? || steps[n].Arrive? ==> w'.s.phase == w.s.phase
    requires steps[n].Wake? ==> w.s.phase.Waiting? && w.s.phase.wake.Some? && w.s.now >= w.s.phase.wake.value && w'.s.phase.Top?
    requires steps[n].Quiesce? ==> w.s.phase.Waiting? && w'.s.phase.Ended?
    ensures Counted(cfg, steps, n + 1, w') && WaitsForSome(cfg, steps, n + 1, w'.s)
  {
    hide SomeAttains;
    var avail := LastAvailable(steps, n);
    assert forall o :: w'.s.At(o) == w.s.At(o) && w'.h.At(o) == w.h.At(o);
    TotalRunsGrow(cfg.operators, w.s, w'.s, |cfg.operators|);
    TotalLaunchesGrow(cfg.operators, w.h, w'.h, |cfg.operators|);
    if w.s.phase.Waiting? && w.s.phase.wake.Some? { SomeAttainsSame(cfg, w.s, w'.s, w.s.phase.wake.value, avail); }
    if steps[n].Wake? { assert SomeAttains(cfg, w'.s, w.s.phase.wake.value, LastAvailable(steps, n + 1)); }
    if JustWoken(steps, n) {
      var t :| t <= w.s.now && SomeAttains(cfg, w.s, t, avail);
      SomeAttainsSame(cfg, w.s, w'.s, t, avail);
      assert LastAvailable(steps, n + 1) == avail && t <= w'.s.now;
    }
    assert w'.s.phase.Waiting? ==> w'.s.phase == w.s.phase;
  }

  lemma DrainCounted(cfg: Config, steps: seq<Step>, n: nat, w: World)
    requires n < |steps| && steps[n].Consume? && Enabled(cfg, w.s, steps[n])
    requires WellFormed(cfg) && Inv(cfg, w) && cfg.deadline.None? && !w.s.deadlineHit
    requires exists cur :: Paid(cfg, w.s, w.h, cur)
    requires Counted(cfg, steps, n, w)
    ensures var w' := Next(cfg, w, steps[n]); Counted(cfg, steps, n + 1, w') && WaitsForSome(cfg, steps, n + 1, w'.s)
  {
    hide Core, Paid, ConsumeQueue, NoteConsume, SomeAttains;
    var delays := steps[n].delays;
    var cur :| Paid(cfg, w.s, w.h, cur);
    var w' := Next(cfg, w, steps[n]);
    ConsumePaid(cfg, w.s, w.h, delays, cur);
    ConsumeKeeps(cfg, w.s, w.h, delays);
    var s1 := ConsumeQueue(cfg, w.s, delays);
    assert forall o :: w'.s.At(o) == s1.At(o);
    ConsumeKeepsLaunches(cfg, w.s, w.h, delays);
    TotalRunsGrow(cfg.operators, w.s, w'.s, |cfg.operators|);
    TotalLaunchesGrow(cfg.operators, w.h, w'.h, |cfg.operators|);
    assert w.h.merged <= w'.h.merged;
    if w.h.merged == w'.h.merged {
      var i :| 0 <= i < |w.s.queue| && w.s.At(w.s.queue[i].id).runs < s1.At(w.s.queue[i].id).runs;
      var j := RunningIndex(cfg, w.s, w.h, w.s.queue[i].id);
      assert w.s.At(cfg.operators[j].id).runs < w'.s.At(cfg.operators[j].id).runs;
    }
  }

  lemma RunningIndex(cfg: Config, s: State, h: History, o: string) returns (j: nat)
    requires Core(cfg, s, h) && s.At(o).running.Some?
    ensures j < |cfg.operators| && cfg.operators[j].id == o
  {
    assert OpInv(cfg, s, h, o);
    var op :| op in cfg.operators && op.id == o;
    j :| 0 <= j < |cfg.operators| && cfg.operators[j] == op;
  }

  lemma {:induction false} NoteUpToKeepsLaunches(cfg: Config, s: State, h: History, signals: seq<Signal>, delays: seq<nat>, n: nat)
    requires n <= |signals| == |delays|
    ensures forall o :: NoteUpTo(cfg, s, h, signals, delays, n).At(o).launches == h.At(o).launches
  {
    hide Complete, RecordUpTo;
    if n > 0 { NoteUpToKeepsLaunches(cfg, s, h, signals, delays, n - 1); }
  }

  lemma ConsumeKeepsLaunches(cfg: Config, s: State, h: History, delays: seq<nat>)
    requires |delays| == |s.queue|
    ensures forall o :: NoteConsume(cfg, s, h, delays).At(o).launches == h.At(o).launches
  {
    hide NoteUpTo;
    NoteUpToKeepsLaunches(cfg, MergeQueued(s), NoteMerge(s, h), s.queue, delays, |s.queue|);
    assert forall o :: NoteMerge(s, h).At(o) == h.At(o);
  }

  lemma PassCounted(cfg: Config, steps: seq<Step>, n: nat, w: World)
    requires n < |steps| && steps[n].PlanAndLaunch? && Enabled(cfg, w.s, steps[n])
    requires WellFormed(cfg) && Inv(cfg, w) && cfg.deadline.None?
    requires NoLess(LastAvailable(steps, n), steps[n].available)
    requires Counted(cfg, steps, n, w) && WaitsForSome(cfg, steps, n, w.s)
    ensures var w' := Next(cfg, w, steps[n]); Counted(cfg, steps, n + 1, w') && WaitsForSome(cfg, steps, n + 1, w'.s)
  {
    hide Inv, SomeAttains, Next, NoLess;
    var w' := Next(cfg, w, steps[n]);
    PassAttains(cfg, w, steps[n].available, steps[n].times);
    PassLaunches(cfg, w, steps[n].available, steps[n].times, LastAvailable(steps, n));
    PassKeepsRuns(cfg, w, steps[n].available, steps[n].times);
    TotalRunsGrow(cfg.operators, w.s, w'.s, |cfg.operators|);
  }

  lemma PassKeepsRuns(cfg: Config, w: World, available: map<string, Class>, times: seq<int>)
    requires Enabled(cfg, w.s, PlanAndLaunch(available, times))
    ensures var w' := Next(cfg, w, PlanAndLaunch(available, times));
      (forall o :: w'.s.At(o).runs == w.s.At(o).runs) && w'.h.merged == w.h.merged
  {
    hide PlanUpTo, LaunchUpTo, NotePlanUpTo, NoteLaunchUpTo;
    var (s1, plan) := PlanUpTo(cfg, w.s, available, times, |times|);
    PlanUpToKeepsRuns(cfg, w.s, w.h, available, times, |times|);
    LaunchUpToKeepsRuns(s1, NotePlanUpTo(cfg, w.s, w.h, available, times, |times|), plan.runnable, available, |plan.runnable|);
    var s2 := LaunchUpTo(s1, plan.runnable, available, |plan.runnable|);
    var w' := Next(cfg, w, PlanAndLaunch(available, times));
    assert forall o :: w'.s.At(o) == s2.At(o);
  }

  lemma {:induction false} PlanUpToKeepsRuns(cfg: Config, s: State, h: History, available: map<string, Class>, times: seq<int>, n: nat)
    requires n <= |cfg.operators| == |times|
    ensures forall o :: PlanUpTo(cfg, s, available, times, n).0.At(o).runs == s.At(o).runs
    ensures NotePlanUpTo(cfg, s, h, available, times, n).merged == h.merged
  {
    hide PlanOne, NotePlan;
    if n > 0 {
      PlanUpToKeepsRuns(cfg, s, h, available, times, n - 1);
      var (s1, plan) := PlanUpTo(cfg, s, available, times, n - 1);
      PlanOneKeepsRuns(cfg, s1, NotePlanUpTo(cfg, s, h, available, times, n - 1), plan, cfg.operators[n - 1], available, times[n - 1]);
    }
  }

  lemma PlanOneKeepsRuns(cfg: Config, s: State, h: History, plan: Plan, op: Operator, available: map<string, Class>, now: int)
    ensures forall o :: PlanOne(cfg, s, plan, op, available, now).0.At(o).runs == s.At(o).runs
    ensures NotePlan(cfg, s, h, op, available, now).merged == h.merged
  {
    hide Decide, Ready, OpDelta;
  }

  lemma {:induction false} LaunchUpToKeepsRuns(s: State, h: History, runnable: seq<Runnable>, available: map<string, Class>, n: nat)
    requires n <= |runnable|
    ensures forall o :: LaunchUpTo(s, runnable, available, n).At(o).runs == s.At(o).runs
    ensures NoteLaunchUpTo(s, h, runnable, n).merged == h.merged
  {
    if n > 0 { LaunchUpToKeepsRuns(s, h, runnable, available, n - 1); }
  }

  lemma StartCounted(cfg: Config, seed: seq<DataPoint>, now: int, steps: seq<Step>)
    ensures Counted(cfg, steps, 0, StartWorld(cfg, seed, now)) && WaitsForSome(cfg, steps, 0, StartWorld(cfg, seed, now).s)
  {
  }

  lemma {:induction false} RunCounted(cfg: Config, perRun: nat, capIds: set<string>, seed: seq<DataPoint>, now: int,
                                      steps: seq<Step>, trace: seq<World>, n: nat)
    requires IsRun(cfg, seed, now, steps, trace) && Tame(cfg, perRun, capIds, steps, trace) && n < |trace|
    ensures Counted(cfg, steps, n, trace[n]) && WaitsForSome(cfg, steps, n, trace[n].s)
  {
    hide Counted, WaitsForSome, Inv, Paid, Next, Enabled, NoLess;
    if n == 0 {
      StartCounted(cfg, seed, now, steps);
    } else {
      var w, step := trace[n - 1], steps[n - 1];
      RunCounted(cfg, perRun, capIds, seed, now, steps, trace, n - 1);
      RunPaid(cfg, perRun, capIds, seed, now, steps, trace, n - 1);
      RunKeepsInv(cfg, seed, now, steps, trace, n - 1);
      assert StepsTo(cfg, w, step, trace[n]);
      StepCounted(cfg, steps, n - 1, w, LastAvailable(steps, n - 1).Keys);
    }
  }

  lemma StepCounted(cfg: Config, steps: seq<Step>, n: nat, w: World, cur: set<string>)
    requires n < |steps| && WellFormed(cfg) && Inv(cfg, w) && Enabled(cfg, w.s, steps[n])
    requires cfg.deadline.None? && !w.s.deadlineHit && Paid(cfg, w.s, w.h, cur)
    requires steps[n].PlanAndLaunch? ==> NoLess(LastAvailable(steps, n), steps[n].available)
    requires Counted(cfg, steps, n, w) && WaitsForSome(cfg, steps, n, w.s)
    ensures var w' := Next(cfg, w, steps[n]); Counted(cfg, steps, n + 1, w') && WaitsForSome(cfg, steps, n + 1, w'.s)
  {
    hide Counted, WaitsForSome, Paid, Core, QueueOk, SentOk;
    match steps[n]
    case PlanAndLaunch(_, _) => PassCounted(cfg, steps, n, w);
    case Consume(_) => DrainCounted(cfg, steps, n, w);
    case HitDeadline(_) => assert false;
    case Finish(_) => DrainingHit(cfg, w);
    case _ => QuietStepCounted(cfg, steps, n, w, Next(cfg, w, steps[n]));
  }

  /** Passes, drains and windows waited out. */
  function LoopSteps(steps: seq<Step>): nat {
    var t := TallyOf(steps, |steps|);
    t.passes + t.drains + t.wakes
  }

  ghost function StepBound(cfg: Config, perRun: nat, caps: nat): nat
    requires Settles(cfg)
  {
    var total := TotalBound(cfg, perRun, caps, |cfg.operators|);
    2 * (perRun * total + 2 * total) + 3
  }

  /**
   * A flow that settles stops: in every tame run of it the loop steps taken, that is passes, drains and windows
   * waited out, number at most this bound, whatever the environment does.
   */
  lemma BoundedRun(cfg: Config, perRun: nat, capIds: set<string>, seed: seq<DataPoint>, now: int, steps: seq<Step>, trace: seq<World>)
    requires Settles(cfg) && IsRun(cfg, seed, now, steps, trace) && Tame(cfg, perRun, capIds, steps, trace)
    ensures LoopSteps(steps) <= StepBound(cfg, perRun, |capIds|)
  {
    hide Accounted, Settles, Next, Enabled, Inv, Declared, SomeAttains, Core;
    var n := |steps|;
    var w := trace[n];
    RunAccounted(cfg, perRun, capIds, seed, now, steps, trace, n);
    TotalLaunchesBounded(cfg, perRun, capIds, w, |cfg.operators|);
    RunCounted(cfg, perRun, capIds, seed, now, steps, trace, n);
    RunKeepsInv(cfg, seed, now, steps, trace, n);
    assert Core(cfg, w.s, w.h) && w.h.merged <= |w.h.sent| by { InvCore(cfg, w); }
    RunsWithinLaunches(cfg, w.s, w.h, |cfg.operators|);
    AllSentCounted(cfg, w.h.sent);
    SentWithinLaunches(cfg, perRun, w.h, |cfg.operators|);
    MulMono(perRun, TotalLaunches(cfg.operators, w.h, |cfg.operators|), TotalBound(cfg, perRun, |capIds|, |cfg.operators|));
  }

  lemma InvCore(cfg: Config, w: World)
    requires Inv(cfg, w)
    ensures Core(cfg, w.s, w.h) && w.h.merged <= |w.h.sent|
  {
  }

  /**
   * ... and it never gets stuck on the way: until it ends, either a loop step is possible now, or a running
   * operator may still signal, or an armed window comes due as time passes.
   */
  lemma NeverStuck(cfg: Config, seed: seq<DataPoint>, now: int, steps: seq<Step>, trace: seq<World>, n: nat)
    returns (step: Step)
    requires IsRun(cfg, seed, now, steps, trace) && n < |trace| && !trace[n].s.phase.Ended?
    ensures Enabled(cfg, trace[n].s, step)
    ensures step.Tick? ==>
      var s := trace[n].s;
      s.phase.Waiting? && s.phase.wake.Some? && !s.AnyRunning() && s.now + step.elapsed >= s.phase.wake.value > s.now
    ensures step.Arrive? ==> step.signal.Completed? && trace[n].s.phase.Waiting? && trace[n].s.AnyRunning()
    ensures step.PlanAndLaunch? ==> step.available == LastAvailable(steps, n)
  {
    var s := trace[n].s;
    var delays := seq(|s.queue|, i => 0);
    match s.phase
    case Top =>
      step := if PastDeadline(cfg, s) then HitDeadline(delays)
              else PlanAndLaunch(LastAvailable(steps, n), seq(|cfg.operators|, i => s.now));
    case Draining => step := Finish(delays);
    case Waiting(wake, available) =>
      if s.AnyRunning() {
        var o :| o in s.ops && s.ops[o].running.Some?;
        step := if s.queue != [] then Consume(delays) else Arrive(Completed(o, None, false));
      } else if wake.None? {
        step := Quiesce;
      } else {
        step := if s.now >= wake.value then Wake else Tick(wake.value - s.now);
      }
  }

  /** A tame run that ended did so by quiescing: no deadline was hit. */
  lemma EndsQuiescent(cfg: Config, perRun: nat, capIds: set<string>, seed: seq<DataPoint>, now: int,
                      steps: seq<Step>, trace: seq<World>, n: nat)
    requires IsRun(cfg, seed, now, steps, trace) && Tame(cfg, perRun, capIds, steps, trace)
    requires n < |steps| && !trace[n].s.phase.Ended? && trace[n + 1].s.phase.Ended?
    ensures steps[n].Quiesce? && !trace[n + 1].s.deadlineHit
  {
    hide Paid, Inv, PlanUpTo, LaunchUpTo, ConsumeQueue;
    RunPaid(cfg, perRun, capIds, seed, now, steps, trace, n);
    RunPaid(cfg, perRun, capIds, seed, now, steps, trace, n + 1);
    RunKeepsInv(cfg, seed, now, steps, trace, n);
    assert StepsTo(cfg, trace[n], steps[n], trace[n + 1]);
    if steps[n].Finish? { DrainingHit(cfg, trace[n]); }
  }
}
