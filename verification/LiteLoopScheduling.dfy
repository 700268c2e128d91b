/** What one pass does about each operator, and when it wakes. */
module LiteLoopScheduling {
  import opened Prelude
  import opened DataPoints
  import opened KeyedMerge
  import opened SessionState
  import opened LiteGraph
  import opened LiteLoop
  import opened LiteLoopSafety
  import opened LiteLoopTermination
  import opened LiteLoopProgress
  import LiteLoopTheorems

  // ----- when an operator is due, on class names, observation times and the clock -----

  /** Data of every kind it depends on is there, and a capability of every kind it requires. */
  ghost predicate HasInputs(op: Operator, view: View, available: map<string, Class>) {
    && (forall d :: d in op.dependsOn ==> exists k :: k in view && d.name in k.kind.mro)
    && (forall c :: c in op.requires_ ==> exists id :: id in available && c.name in available[id].mro)
  }

  ghost predicate Concerns(op: Operator, k: Identity) {
    exists t :: t in op.dependsOn + op.uses && t.name in k.kind.mro
  }

  /** Since it saw `seen` with the capabilities `had`: a new capability, new data that concerns it, or newer data unless it wants only new. */
  ghost predicate News(op: Operator, had: set<string>, seen: View, view: View, available: map<string, Class>) {
    || (exists id :: id in available && id !in had)
    || (exists k :: k in view && k !in seen && Concerns(op, k))
    || (!op.policy.addedOnly && exists k :: k in view && k in seen && seen[k].lastRetrieved < view[k].lastRetrieved && Concerns(op, k))
  }

  /** Neither running nor at the circuit breaker's cap. */
  ghost predicate Free(cfg: Config, s: State, op: Operator) {
    s.At(op.id).running.None? && (op.id in cfg.caps ==> s.At(op.id).count < cfg.caps[op.id])
  }

  /**
   * When the operator is due, if it is to run at all: its armed retry's time; at once if it never ran; else, when
   * it reruns and there is news, the end of its coalescing window, which opens now unless it is open already.
   */
  ghost function DueAt(cfg: Config, s: State, op: Operator, seen: View, available: map<string, Class>, time: int): Option<int> {
    var x, view := s.At(op.id), ViewOf(s.session.entries);
    if !Free(cfg, s, op) || !HasInputs(op, view, available) then None
    else if x.retryAt.Some? then x.retryAt
    else if op.id !in s.session.watermarks then Some(time)
    else if !op.policy.rerunOnNewData || !News(op, x.prevCaps, seen, view, available) then None
    else if x.debounceAt.Some? then x.debounceAt
    else Some(time + op.policy.debounce)
  }

  /** `seen` is what the operator's last acted-on view held. */
  ghost predicate Saw(s: State, id: string, available: map<string, Class>, seen: View) {
    id in s.session.watermarks ==>
      var delta, view := OpDelta(s, id, available), ViewOf(s.session.entries);
      && delta.added == (map k | k in view && k !in seen :: view[k])
      && delta.updated == (map k | k in view && k in seen && seen[k].lastRetrieved < view[k].lastRetrieved :: view[k])
  }

  lemma ReadyIs(op: Operator, es: Entries, available: map<string, Class>)
    ensures Ready(op, es, available) <==> HasInputs(op, ViewOf(es), available)
  {
    var view := ViewOf(es);
    if Ready(op, es, available) {
      forall d | d in op.dependsOn ensures exists k :: k in view && d.name in k.kind.mro {
        var k :| k in es && IsSubclass(k.kind, d);
        assert k in view;
      }
      forall c | c in op.requires_ ensures exists id :: id in available && c.name in available[id].mro {
        var id :| id in available && IsSubclass(available[id], c);
      }
    }
    if HasInputs(op, view, available) {
      forall d | d in op.dependsOn ensures exists k :: k in es && IsSubclass(k.kind, d) {
        var k :| k in view && d.name in k.kind.mro;
        assert k in es && IsSubclass(k.kind, d);
      }
      forall c | c in op.requires_ ensures exists id :: id in available && IsSubclass(available[id], c) {
        var id :| id in available && c.name in available[id].mro;
        assert IsSubclass(available[id], c);
      }
    }
  }

  lemma TriggersIs(op: Operator, k: Identity)
    ensures Triggers(op, k.kind) <==> Concerns(op, k)
  {
    if t :| t in op.dependsOn + op.uses && t.name in k.kind.mro { assert IsSubclass(k.kind, t); }
  }

  lemma RelevantIs(op: Operator, s: State, available: map<string, Class>, seen: View)
    requires op.id in s.session.watermarks && Saw(s, op.id, available, seen)
    ensures Relevant(op, OpDelta(s, op.id, available)) <==>
      News(op, s.At(op.id).prevCaps, seen, ViewOf(s.session.entries), available)
  {
    hide Triggers, Concerns;
    var delta, had := OpDelta(s, op.id, available), s.At(op.id).prevCaps;
    forall k: Identity ensures Triggers(op, k.kind) <==> Concerns(op, k) { TriggersIs(op, k); }
    assert delta.newCaps == available.Keys - had;
    if id :| id in available && id !in had { assert id in delta.newCaps; }
  }

  lemma DecidesByDue(cfg: Config, s: State, op: Operator, seen: View, available: map<string, Class>, time: int)
    requires Saw(s, op.id, available, seen)
    ensures var x, due := s.At(op.id), DueAt(cfg, s, op, seen, available, time);
      var d := Decide(cfg, op, x, Ready(op, s.session.entries, available), op.id in s.session.watermarks, OpDelta(s, op.id, available), time);
      && (d.Launch? <==> due.Some? && due.value <= time) && (d.Launch? ==> d.isRetry == x.retryAt.Some?)
      && (d.Await? <==> due.Some? && due.value > time) && (d.Await? ==> d.due == due.value)
      && (d.GiveUp? <==> Free(cfg, s, op) && x.retryAt.Some? && !HasInputs(op, ViewOf(s.session.entries), available))
  {
    ReadyIs(op, s.session.entries, available);
    if op.id in s.session.watermarks { RelevantIs(op, s, available, seen); }
    hide Ready, Relevant, HasInputs, News, OpDelta, Saw;
  }

  // ----- one operator through a whole pass -----

  /** What planning leaves in the operator's entries. */
  ghost predicate Planned(cfg: Config, s: State, s': State, op: Operator, seen: View, available: map<string, Class>, time: int)
    requires s.At(op.id).retryAt.Some? ==> s.At(op.id).armed.Some?
  {
    var x, y, due := s.At(op.id), s'.At(op.id), DueAt(cfg, s, op, seen, available, time);
    var dropped := Free(cfg, s, op) && x.retryAt.Some? && !HasInputs(op, ViewOf(s.session.entries), available);
    && At(s'.session.watermarks, op.id) == (if dropped then Some(x.armed.value.observed) else At(s.session.watermarks, op.id))
    && if due.Some? && due.value <= time then y == x.(debounceAt := y.debounceAt) && (x.retryAt.Some? ==> y == x)
       else if due.Some? then y == (if x.retryAt.Some? then x else x.(debounceAt := due))
       else if dropped then
         y == x.(retryAt := None, armed := None, failed := 0, failure := Some(x.armed.value.error))
       else y == x
  }

  lemma PlansByDue(cfg: Config, s: State, s1: State, plan: Plan, op: Operator, seen: View, available: map<string, Class>, time: int)
    requires SameStanding(s, s1, op.id) && Saw(s, op.id, available, seen)
    requires s.At(op.id).retryAt.Some? ==> s.At(op.id).armed.Some?
    ensures var due, (s2, plan2) := DueAt(cfg, s, op, seen, available, time), PlanOne(cfg, s1, plan, op, available, time);
      && Planned(cfg, s, s2, op, seen, available, time)
      && s2.session.entries == s1.session.entries && s2.session.revision == s1.session.revision
      && (if due.Some? && due.value <= time then
            plan2 == plan.(runnable := plan.runnable + [Runnable(op, OpDelta(s, op.id, available), s.At(op.id).retryAt.Some?)])
          else if due.Some? then plan2 == plan.(soonest := Some(if plan.soonest.None? then due.value else Min(plan.soonest.value, due.value)))
          else plan2 == plan)
  {
    assert OpDelta(s1, op.id, available) == OpDelta(s, op.id, available);
    assert op.id in s1.session.watermarks <==> op.id in s.session.watermarks;
    DecidesByDue(cfg, s, op, seen, available, time);
    AwaitedIs(cfg, s, op, seen, available, time);
    hide OpDelta, Ready, Relevant, Decide, HasInputs, Free, Saw, DueAt, Act, ArmWindow;
    var hasRun, x := op.id in s.session.watermarks, s.At(op.id);
    var d := Decide(cfg, op, x, Ready(op, s.session.entries, available), hasRun, OpDelta(s, op.id, available), time);
    ActsOn(s1, plan, op, d, hasRun, OpDelta(s, op.id, available), time);
    WindowIs(op, x, d, hasRun, time);
  }

  lemma WindowIs(op: Operator, x: Op, d: Decision, hasRun: bool, time: int)
    ensures var y := ArmWindow(op, x, d, hasRun, time);
      && y == x.(debounceAt := y.debounceAt) && (x.retryAt.Some? ==> y == x)
      && (d.Await? && hasRun && x.retryAt.None? ==>
            y.debounceAt == Some(if x.debounceAt.Some? then x.debounceAt.value else time + op.policy.debounce))
  {
  }

  /** An awaited rerun's due time is that of its window. */
  lemma AwaitedIs(cfg: Config, s: State, op: Operator, seen: View, available: map<string, Class>, time: int)
    ensures var x, due := s.At(op.id), DueAt(cfg, s, op, seen, available, time);
      due.Some? && due.value > time && x.retryAt.None? ==>
        op.id in s.session.watermarks && due.value == if x.debounceAt.Some? then x.debounceAt.value else time + op.policy.debounce
    ensures var x, due := s.At(op.id), DueAt(cfg, s, op, seen, available, time);
      due.Some? && x.retryAt.Some? ==> due == x.retryAt
  {
    hide HasInputs, News, Free;
  }

  lemma ActsOn(s: State, plan: Plan, op: Operator, d: Decision, hasRun: bool, delta: Delta, time: int)
    requires d.GiveUp? ==> s.At(op.id).armed.Some?
    ensures var (s', plan') := Act(s, plan, op, d, hasRun, delta, time);
      var x, y := s.At(op.id), s'.At(op.id);
      && s'.session.entries == s.session.entries && s'.session.revision == s.session.revision
      && At(s'.session.watermarks, op.id) == (if d.GiveUp? then Some(x.armed.value.observed) else At(s.session.watermarks, op.id))
      && match d
         case Skip => y == x && plan' == plan
         case GiveUp => y == x.(retryAt := None, armed := None, failed := 0, failure := Some(x.armed.value.error)) && plan' == plan
         case Launch(isRetry) =>
           && y == ArmWindow(op, x, d, hasRun, time)
           && plan' == plan.(runnable := plan.runnable + [Runnable(op, delta, isRetry)])
         case Await(due) =>
           && y == ArmWindow(op, x, d, hasRun, time)
           && plan' == plan.(soonest := Some(if plan.soonest.None? then due else Min(plan.soonest.value, due)))
  {
    hide ArmWindow;
  }

  ghost predicate Standing(cfg: Config, s: State, h: History, available: map<string, Class>) {
    forall o :: o in cfg.operators ==>
      Saw(s, o.id, available, h.At(o.id).seen) && (s.At(o.id).retryAt.Some? ==> s.At(o.id).armed.Some?)
  }

  /** When operator `j` is due in a pass from `s`. */
  ghost function DueIn(cfg: Config, s: State, h: History, available: map<string, Class>, times: seq<int>, j: nat): Option<int>
    requires j < |cfg.operators| == |times|
  {
    DueAt(cfg, s, cfg.operators[j], h.At(cfg.operators[j].id).seen, available, times[j])
  }

  /** The plan's record of operator `j`: on the list, or awaited, or neither. */
  ghost predicate Listed(cfg: Config, s: State, h: History, available: map<string, Class>, times: seq<int>, plan: Plan, j: nat)
    requires j < |cfg.operators| == |times|
  {
    var op, due := cfg.operators[j], DueIn(cfg, s, h, available, times, j);
    && (due.Some? && due.value <= times[j] ==> IsPlanned(plan, op))
    && (forall i :: 0 <= i < |plan.runnable| && plan.runnable[i].op == op ==>
          due.Some? && due.value <= times[j] && plan.runnable[i].isRetry == s.At(op.id).retryAt.Some?)
    && (due.Some? && due.value > times[j] ==> plan.soonest.Some? && plan.soonest.value <= due.value)
  }

  lemma {:induction false} PlanTells(cfg: Config, s: State, h: History, available: map<string, Class>, times: seq<int>, n: nat, j: nat)
    requires WellFormed(cfg) && Standing(cfg, s, h, available) && n <= |cfg.operators| == |times| && j < |cfg.operators|
    ensures var op, (s', plan) := cfg.operators[j], PlanUpTo(cfg, s, available, times, n);
      && (j < n ==> Planned(cfg, s, s', op, h.At(op.id).seen, available, times[j]) && Listed(cfg, s, h, available, times, plan, j))
      && (j >= n ==> SameStanding(s, s', op.id) && !IsPlanned(plan, op))
      && s'.session.entries == s.session.entries && s'.session.revision == s.session.revision
  {
    hide PlanOne, Planned, Listed, Saw, SameStanding, IsPlanned;
    if n == 0 {
      NothingListed(s, cfg.operators[j]);
    } else {
      PlanTells(cfg, s, h, available, times, n - 1, j);
      var (s1, plan) := PlanUpTo(cfg, s, available, times, n - 1);
      if j == n - 1 {
        ListsThis(cfg, s, h, s1, plan, available, times, j);
      } else {
        PlansOnlyOne(cfg, s1, plan, cfg.operators[n - 1], cfg.operators[j], available, times[n - 1]);
        ListsOther(cfg, s, h, s1, plan, available, times, n - 1, j);
      }
    }
  }

  lemma NothingListed(s: State, op: Operator)
    ensures SameStanding(s, s, op.id) && !IsPlanned(Plan([], None), op)
  {
  }

  lemma ListsThis(cfg: Config, s: State, h: History, s1: State, plan: Plan, available: map<string, Class>, times: seq<int>, j: nat)
    requires Standing(cfg, s, h, available) && j < |cfg.operators| == |times|
    requires SameStanding(s, s1, cfg.operators[j].id) && !IsPlanned(plan, cfg.operators[j])
    ensures var op, (s', plan') := cfg.operators[j], PlanOne(cfg, s1, plan, cfg.operators[j], available, times[j]);
      && Planned(cfg, s, s', op, h.At(op.id).seen, available, times[j]) && Listed(cfg, s, h, available, times, plan', j)
      && s'.session.entries == s1.session.entries && s'.session.revision == s1.session.revision
  {
    hide PlanOne, Planned, Saw, DueAt;
    var op := cfg.operators[j];
    PlansByDue(cfg, s, s1, plan, op, h.At(op.id).seen, available, times[j]);
    var plan', due := PlanOne(cfg, s1, plan, op, available, times[j]).1, DueIn(cfg, s, h, available, times, j);
    hide SameStanding;
    if due.Some? && due.value <= times[j] { assert plan'.runnable[|plan.runnable|].op == op; }
  }

  lemma ListsOther(cfg: Config, s: State, h: History, s1: State, plan: Plan, available: map<string, Class>, times: seq<int>, k: nat, j: nat)
    requires WellFormed(cfg) && j < |cfg.operators| == |times| && k < |cfg.operators| && j != k
    requires s.At(cfg.operators[j].id).retryAt.Some? ==> s.At(cfg.operators[j].id).armed.Some?
    requires s1.session.entries == s.session.entries && s1.session.revision == s.session.revision
    ensures var op, (s', plan') := cfg.operators[j], PlanOne(cfg, s1, plan, cfg.operators[k], available, times[k]);
      && (Planned(cfg, s, s1, op, h.At(op.id).seen, available, times[j]) ==> Planned(cfg, s, s', op, h.At(op.id).seen, available, times[j]))
      && (Listed(cfg, s, h, available, times, plan, j) ==> Listed(cfg, s, h, available, times, plan', j))
      && (SameStanding(s, s1, op.id) ==> SameStanding(s, s', op.id))
      && s'.session.entries == s.session.entries && s'.session.revision == s.session.revision
  {
    hide PlanOne, DueAt, Free, HasInputs;
    PlansOnlyOne(cfg, s1, plan, cfg.operators[k], cfg.operators[j], available, times[k]);
    OthersListed(cfg, s1, plan, cfg.operators[k], cfg.operators[j], available, times[k]);
  }

  lemma OthersListed(cfg: Config, s: State, plan: Plan, op: Operator, other: Operator, available: map<string, Class>, time: int)
    requires op != other
    ensures var plan' := PlanOne(cfg, s, plan, op, available, time).1;
      && (forall i :: 0 <= i < |plan'.runnable| && plan'.runnable[i].op == other ==> i < |plan.runnable| && plan'.runnable[i] == plan.runnable[i])
      && (plan.soonest.Some? ==> plan'.soonest.Some? && plan'.soonest.value <= plan.soonest.value)
  {
    hide Decide, OpDelta, Ready, ArmWindow, DropRetry;
  }

  /** The soonest time is some awaited operator's. */
  lemma {:induction false} SoonestIsDue(cfg: Config, s: State, h: History, available: map<string, Class>, times: seq<int>, n: nat)
    requires WellFormed(cfg) && Standing(cfg, s, h, available) && n <= |cfg.operators| == |times|
    ensures var soonest := PlanUpTo(cfg, s, available, times, n).1.soonest;
      soonest.Some? ==> exists j :: 0 <= j < n && DueIn(cfg, s, h, available, times, j) == soonest && times[j] < soonest.value
  {
    if n > 0 {
      hide PlanOne, DueIn, Standing, Planned, Listed, SameStanding, IsPlanned;
      SoonestIsDue(cfg, s, h, available, times, n - 1);
      PlanTells(cfg, s, h, available, times, n - 1, n - 1);
      var (s1, plan) := PlanUpTo(cfg, s, available, times, n - 1);
      SoonestStep(cfg, s, h, s1, plan, available, times, n - 1);
    }
  }

  lemma SoonestStep(cfg: Config, s: State, h: History, s1: State, plan: Plan, available: map<string, Class>, times: seq<int>, j: nat)
    requires Standing(cfg, s, h, available) && j < |cfg.operators| == |times| && SameStanding(s, s1, cfg.operators[j].id)
    ensures var plan', due := PlanOne(cfg, s1, plan, cfg.operators[j], available, times[j]).1, DueIn(cfg, s, h, available, times, j);
      plan'.soonest == plan.soonest || (due.Some? && due.value > times[j] && plan'.soonest == due)
  {
    hide PlanOne, Planned, Saw, DueAt, SameStanding;
    var op := cfg.operators[j];
    PlansByDue(cfg, s, s1, plan, op, h.At(op.id).seen, available, times[j]);
  }

  ghost predicate OncePlanned(runnable: seq<Runnable>) {
    forall i, k :: 0 <= i < k < |runnable| ==> runnable[i].op.id != runnable[k].op.id
  }

  lemma {:induction false} LaunchTells(s: State, runnable: seq<Runnable>, available: map<string, Class>, n: nat, id: string)
    requires OncePlanned(runnable) && n <= |runnable|
    ensures var s' := LaunchUpTo(s, runnable, available, n);
      && s'.session == s.session
      && (forall i :: 0 <= i < n && runnable[i].op.id == id ==>
            s'.At(id) == LaunchOp(s.At(id), Running(s.session.revision, ViewOf(s.session.entries), runnable[i].delta), runnable[i].isRetry, available))
      && ((forall i :: 0 <= i < n ==> runnable[i].op.id != id) ==> s'.At(id) == s.At(id))
  {
    hide LaunchOp;
    if n > 0 { LaunchTells(s, runnable, available, n - 1, id); }
  }

  /** What the pass leaves: a due operator runs on the current view, a later one waits, a retry that lost its inputs has failed. */
  ghost predicate Passed(cfg: Config, s: State, s': State, op: Operator, seen: View, available: map<string, Class>, time: int) {
    var x, y, view := s.At(op.id), s'.At(op.id), ViewOf(s.session.entries);
    var due := DueAt(cfg, s, op, seen, available, time);
    if due.Some? && due.value <= time then
      && y.running.Some? && y.running.value.observed == s.session.revision && y.running.value.view == view
      && y == (if x.retryAt.Some? then x.(retryAt := None, armed := None) else x.(debounceAt := None))
                .(running := y.running, prevCaps := available.Keys)
    else if due.Some? then y == if x.retryAt.Some? then x else x.(debounceAt := due)
    else if Free(cfg, s, op) && x.retryAt.Some? && !HasInputs(op, view, available) then
      && x.armed.Some? && At(s'.session.watermarks, op.id) == Some(x.armed.value.observed)
      && y == x.(retryAt := None, armed := None, failed := 0, failure := Some(x.armed.value.error))
    else y == x
  }

  lemma PassTells(cfg: Config, s: State, h: History, available: map<string, Class>, times: seq<int>, j: nat)
    requires WellFormed(cfg) && Standing(cfg, s, h, available) && Core(cfg, s, h) && !s.deadlineHit
    requires j < |cfg.operators| == |times|
    ensures var op := cfg.operators[j];
      Passed(cfg, s, Pass(cfg, s, available, times), op, h.At(op.id).seen, available, times[j])
  {
    hide PlanUpTo, LaunchUpTo, LaunchOp, Core, Planned, Passed, Standing, RunnableOk, Considered, DueAt;
    var op := cfg.operators[j];
    var (s1, plan) := PlanUpTo(cfg, s, available, times, |times|);
    var s2 := LaunchUpTo(s1, plan.runnable, available, |plan.runnable|);
    PlanTells(cfg, s, h, available, times, |times|, j);
    PlanUpToKeeps(cfg, s, h, available, times, |times|);
    PlannedRunnable(cfg, s, s1, plan, available);
    LaunchTells(s1, plan.runnable, available, |plan.runnable|, op.id);
    ArmedWithRetry(cfg, s, h, available, op);
    if i :| 0 <= i < |plan.runnable| && plan.runnable[i].op == op {
      assert plan.runnable[i].op.id == op.id;
      LaunchedPasses(cfg, s, s1, s2, op, h.At(op.id).seen, available, times[j], plan.runnable[i].delta);
    } else {
      forall i | 0 <= i < |plan.runnable| ensures plan.runnable[i].op.id != op.id { assert plan.runnable[i].op in cfg.operators; }
      IdlePasses(cfg, s, s1, s2, op, h.At(op.id).seen, available, times[j]);
    }
    SamePassed(cfg, s, s2, Pass(cfg, s, available, times), op, h.At(op.id).seen, available, times[j]);
  }

  lemma ArmedWithRetry(cfg: Config, s: State, h: History, available: map<string, Class>, op: Operator)
    requires Standing(cfg, s, h, available) && op in cfg.operators
    ensures s.At(op.id).retryAt.Some? ==> s.At(op.id).armed.Some?
  {
    hide Saw;
  }

  lemma LaunchedPasses(cfg: Config, s: State, s1: State, s2: State, op: Operator, seen: View, available: map<string, Class>, time: int, delta: Delta)
    requires s.At(op.id).retryAt.Some? ==> s.At(op.id).armed.Some?
    requires Planned(cfg, s, s1, op, seen, available, time)
    requires var due := DueAt(cfg, s, op, seen, available, time); due.Some? && due.value <= time
    requires s2.At(op.id) == LaunchOp(s1.At(op.id), Running(s.session.revision, ViewOf(s.session.entries), delta),
                                      s.At(op.id).retryAt.Some?, available)
    ensures Passed(cfg, s, s2, op, seen, available, time)
  {
    hide DueAt, Free, HasInputs, ViewOf;
  }

  lemma IdlePasses(cfg: Config, s: State, s1: State, s2: State, op: Operator, seen: View, available: map<string, Class>, time: int)
    requires s.At(op.id).retryAt.Some? ==> s.At(op.id).armed.Some?
    requires Planned(cfg, s, s1, op, seen, available, time)
    requires var due := DueAt(cfg, s, op, seen, available, time); !(due.Some? && due.value <= time)
    requires s2.At(op.id) == s1.At(op.id) && s2.session == s1.session
    ensures Passed(cfg, s, s2, op, seen, available, time)
  {
    hide DueAt, Free, HasInputs;
  }

  lemma SamePassed(cfg: Config, s: State, s2: State, s3: State, op: Operator, seen: View, available: map<string, Class>, time: int)
    requires Passed(cfg, s, s2, op, seen, available, time) && s3.At(op.id) == s2.At(op.id) && s3.session == s2.session
    ensures Passed(cfg, s, s3, op, seen, available, time)
  {
    hide DueAt, Free, HasInputs;
  }

  // ----- over every run -----

  /** The pass's wait ends with the first operator to come due, or at the deadline if that is sooner. */
  ghost predicate WakesFor(cfg: Config, s: State, h: History, available: map<string, Class>, times: seq<int>, wake: Option<int>)
    requires |cfg.operators| == |times|
  {
    && (wake.Some? ==>
          exists j :: 0 <= j < |times| && DueLater(cfg, s, h, available, times, j)
            && wake.value == Clipped(cfg, DueIn(cfg, s, h, available, times, j).value))
    && (forall j :: 0 <= j < |times| ==>
          DueLater(cfg, s, h, available, times, j) ==>
            wake.Some? && wake.value <= Clipped(cfg, DueIn(cfg, s, h, available, times, j).value))
  }

  ghost predicate DueLater(cfg: Config, s: State, h: History, available: map<string, Class>, times: seq<int>, j: nat)
    requires j < |cfg.operators| == |times|
  {
    DueIn(cfg, s, h, available, times, j).Some? && times[j] < DueIn(cfg, s, h, available, times, j).value
  }

  function Clipped(cfg: Config, time: int): int {
    if cfg.deadline.Some? && cfg.deadline.value < time then cfg.deadline.value else time
  }

  /**
   * In every run, every pass: each operator is launched exactly when it is due, on the current view; one due later
   * keeps its window, a retry that lost its inputs is a failure, and nothing else changes. The pass starts before
   * the deadline, ends at its last clock reading, and its wait is over when the first window is.
   */
  lemma PassesAreExact(cfg: Config, seed: seq<DataPoint>, now: int, steps: seq<Step>, trace: seq<World>, i: nat,
                       available: map<string, Class>, times: seq<int>)
    requires IsRun(cfg, seed, now, steps, trace) && i < |steps| && steps[i] == PlanAndLaunch(available, times)
    ensures |times| == |cfg.operators|
    ensures var s, s', h := trace[i].s, trace[i + 1].s, trace[i].h;
      && (forall j :: 0 <= j < |times| ==>
            Passed(cfg, s, s', cfg.operators[j], h.At(cfg.operators[j].id).seen, available, times[j]))
      && s'.phase.Waiting? && s'.phase.available == available && WakesFor(cfg, s, h, available, times, s'.phase.wake)
      && !s.deadlineHit && (cfg.deadline.Some? ==> s.now < cfg.deadline.value)
      && s'.now == if times == [] then s.now else times[|times| - 1]
  {
    hide Next, Pass, Inv;
    assert StepsTo(cfg, trace[i], steps[i], trace[i + 1]);
    RunKeepsInv(cfg, seed, now, steps, trace, i);
    var s, s', h := trace[i].s, trace[i + 1].s, trace[i].h;
    PassIsNext(cfg, trace[i], available, times);
    RunStanding(cfg, seed, now, steps, trace, i, available);
    forall j | 0 <= j < |times|
      ensures Passed(cfg, s, s', cfg.operators[j], h.At(cfg.operators[j].id).seen, available, times[j])
    {
      PassTells(cfg, s, h, available, times, j);
    }
    PassWakes(cfg, s, h, available, times);
  }

  lemma PassIsNext(cfg: Config, w: World, available: map<string, Class>, times: seq<int>)
    requires Enabled(cfg, w.s, PlanAndLaunch(available, times)) && Inv(cfg, w)
    ensures Next(cfg, w, PlanAndLaunch(available, times)).s == Pass(cfg, w.s, available, times)
    ensures Core(cfg, w.s, w.h) && !w.s.deadlineHit && (cfg.deadline.Some? ==> w.s.now < cfg.deadline.value)
  {
    hide Pass, Core;
  }

  lemma RunStanding(cfg: Config, seed: seq<DataPoint>, now: int, steps: seq<Step>, trace: seq<World>, n: nat, available: map<string, Class>)
    requires IsRun(cfg, seed, now, steps, trace) && n < |trace|
    ensures Standing(cfg, trace[n].s, trace[n].h, available)
  {
    hide IsRun;
    forall o | o in cfg.operators
      ensures Saw(trace[n].s, o.id, available, trace[n].h.At(o.id).seen)
      ensures trace[n].s.At(o.id).retryAt.Some? ==> trace[n].s.At(o.id).armed.Some?
    {
      LiteLoopTheorems.DeltaExactness(cfg, seed, now, steps, trace, n, o.id, available);
      LiteLoopTheorems.LaunchConservation(cfg, seed, now, steps, trace, n, o.id);
    }
  }

  lemma PassWakes(cfg: Config, s: State, h: History, available: map<string, Class>, times: seq<int>)
    requires WellFormed(cfg) && Standing(cfg, s, h, available) && |cfg.operators| == |times|
    ensures var s' := Pass(cfg, s, available, times);
      && s'.phase.Waiting? && s'.phase.available == available && WakesFor(cfg, s, h, available, times, s'.phase.wake)
      && s'.now == if times == [] then s.now else times[|times| - 1]
  {
    hide PlanUpTo, LaunchUpTo, DueIn, Standing, Planned, IsPlanned, SameStanding;
    SoonestIsDue(cfg, s, h, available, times, |times|);
    var soonest, wake := PlanUpTo(cfg, s, available, times, |times|).1.soonest, Pass(cfg, s, available, times).phase.wake;
    assert soonest.Some? ==> wake == Some(Clipped(cfg, soonest.value));
    forall j | 0 <= j < |times| && DueLater(cfg, s, h, available, times, j)
      ensures wake.Some? && wake.value <= Clipped(cfg, DueIn(cfg, s, h, available, times, j).value)
    {
      PlanTells(cfg, s, h, available, times, |times|, j);
    }
  }

  /** In every run, time passes only as the clock ticks or a pass reads it. */
  lemma ClockIs(cfg: Config, seed: seq<DataPoint>, now: int, steps: seq<Step>, trace: seq<World>, i: nat)
    requires IsRun(cfg, seed, now, steps, trace) && i < |steps|
    ensures var before, after := trace[i].s.now, trace[i + 1].s.now;
      match steps[i]
      case Tick(elapsed) => after == before + elapsed
      case PlanAndLaunch(_, times) => before <= after && after == if times == [] then before else times[|times| - 1]
      case _ => after == before
  {
    hide Pass, RecordUpTo;
    assert StepsTo(cfg, trace[i], steps[i], trace[i + 1]);
    var s := trace[i].s;
    match steps[i]
    case PlanAndLaunch(available, times) =>
      assert trace[i + 1].s == Pass(cfg, s, available, times);
      PassClock(cfg, s, available, times);
      if times != [] { TimesAdvance(s.now, times, |times| - 1); }
    case Consume(delays) => RecordKeepsNow(cfg, MergeQueued(s), s.queue, delays, |s.queue|);
    case HitDeadline(delays) => RecordKeepsNow(cfg, MergeQueued(s), s.queue, delays, |s.queue|);
    case Finish(delays) => RecordKeepsNow(cfg, MergeQueued(s), s.queue, delays, |s.queue|);
    case _ =>
  }

  lemma PassClock(cfg: Config, s: State, available: map<string, Class>, times: seq<int>)
    requires |cfg.operators| == |times|
    ensures Pass(cfg, s, available, times).now == if times == [] then s.now else times[|times| - 1]
  {
    hide PlanUpTo, LaunchUpTo;
  }

  lemma {:induction false} RecordKeepsNow(cfg: Config, s: State, signals: seq<Signal>, delays: seq<nat>, n: nat)
    requires n <= |signals| == |delays|
    ensures RecordUpTo(cfg, s, signals, delays, n).now == s.now
  {
    hide Complete;
    if n > 0 { RecordKeepsNow(cfg, s, signals, delays, n - 1); }
  }

  /** In every run, the loop is left for its deadline only once the deadline has passed or a run was cut by it. */
  lemma LeftOnlyPastDeadline(cfg: Config, seed: seq<DataPoint>, now: int, steps: seq<Step>, trace: seq<World>, i: nat)
    requires IsRun(cfg, seed, now, steps, trace) && i < |steps| && steps[i].HitDeadline?
    ensures trace[i].s.deadlineHit || (cfg.deadline.Some? && trace[i].s.now >= cfg.deadline.value)
  {
    assert StepsTo(cfg, trace[i], steps[i], trace[i + 1]);
  }

  /**
   * In every run, whatever a pass launches has its inputs: data of each kind it depends on merged before the pass,
   * and an available capability of each kind it requires.
   */
  lemma LaunchedHasInputs(cfg: Config, seed: seq<DataPoint>, now: int, steps: seq<Step>, trace: seq<World>, i: nat,
                          available: map<string, Class>, times: seq<int>, op: Operator)
    requires IsRun(cfg, seed, now, steps, trace) && i < |steps| && steps[i] == PlanAndLaunch(available, times)
    requires op in cfg.operators && trace[i].s.At(op.id).running.None? && trace[i + 1].s.At(op.id).running.Some?
    ensures forall d :: d in op.dependsOn ==> exists k :: k in trace[i].s.session.entries && d.name in k.kind.mro
    ensures forall c :: c in op.requires_ ==> exists id :: id in available && c.name in available[id].mro
  {
    var time := PassedBy(cfg, seed, now, steps, trace, i, available, times, op);
    hide IsRun, News, ViewOf, Free;
    var s := trace[i].s;
    assert HasInputs(op, ViewOf(s.session.entries), available);
    ViewKeys(s.session.entries);
    forall d | d in op.dependsOn ensures exists k :: k in s.session.entries && d.name in k.kind.mro {
      var k :| k in ViewOf(s.session.entries) && d.name in k.kind.mro;
      assert k in s.session.entries;
    }
  }

  lemma PassedBy(cfg: Config, seed: seq<DataPoint>, now: int, steps: seq<Step>, trace: seq<World>, i: nat,
                 available: map<string, Class>, times: seq<int>, op: Operator) returns (time: int)
    requires IsRun(cfg, seed, now, steps, trace) && i < |steps| && steps[i] == PlanAndLaunch(available, times) && op in cfg.operators
    ensures Passed(cfg, trace[i].s, trace[i + 1].s, op, trace[i].h.At(op.id).seen, available, time)
  {
    hide Passed, WakesFor;
    PassesAreExact(cfg, seed, now, steps, trace, i, available, times);
    var j :| 0 <= j < |cfg.operators| && cfg.operators[j] == op;
    time := times[j];
  }

  lemma ViewKeys(es: Entries)
    ensures ViewOf(es).Keys == es.Keys
  {
  }

  /** Conversely, a free operator with its inputs, no retry armed and no run yet is launched by the next pass. */
  lemma FirstRunIsLaunched(cfg: Config, seed: seq<DataPoint>, now: int, steps: seq<Step>, trace: seq<World>, i: nat,
                           available: map<string, Class>, times: seq<int>, op: Operator)
    requires IsRun(cfg, seed, now, steps, trace) && i < |steps| && steps[i] == PlanAndLaunch(available, times)
    requires var s, x := trace[i].s, trace[i].s.At(op.id);
      && op in cfg.operators && x.running.None? && x.retryAt.None? && op.id !in s.session.watermarks
      && (op.id in cfg.caps ==> x.count < cfg.caps[op.id])
      && (forall d :: d in op.dependsOn ==> exists k :: k in s.session.entries && d.name in k.kind.mro)
      && (forall c :: c in op.requires_ ==> exists id :: id in available && c.name in available[id].mro)
    ensures trace[i + 1].s.At(op.id).running.Some?
  {
    var time := PassedBy(cfg, seed, now, steps, trace, i, available, times, op);
    hide IsRun, News, ViewOf;
    var s := trace[i].s;
    ViewKeys(s.session.entries);
    forall d | d in op.dependsOn ensures exists k :: k in ViewOf(s.session.entries) && d.name in k.kind.mro {
      var k :| k in s.session.entries && d.name in k.kind.mro;
      assert k in ViewOf(s.session.entries);
    }
  }
}
