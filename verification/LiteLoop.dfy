/**
 * The lite gathering loop as a state machine. Each loop step is the code between two awaits that can matter;
 * the environment (running operators, the clock, the capability catalog) acts between them.
 */
module LiteLoop {
  import opened Prelude
  import opened DataPoints
  import opened KeyedMerge
  import opened SessionState
  import opened LiteGraph

  /** `caps` are the circuit breaker's caps; `deadline` is absolute session-clock time. */
  datatype Config = Config(operators: seq<Operator>, caps: map<string, int>, deadline: Option<int>)

  datatype Signal =
    | Emitted(id: string, dp: DataPoint)
    | Completed(id: string, error: Option<string>, cutByDeadline: bool)

  datatype Running = Running(observed: nat, view: View, delta: Delta)

  datatype Armed = Armed(error: string, observed: nat, attempts: nat)

  datatype Runnable = Runnable(op: Operator, delta: Delta, isRetry: bool)

  datatype Plan = Plan(runnable: seq<Runnable>, soonest: Option<int>)

  /** Where the loop stands; `Waiting` keeps the pass's capabilities and the time the soonest window is due. */
  datatype Phase = Top | Waiting(wake: Option<int>, available: map<string, Class>) | Draining | Ended

  /** One operator's entries in the loop's dictionaries; an absent counter is 0. */
  datatype Op = Op(
    running: Option<Running>,
    runs: nat,
    failure: Option<string>,
    failed: nat,                // consecutive failures of the current retry sequence
    armed: Option<Armed>,
    prevCaps: set<string>,
    debounceAt: Option<int>,
    retryAt: Option<int>,
    count: nat)                 // the circuit breaker's run count

  const NOTHING := Op(None, 0, None, 0, None, {}, None, None, 0)

  datatype State = State(
    session: Session,
    ops: map<string, Op>,
    queue: seq<Signal>,
    now: int,
    deadlineHit: bool,
    crashed: bool,              // a dict lookup missed its key
    phase: Phase)
  {
    function At(id: string): Op {
      if id in ops then ops[id] else NOTHING
    }

    function Set(id: string, op: Op): State {
      this.(ops := ops[id := op])
    }

    function Mark(id: string, revision: nat): State {
      this.(session := session.(watermarks := session.watermarks[id := revision]))
    }

    predicate AnyRunning() {
      exists id :: id in ops && ops[id].running.Some?
    }
  }

  const CANCELLED := "cancelled: the session deadline passed while the operator was running"

  ghost predicate WellFormed(cfg: Config) {
    forall i, j :: 0 <= i < j < |cfg.operators| ==> cfg.operators[i].id != cfg.operators[j].id
  }

  predicate HasOperator(cfg: Config, id: string) {
    exists op :: op in cfg.operators && op.id == id
  }

  predicate Tripped(cfg: Config, id: string, count: nat) {
    id in cfg.caps && count >= cfg.caps[id]
  }

  predicate Ready(op: Operator, es: Entries, available: map<string, Class>) {
    && (forall d :: d in op.dependsOn ==> exists k :: k in es && IsSubclass(k.kind, d))
    && (forall c :: c in op.requires_ ==> exists id :: id in available && IsSubclass(available[id], c))
  }

  function OpDelta(s: State, id: string, available: map<string, Class>): Delta {
    DeltaFor(s.session, id, s.At(id).prevCaps, available.Keys)
  }

  predicate Triggers(op: Operator, kind: Class) {
    exists t :: t in op.dependsOn + op.uses && IsSubclass(kind, t)
  }

  predicate Relevant(op: Operator, delta: Delta) {
    || delta.newCaps != {}
    || (exists k :: k in delta.added && Triggers(op, k.kind))
    || (!op.policy.addedOnly && exists k :: k in delta.updated && Triggers(op, k.kind))
  }

  // ----- completions -----

  function RetryBudget(operators: seq<Operator>, id: string): Option<nat> {
    if operators == [] then None
    else if operators[0].id == id then operators[0].policy.maxAttempts
    else RetryBudget(operators[1..], id)
  }

  predicate WillRetry(cfg: Config, id: string, attempts: nat, count: nat) {
    var budget := RetryBudget(cfg.operators, id);
    budget.Some? && attempts < budget.value && !Tripped(cfg, id, count)
  }

  function Terminal(op: Op, error: string): Op {
    op.(failed := 0, failure := Some(error))
  }

  datatype Outcome = Outcome(op: Op, advances: bool)   // does the watermark advance to what the run observed?

  /** What the end of a run does to its operator's entries. */
  function Complete(cfg: Config, id: string, op: Op, error: Option<string>, cut: bool, due: int): Outcome
    requires op.running.Some?
  {
    var idle := op.(running := None);
    if cut then Outcome(idle.(failure := Some(CANCELLED)), false)
    else
      var counted := idle.(runs := op.runs + 1, count := op.count + 1);
      var attempts := op.failed + 1;
      match error
      case None => Outcome(counted.(failed := 0), true)
      case Some(message) =>
        if WillRetry(cfg, id, attempts, counted.count) then
          Outcome(counted.(failed := attempts, retryAt := Some(due),
                           armed := Some(Armed(message, op.running.value.observed, attempts))), false)
        else Outcome(Terminal(counted, message), true)
  }

  function RecordCompletion(cfg: Config, s: State, id: string, error: Option<string>, cut: bool, delay: nat): State {
    var op := s.At(id);
    if op.running.None? then s.(crashed := true)
    else
      var outcome := Complete(cfg, id, op, error, cut, s.now + delay);
      var s1 := s.Set(id, outcome.op).(deadlineHit := s.deadlineHit || cut);
      if outcome.advances then s1.Mark(id, op.running.value.observed) else s1
  }

  function RecordSignal(cfg: Config, s: State, signal: Signal, delay: nat): State {
    match signal
    case Emitted(_, _) => s
    case Completed(id, error, cut) => RecordCompletion(cfg, s, id, error, cut, delay)
  }

  function RecordUpTo(cfg: Config, s: State, signals: seq<Signal>, delays: seq<nat>, n: nat): State
    requires n <= |signals| == |delays|
  {
    if n == 0 then s
    else RecordSignal(cfg, RecordUpTo(cfg, s, signals, delays, n - 1), signals[n - 1], delays[n - 1])
  }

  datatype Emission = Emission(id: string, dp: DataPoint)

  function Emissions(signals: seq<Signal>): seq<Emission> {
    if signals == [] then []
    else
      var last := signals[|signals| - 1];
      Emissions(signals[..|signals| - 1]) + if last.Emitted? then [Emission(last.id, last.dp)] else []
  }

  function Points(emissions: seq<Emission>): seq<DataPoint> {
    seq(|emissions|, i requires 0 <= i < |emissions| => emissions[i].dp)
  }

  function MergeQueued(s: State): State {
    s.(session := Merge(s.session, Points(Emissions(s.queue))))
  }

  /** One merge for every queued emission, then the completions in order. */
  function ConsumeQueue(cfg: Config, s: State, delays: seq<nat>): State
    requires |delays| == |s.queue|
  {
    RecordUpTo(cfg, MergeQueued(s), s.queue, delays, |s.queue|).(queue := [])
  }

  // ----- planning and launching -----

  function Sooner(soonest: Option<int>, due: int): Option<int> {
    Some(if soonest.None? then due else Min(soonest.value, due))
  }

  datatype Decision = Skip | Launch(isRetry: bool) | Await(due: int) | GiveUp

  /** What the plan does about one operator at clock time `now`; `delta` is what it would be given. */
  function Decide(cfg: Config, op: Operator, entries: Op, ready: bool, hasRun: bool, delta: Delta, now: int): Decision {
    if entries.running.Some? || Tripped(cfg, op.id, entries.count) then Skip
    else if entries.retryAt.Some? then
      if !ready then GiveUp
      else if now >= entries.retryAt.value then Launch(true)
      else Await(entries.retryAt.value)
    else if !ready then Skip
    else if !hasRun then Launch(false)
    else if !op.policy.rerunOnNewData || !Relevant(op, delta) then Skip
    else
      var due := if entries.debounceAt.Some? then entries.debounceAt.value else now + op.policy.debounce;
      if now >= due then Launch(false) else Await(due)
  }

  /** A rerun window is armed when the operator becomes rerun-eligible, and stays armed until it launches. */
  function ArmWindow(op: Operator, entries: Op, decision: Decision, hasRun: bool, now: int): Op {
    if entries.retryAt.None? && hasRun && (decision.Launch? || decision.Await?) && entries.debounceAt.None?
    then entries.(debounceAt := Some(now + op.policy.debounce)) else entries
  }

  /** An armed retry that can never run again makes the failure it stood for terminal. */
  function DropRetry(s: State, id: string): State {
    var entries := s.At(id).(retryAt := None);
    match entries.armed
    case None => s.Set(id, entries).(crashed := true)
    case Some(a) => s.Set(id, Terminal(entries.(armed := None), a.error)).Mark(id, a.observed)
  }

  function Act(s: State, plan: Plan, op: Operator, decision: Decision, hasRun: bool, delta: Delta, now: int): (State, Plan) {
    var s1 := s.Set(op.id, ArmWindow(op, s.At(op.id), decision, hasRun, now));
    match decision
    case Skip => (s, plan)
    case GiveUp => (DropRetry(s, op.id), plan)
    case Launch(isRetry) => (s1, plan.(runnable := plan.runnable + [Runnable(op, delta, isRetry)]))
    case Await(due) => (s1, plan.(soonest := Sooner(plan.soonest, due)))
  }

  function PlanOne(cfg: Config, s: State, plan: Plan, op: Operator, available: map<string, Class>, now: int): (State, Plan) {
    var delta, hasRun := OpDelta(s, op.id, available), op.id in s.session.watermarks;
    var decision := Decide(cfg, op, s.At(op.id), Ready(op, s.session.entries, available), hasRun, delta, now);
    Act(s, plan, op, decision, hasRun, delta, now)
  }

  /** `times[i]` is the clock reading when operator `i` is considered. */
  function PlanUpTo(cfg: Config, s: State, available: map<string, Class>, times: seq<int>, n: nat): (State, Plan)
    requires n <= |cfg.operators| == |times|
  {
    if n == 0 then (s, Plan([], None))
    else
      var (s1, plan) := PlanUpTo(cfg, s, available, times, n - 1);
      PlanOne(cfg, s1, plan, cfg.operators[n - 1], available, times[n - 1])
  }

  /** A launch consumes its window: the retry's if it is one, else the rerun's. */
  function LaunchOp(op: Op, running: Running, isRetry: bool, available: map<string, Class>): Op {
    var op1 := op.(running := Some(running), prevCaps := available.Keys);
    if isRetry then op1.(retryAt := None, armed := None) else op1.(debounceAt := None)
  }

  function LaunchOne(s: State, r: Runnable, available: map<string, Class>): State {
    var running := Running(s.session.revision, ViewOf(s.session.entries), r.delta);
    s.Set(r.op.id, LaunchOp(s.At(r.op.id), running, r.isRetry, available))
  }

  function LaunchUpTo(s: State, runnable: seq<Runnable>, available: map<string, Class>, n: nat): State
    requires n <= |runnable|
  {
    if n == 0 then s else LaunchOne(LaunchUpTo(s, runnable, available, n - 1), runnable[n - 1], available)
  }

  function Clock(s: State, times: seq<int>): int {
    if times == [] then s.now else times[|times| - 1]
  }

  function Pass(cfg: Config, s: State, available: map<string, Class>, times: seq<int>): State
    requires |cfg.operators| == |times|
  {
    var (s1, plan) := PlanUpTo(cfg, s, available, times, |times|);
    var s2 := LaunchUpTo(s1, plan.runnable, available, |plan.runnable|);
    var wake := if plan.soonest.None? || cfg.deadline.None? then plan.soonest
                else Some(Min(plan.soonest.value, cfg.deadline.value));
    s2.(phase := Waiting(wake, available), now := Clock(s, times))
  }

  /** What is still running when the deadline passed is cancelled. */
  function CancelRunning(s: State): State {
    s.(ops := map id | id in s.ops :: if s.ops[id].running.Some? then CancelOp(s.ops[id]) else s.ops[id],
       phase := Ended)
  }

  function CancelOp(op: Op): Op {
    op.(running := None, failure := Some(CANCELLED))
  }

  // ----- steps -----

  datatype Step =
    | Tick(elapsed: nat)                                            // the clock advances
    | Arrive(signal: Signal)                                        // a running operator enqueues a signal
    | PlanAndLaunch(available: map<string, Class>, times: seq<int>) // one pass up to its wait
    | Consume(delays: seq<nat>)                                     // signals arrived: drain and record them
    | Wake                                                          // the soonest armed window came due
    | Quiesce                                                       // nothing running, nothing armed
    | HitDeadline(delays: seq<nat>)                                 // leave the loop: apply the queue, cancel
    | Finish(delays: seq<nat>)                                      // apply what the cancelled tasks still sent

  predicate PastDeadline(cfg: Config, s: State) {
    s.deadlineHit || (cfg.deadline.Some? && s.now >= cfg.deadline.value)
  }

  predicate MayArrive(cfg: Config, s: State, signal: Signal) {
    && !s.phase.Ended?
    && s.At(signal.id).running.Some?
    && (forall q :: q in s.queue && q.Completed? ==> q.id != signal.id)
    && (signal.Completed? && signal.cutByDeadline ==> signal.error.Some? && cfg.deadline.Some?)
  }

  predicate Nondecreasing(from: int, times: seq<int>) {
    && (times != [] ==> from <= times[0])
    && forall i, j :: 0 <= i < j < |times| ==> times[i] <= times[j]
  }

  predicate Enabled(cfg: Config, s: State, step: Step) {
    match step
    case Tick(_) => !s.phase.Ended?
    case Arrive(signal) => MayArrive(cfg, s, signal)
    case PlanAndLaunch(_, times) =>
      s.phase.Top? && !PastDeadline(cfg, s) && |times| == |cfg.operators| && Nondecreasing(s.now, times)
    case Consume(delays) => s.phase.Waiting? && s.AnyRunning() && s.queue != [] && |delays| == |s.queue|
    case Wake => s.phase.Waiting? && s.phase.wake.Some? && s.now >= s.phase.wake.value && (s.queue == [] || !s.AnyRunning())
    case Quiesce => s.phase.Waiting? && s.phase.wake.None? && !s.AnyRunning()
    case HitDeadline(delays) => s.phase.Top? && PastDeadline(cfg, s) && |delays| == |s.queue|
    case Finish(delays) => s.phase.Draining? && |delays| == |s.queue|
  }

  function NextState(cfg: Config, s: State, step: Step): State
    requires Enabled(cfg, s, step)
  {
    match step
    case Tick(elapsed) => s.(now := s.now + elapsed)
    case Arrive(signal) => s.(queue := s.queue + [signal])
    case PlanAndLaunch(available, times) => Pass(cfg, s, available, times)
    case Consume(delays) => ConsumeQueue(cfg, s, delays).(phase := Top)
    case Wake => s.(phase := Top)
    case Quiesce => s.(phase := Ended)
    case HitDeadline(delays) => ConsumeQueue(cfg, s, delays).(deadlineHit := true, phase := Draining)
    case Finish(delays) => CancelRunning(ConsumeQueue(cfg, s, delays))
  }

  function Start(cfg: Config, seed: seq<DataPoint>, now: int): State {
    State(Merge(Session(map[], 0, map[]), seed), map op | op in cfg.operators :: op.id := NOTHING, [], now, false, false, Top)
  }

  // ----- what happened so far, for stating properties of whole runs -----

  datatype Track = Track(
    given: View,      // the view given to the operator's last launch
    observed: nat,    // ... and the revision it was taken at
    told: Delta,      // ... and the delta it was given with it
    seen: View,       // the view given to its last watermark-advancing run
    launches: nat,
    starts: nat,      // launches that were not retries
    cancelled: nat)

  const UNTOUCHED := Track(map[], 0, Delta(map[], map[], {}, true), map[], 0, 0, 0)

  datatype History = History(
    views: seq<View>,            // the view at every revision
    tracks: map<string, Track>,
    sent: seq<Emission>,         // every emission ever queued
    merged: nat)                 // how many of them have been merged
  {
    function At(id: string): Track {
      if id in tracks then tracks[id] else UNTOUCHED
    }

    function Set(id: string, t: Track): History {
      this.(tracks := tracks[id := t])
    }
  }

  datatype World = World(s: State, h: History)

  function NoteOutcome(t: Track, advances: bool, cut: bool): Track {
    if advances then t.(seen := t.given) else if cut then t.(cancelled := t.cancelled + 1) else t
  }

  function NoteSignal(cfg: Config, s: State, h: History, signal: Signal): History {
    if signal.Emitted? || s.At(signal.id).running.None? then h
    else
      var outcome := Complete(cfg, signal.id, s.At(signal.id), signal.error, signal.cutByDeadline, 0);
      h.Set(signal.id, NoteOutcome(h.At(signal.id), outcome.advances, signal.cutByDeadline))
  }

  function NoteUpTo(cfg: Config, s: State, h: History, signals: seq<Signal>, delays: seq<nat>, n: nat): History
    requires n <= |signals| == |delays|
  {
    if n == 0 then h
    else NoteSignal(cfg, RecordUpTo(cfg, s, signals, delays, n - 1), NoteUpTo(cfg, s, h, signals, delays, n - 1), signals[n - 1])
  }

  function NoteMerge(s: State, h: History): History {
    h.(views := Extend(h.views, s.session, MergeQueued(s).session), merged := |h.sent|)
  }

  function NoteConsume(cfg: Config, s: State, h: History, delays: seq<nat>): History
    requires |delays| == |s.queue|
  {
    NoteUpTo(cfg, MergeQueued(s), NoteMerge(s, h), s.queue, delays, |s.queue|)
  }

  /** A retry window dropped by the plan makes its failure terminal, and its view the last one acted on. */
  function NotePlan(cfg: Config, s: State, h: History, op: Operator, available: map<string, Class>, now: int): History {
    var decision := Decide(cfg, op, s.At(op.id), Ready(op, s.session.entries, available), op.id in s.session.watermarks,
                           OpDelta(s, op.id, available), now);
    if decision.GiveUp? then h.Set(op.id, NoteOutcome(h.At(op.id), true, false)) else h
  }

  function NotePlanUpTo(cfg: Config, s: State, h: History, available: map<string, Class>, times: seq<int>, n: nat): History
    requires n <= |cfg.operators| == |times|
  {
    if n == 0 then h
    else NotePlan(cfg, PlanUpTo(cfg, s, available, times, n - 1).0, NotePlanUpTo(cfg, s, h, available, times, n - 1),
                  cfg.operators[n - 1], available, times[n - 1])
  }

  function NoteLaunch(s: State, h: History, r: Runnable): History {
    var t := h.At(r.op.id);
    h.Set(r.op.id, t.(given := ViewOf(s.session.entries), observed := s.session.revision, told := r.delta,
                      launches := t.launches + 1, starts := t.starts + if r.isRetry then 0 else 1))
  }

  function NoteLaunchUpTo(s: State, h: History, runnable: seq<Runnable>, n: nat): History
    requires n <= |runnable|
  {
    if n == 0 then h else NoteLaunch(s, NoteLaunchUpTo(s, h, runnable, n - 1), runnable[n - 1])
  }

  function NoteCancel(s: State, h: History): History {
    h.(tracks := map id | id in h.tracks.Keys + s.ops.Keys ::
         if s.At(id).running.Some? then h.At(id).(cancelled := h.At(id).cancelled + 1) else h.At(id))
  }

  function NextHistory(cfg: Config, s: State, h: History, step: Step): History
    requires Enabled(cfg, s, step)
  {
    match step
    case Arrive(Emitted(id, dp)) => h.(sent := h.sent + [Emission(id, dp)])
    case PlanAndLaunch(available, times) =>
      var (s1, plan) := PlanUpTo(cfg, s, available, times, |times|);
      NoteLaunchUpTo(s1, NotePlanUpTo(cfg, s, h, available, times, |times|), plan.runnable, |plan.runnable|)
    case Consume(delays) => NoteConsume(cfg, s, h, delays)
    case HitDeadline(delays) => NoteConsume(cfg, s, h, delays)
    case Finish(delays) => NoteCancel(ConsumeQueue(cfg, s, delays), NoteConsume(cfg, s, h, delays))
    case _ => h
  }

  function Next(cfg: Config, w: World, step: Step): World
    requires Enabled(cfg, w.s, step)
  {
    World(NextState(cfg, w.s, step), NextHistory(cfg, w.s, w.h, step))
  }

  function StartWorld(cfg: Config, seed: seq<DataPoint>, now: int): World {
    var s := Start(cfg, seed, now);
    World(s, History(Extend([map[]], Session(map[], 0, map[]), s.session), map[], [], 0))
  }

  ghost predicate StepsTo(cfg: Config, v: World, step: Step, w: World) {
    Enabled(cfg, v.s, step) && w == Next(cfg, v, step)
  }

  /** A run: the worlds passed through, one step at a time, from the seeded session. */
  ghost predicate IsRun(cfg: Config, seed: seq<DataPoint>, now: int, steps: seq<Step>, trace: seq<World>) {
    && WellFormed(cfg)
    && |trace| == |steps| + 1
    && trace[0] == StartWorld(cfg, seed, now)
    && forall i :: 0 <= i < |steps| ==> StepsTo(cfg, trace[i], steps[i], trace[i + 1])
  }
}
