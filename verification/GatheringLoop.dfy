/**
 * The gathering loop in place, with the source's dictionaries as fields and its loops as loops. Each method is proved
 * to do what the state machine's function for it does, and the whole loop to take only steps of that machine.
 */
module GatheringLoop {
  import opened Prelude
  import opened DataPoints
  import opened SessionState
  import KeyedMerge
  import opened LiteGraph
  import opened LiteLoop

  /** What the environment does around one pass: capabilities, clock gaps, signals, backoff delays. */
  datatype PassEnv = PassEnv(
    available: map<string, Class>,
    gaps: seq<nat>,           // how far the clock moves before each operator is considered
    before: seq<Signal>,      // signals offered while the pass runs
    during: seq<Signal>,      // ... and while the loop waits
    elapsed: nat,             // how long it waits
    backoff: seq<nat>)

  /** The first `n` of a list, padded with zeros. */
  function Padded(xs: seq<nat>, n: nat): (r: seq<nat>)
    ensures |r| == n
  {
    seq(n, i requires 0 <= i < n => if i < |xs| then xs[i] else 0)
  }

  lemma NondecreasingFrom(now: int, first: int, later: seq<int>)
    requires now <= first && Nondecreasing(first, later)
    ensures Nondecreasing(now, [first] + later)
  {
  }

  /** Clock readings that start at `now` and move by the gaps. */
  function Readings(now: int, gaps: seq<nat>): (times: seq<int>)
    ensures |times| == |gaps| && Nondecreasing(now, times)
    decreases |gaps|
  {
    if gaps == [] then []
    else
      var later := Readings(now + gaps[0], gaps[1..]);
      NondecreasingFrom(now, now + gaps[0], later);
      [now + gaps[0]] + later
  }

  /** The steps lead from one state to the other, each enabled when taken. */
  ghost predicate Takes(cfg: Config, s: State, steps: seq<Step>, s': State)
    decreases |steps|
  {
    if steps == [] then s == s'
    else
      var init, last := steps[..|steps| - 1], steps[|steps| - 1];
      exists m :: Takes(cfg, s, init, m) && TakesOne(cfg, m, last, s')
  }

  ghost predicate TakesOne(cfg: Config, s: State, step: Step, s': State) {
    Enabled(cfg, s, step) && s' == NextState(cfg, s, step)
  }

  lemma TakesNone(cfg: Config, s: State)
    ensures Takes(cfg, s, [], s)
  {
  }

  lemma TakesAppend(cfg: Config, s: State, steps: seq<Step>, m: State, step: Step, s': State)
    requires Takes(cfg, s, steps, m) && TakesOne(cfg, m, step, s')
    ensures Takes(cfg, s, steps + [step], s')
  {
    assert (steps + [step])[..|steps|] == steps;
  }

  lemma {:induction false} TakesThen(cfg: Config, s: State, a: seq<Step>, m: State, b: seq<Step>, s': State)
    requires Takes(cfg, s, a, m) && Takes(cfg, m, b, s')
    ensures Takes(cfg, s, a + b, s')
    decreases |b|
  {
    if b == [] {
      assert a + b == a;
    } else {
      var init, last := b[..|b| - 1], b[|b| - 1];
      var n :| Takes(cfg, m, init, n) && TakesOne(cfg, n, last, s');
      TakesThen(cfg, s, a, m, init, n);
      TakesAppend(cfg, s, a + init, n, last, s');
      assert a + init + [last] == a + b;
    }
  }

  lemma TakesStep(cfg: Config, s: State, step: Step, s': State)
    requires TakesOne(cfg, s, step, s')
    ensures Takes(cfg, s, [step], s')
  {
    TakesAppend(cfg, s, [], s, step, s');
    assert [] + [step] == [step];
  }

  /** Steps taken from the start are a run, so every theorem about runs holds of them. */
  lemma {:induction false} TakesIsRun(cfg: Config, seed: seq<DataPoint>, now: int, steps: seq<Step>, s: State)
    returns (trace: seq<World>)
    requires WellFormed(cfg) && Takes(cfg, Start(cfg, seed, now), steps, s)
    ensures IsRun(cfg, seed, now, steps, trace) && trace[|steps|].s == s
    decreases |steps|
  {
    hide NextState, NextHistory, Enabled, StartWorld, Start;
    if steps == [] {
      trace := [StartWorld(cfg, seed, now)];
      StartOf(cfg, seed, now);
    } else {
      var init, last := steps[..|steps| - 1], steps[|steps| - 1];
      var m :| Takes(cfg, Start(cfg, seed, now), init, m) && TakesOne(cfg, m, last, s);
      var before := TakesIsRun(cfg, seed, now, init, m);
      trace := before + [Next(cfg, before[|init|], last)];
      forall i | 0 <= i < |steps| ensures StepsTo(cfg, trace[i], steps[i], trace[i + 1]) {
        if i < |init| { assert StepsTo(cfg, before[i], init[i], before[i + 1]); }
      }
    }
  }

  lemma StartOf(cfg: Config, seed: seq<DataPoint>, now: int)
    ensures StartWorld(cfg, seed, now).s == Start(cfg, seed, now)
  {
  }

  /** The dictionaries the loop keeps, one per aspect of an operator. */
  datatype Dicts = Dicts(
    running: map<string, Running>,
    runs: map<string, nat>,
    failures: map<string, string>,
    failedAttempts: map<string, nat>,
    armedRetries: map<string, Armed>,
    prevCaps: map<string, set<string>>,
    debounce: map<string, int>,
    retries: map<string, int>,
    counts: map<string, nat>)
  {
    function OpAt(id: string): Op {
      Op(At(running, id), Count(runs, id), At(failures, id), Count(failedAttempts, id), At(armedRetries, id),
         if id in prevCaps then prevCaps[id] else {}, At(debounce, id), At(retries, id), Count(counts, id))
    }

    function Ops(ids: set<string>): map<string, Op> {
      map id | id in ids :: OpAt(id)
    }

    function AfterCut(id: string): Dicts {
      this.(running := running - {id}, failures := failures[id := CANCELLED])
    }

    function AfterRun(id: string): Dicts {
      this.(running := running - {id}, runs := runs[id := Count(runs, id) + 1], counts := counts[id := Count(counts, id) + 1])
    }

    function AfterSuccess(id: string): Dicts {
      this.(failedAttempts := failedAttempts - {id})
    }

    function AfterRetry(id: string, due: int, failure: Armed): Dicts {
      this.(failedAttempts := failedAttempts[id := failure.attempts], retries := retries[id := due],
            armedRetries := armedRetries[id := failure])
    }

    function AfterFailure(id: string, error: string): Dicts {
      this.(failedAttempts := failedAttempts - {id}, failures := failures[id := error])
    }

    function AfterLaunch(id: string, record: Running, isRetry: bool, available: set<string>): Dicts {
      if isRetry then
        this.(running := running[id := record], prevCaps := prevCaps[id := available],
              retries := retries - {id}, armedRetries := armedRetries - {id})
      else this.(running := running[id := record], prevCaps := prevCaps[id := available], debounce := debounce - {id})
    }

    function AfterArm(id: string, due: int): Dicts {
      if id in debounce then this else this.(debounce := debounce[id := due])
    }

    function AfterDrop(id: string): Dicts {
      this.(retries := retries - {id}, armedRetries := armedRetries - {id})
    }
  }

  lemma OnlyOne(ids: set<string>, d: Dicts, d': Dicts, id: string, op: Op)
    requires id in ids && d'.OpAt(id) == op && forall x :: x != id ==> d'.OpAt(x) == d.OpAt(x)
    ensures d'.Ops(ids) == d.Ops(ids)[id := op]
  {
  }

  lemma OpsAt(ids: set<string>, d: Dicts, s: State, id: string)
    requires id in ids && s.ops == d.Ops(ids)
    ensures s.At(id) == d.OpAt(id)
  {
  }

  lemma CutOps(ids: set<string>, d: Dicts, id: string)
    requires id in ids
    ensures d.AfterCut(id).Ops(ids) == d.Ops(ids)[id := d.OpAt(id).(running := None, failure := Some(CANCELLED))]
  {
    OnlyOne(ids, d, d.AfterCut(id), id, d.AfterCut(id).OpAt(id));
  }

  lemma RunOps(ids: set<string>, d: Dicts, id: string)
    requires id in ids
    ensures d.AfterRun(id).Ops(ids) == d.Ops(ids)[id := Counted(d.OpAt(id))]
    ensures d.AfterRun(id).OpAt(id) == Counted(d.OpAt(id))
  {
    OnlyOne(ids, d, d.AfterRun(id), id, d.AfterRun(id).OpAt(id));
  }

  lemma SuccessOps(ids: set<string>, d: Dicts, id: string)
    requires id in ids
    ensures d.AfterSuccess(id).Ops(ids) == d.Ops(ids)[id := d.OpAt(id).(failed := 0)]
  {
    OnlyOne(ids, d, d.AfterSuccess(id), id, d.AfterSuccess(id).OpAt(id));
  }

  lemma RetryOps(ids: set<string>, d: Dicts, id: string, due: int, failure: Armed)
    requires id in ids
    ensures d.AfterRetry(id, due, failure).Ops(ids) == d.Ops(ids)[id := Retrying(d.OpAt(id), failure.attempts, due, failure)]
  {
    OnlyOne(ids, d, d.AfterRetry(id, due, failure), id, d.AfterRetry(id, due, failure).OpAt(id));
  }

  lemma FailureOps(ids: set<string>, d: Dicts, id: string, error: string)
    requires id in ids
    ensures d.AfterFailure(id, error).Ops(ids) == d.Ops(ids)[id := Terminal(d.OpAt(id), error)]
  {
    OnlyOne(ids, d, d.AfterFailure(id, error), id, d.AfterFailure(id, error).OpAt(id));
  }

  lemma LaunchOps(ids: set<string>, d: Dicts, id: string, record: Running, isRetry: bool, available: map<string, Class>)
    requires id in ids
    ensures d.AfterLaunch(id, record, isRetry, available.Keys).Ops(ids) ==
      d.Ops(ids)[id := LaunchOp(d.OpAt(id), record, isRetry, available)]
  {
    var d' := d.AfterLaunch(id, record, isRetry, available.Keys);
    OnlyOne(ids, d, d', id, d'.OpAt(id));
  }

  lemma DropOps(ids: set<string>, d: Dicts, id: string)
    requires id in ids
    ensures d.AfterDrop(id).Ops(ids) == d.Ops(ids)[id := d.OpAt(id).(retryAt := None, armed := None)]
    ensures d.AfterDrop(id).OpAt(id) == d.OpAt(id).(retryAt := None, armed := None)
  {
    OnlyOne(ids, d, d.AfterDrop(id), id, d.AfterDrop(id).OpAt(id));
  }

  lemma ArmOps(ids: set<string>, d: Dicts, id: string, due: int)
    requires id in ids
    ensures d.AfterArm(id, due).Ops(ids) ==
      d.Ops(ids)[id := if d.OpAt(id).debounceAt.Some? then d.OpAt(id) else d.OpAt(id).(debounceAt := Some(due))]
  {
    if id in d.debounce {
      SameOps(ids, d, id);
    } else {
      var d' := d.(debounce := d.debounce[id := due]);
      OnlyOne(ids, d, d', id, d.OpAt(id).(debounceAt := Some(due)));
    }
  }

  lemma LostRetryOps(ids: set<string>, d: Dicts, id: string)
    requires id in ids
    ensures d.(retries := d.retries - {id}).Ops(ids) == d.Ops(ids)[id := d.OpAt(id).(retryAt := None)]
  {
    OnlyOne(ids, d, d.(retries := d.retries - {id}), id, d.(retries := d.retries - {id}).OpAt(id));
  }

  lemma SameOps(ids: set<string>, d: Dicts, id: string)
    requires id in ids
    ensures d.Ops(ids)[id := d.OpAt(id)] == d.Ops(ids)
  {
  }

  lemma OpFields(d: Dicts, id: string)
    ensures d.OpAt(id).running == At(d.running, id) && d.OpAt(id).count == Count(d.counts, id)
    ensures d.OpAt(id).failed == Count(d.failedAttempts, id) && d.OpAt(id).retryAt == At(d.retries, id)
    ensures d.OpAt(id).debounceAt == At(d.debounce, id) && d.OpAt(id).armed == At(d.armedRetries, id)
    ensures d.OpAt(id).prevCaps == if id in d.prevCaps then d.prevCaps[id] else {}
    ensures d.AfterRun(id).counts == d.counts[id := Count(d.counts, id) + 1] && d.AfterRun(id).failedAttempts == d.failedAttempts
  {
  }

  /** The dictionaries after a run that was not cut. */
  function Finished(d: Dicts, id: string, error: Option<string>, due: int, observed: nat, advanced: bool): Dicts {
    var d1 := d.AfterRun(id);
    match error
    case None => d1.AfterSuccess(id)
    case Some(message) =>
      if advanced then d1.AfterFailure(id, message)
      else d1.AfterRetry(id, due, Armed(message, observed, Count(d.failedAttempts, id) + 1))
  }

  function FinishedOp(op: Op, error: Option<string>, due: int, observed: nat, advanced: bool): Op {
    match error
    case None => Counted(op).(failed := 0)
    case Some(message) =>
      if advanced then Terminal(Counted(op), message)
      else Retrying(Counted(op), op.failed + 1, due, Armed(message, observed, op.failed + 1))
  }

  lemma FinishOps(ids: set<string>, d: Dicts, id: string, error: Option<string>, due: int, observed: nat, advanced: bool)
    requires id in ids
    ensures Finished(d, id, error, due, observed, advanced).Ops(ids) ==
      d.Ops(ids)[id := FinishedOp(d.OpAt(id), error, due, observed, advanced)]
  {
    hide Dicts.AfterRun, Dicts.AfterSuccess, Dicts.AfterFailure, Dicts.AfterRetry, Counted, Terminal, Retrying;
    var d1, op := d.AfterRun(id), d.OpAt(id);
    var d', op' := Finished(d, id, error, due, observed, advanced), FinishedOp(op, error, due, observed, advanced);
    RunOps(ids, d, id);
    OpFields(d, id);
    hide Dicts.Ops, Dicts.OpAt;
    assert d'.Ops(ids) == d1.Ops(ids)[id := op'] by {
      if error.None? {
        SuccessOps(ids, d1, id);
      } else if advanced {
        FailureOps(ids, d1, id, error.value);
      } else {
        RetryOps(ids, d1, id, due, Armed(error.value, observed, op.failed + 1));
      }
    }
    hide Finished, FinishedOp;
    Overwrite(d.Ops(ids), id, Counted(op), op');
  }

  lemma Overwrite(m: map<string, Op>, id: string, a: Op, b: Op)
    ensures m[id := a][id := b] == m[id := b]
  {
  }

  lemma RunFinishes(cfg: Config, s: State, id: string, op: Op, error: Option<string>, delay: nat)
    requires s.At(id) == op && op.running.Some?
    ensures var advanced := error.None? || !WillRetry(cfg, id, op.failed + 1, op.count + 1);
      var s1 := s.Set(id, FinishedOp(op, error, s.now + delay, op.running.value.observed, advanced));
      RecordCompletion(cfg, s, id, error, false, delay) == if advanced then s1.Mark(id, op.running.value.observed) else s1
  {
    hide WillRetry;
  }

  lemma FinishRecorded(cfg: Config, ids: set<string>, s: State, d: Dicts, id: string, error: Option<string>, delay: nat, advanced: bool)
    requires id in ids && s.ops == d.Ops(ids) && id in d.running
    requires advanced <==> error.None? || !WillRetry(cfg, id, Count(d.failedAttempts, id) + 1, Count(d.counts, id) + 1)
    ensures var s1 := s.(ops := Finished(d, id, error, s.now + delay, d.running[id].observed, advanced).Ops(ids));
      RecordCompletion(cfg, s, id, error, false, delay) == if advanced then s1.Mark(id, d.running[id].observed) else s1
  {
    hide WillRetry, Finished, FinishedOp, RecordCompletion;
    OpsAt(ids, d, s, id);
    OpFields(d, id);
    hide Dicts.Ops, Dicts.OpAt;
    FinishOps(ids, d, id, error, s.now + delay, d.running[id].observed, advanced);
    RunFinishes(cfg, s, id, d.OpAt(id), error, delay);
  }

  lemma CutRecorded(cfg: Config, ids: set<string>, s: State, d: Dicts, id: string, error: Option<string>, delay: nat)
    requires id in ids && s.ops == d.Ops(ids) && id in d.running
    ensures RecordCompletion(cfg, s, id, error, true, delay) == s.(ops := d.AfterCut(id).Ops(ids), deadlineHit := true)
  {
    hide WillRetry;
    OpsAt(ids, d, s, id);
    CutOps(ids, d, id);
    hide Dicts.Ops;
  }

  lemma MissCrashes(cfg: Config, ids: set<string>, s: State, d: Dicts, id: string, error: Option<string>, cut: bool, delay: nat)
    requires id in ids && s.ops == d.Ops(ids) && id !in d.running
    ensures RecordCompletion(cfg, s, id, error, cut, delay) == s.(crashed := true)
  {
    OpsAt(ids, d, s, id);
  }

  function Counted(op: Op): Op {
    op.(running := None, runs := op.runs + 1, count := op.count + 1)
  }

  function Retrying(op: Op, attempts: nat, due: int, failure: Armed): Op {
    op.(failed := attempts, retryAt := Some(due), armed := Some(failure))
  }

  /** The plan's decision about one operator, over the dictionaries. */
  function Planned(s: State, ids: set<string>, d: Dicts, plan: Plan, op: Operator, hasRun: bool, delta: Delta,
                   decision: Decision, now: int): (State, Plan) {
    var id := op.id;
    var d1 := if hasRun && id !in d.retries then d.AfterArm(id, now + op.policy.debounce) else d;
    match decision
    case Skip => (s, plan)
    case GiveUp =>
      if id in d.armedRetries then
        (s.(ops := d.AfterDrop(id).AfterFailure(id, d.armedRetries[id].error).Ops(ids)).Mark(id, d.armedRetries[id].observed), plan)
      else (s.(ops := d.(retries := d.retries - {id}).Ops(ids), crashed := true), plan)
    case Launch(isRetry) => (s.(ops := d1.Ops(ids)), plan.(runnable := plan.runnable + [Runnable(op, delta, isRetry)]))
    case Await(due) => (s.(ops := d1.Ops(ids)), plan.(soonest := Sooner(plan.soonest, due)))
  }

  lemma ActIs(s: State, ids: set<string>, d: Dicts, plan: Plan, op: Operator, hasRun: bool, delta: Delta, decision: Decision, now: int)
    requires op.id in ids && s.ops == d.Ops(ids)
    ensures Act(s, plan, op, decision, hasRun, delta, now) == Planned(s, ids, d, plan, op, hasRun, delta, decision, now)
  {
    hide Terminal, Dicts.AfterDrop, Dicts.AfterFailure, Dicts.AfterArm, ArmWindow, DropRetry;
    OpsAt(ids, d, s, op.id);
    hide Dicts.Ops, Dicts.OpAt;
    match decision
    case Skip =>
    case GiveUp => DropIs(s, ids, d, op.id);
    case Launch(_) => WindowIs(s, ids, d, op, decision, hasRun, now);
    case Await(_) => WindowIs(s, ids, d, op, decision, hasRun, now);
  }

  /** The decision, read off the dictionaries. */
  function DecideIn(cfg: Config, op: Operator, d: Dicts, ready: bool, hasRun: bool, delta: Delta, now: int): Decision {
    var id := op.id;
    if id in d.running || Tripped(cfg, id, Count(d.counts, id)) then Skip
    else if id in d.retries then
      if !ready then GiveUp else if now >= d.retries[id] then Launch(true) else Await(d.retries[id])
    else if !ready then Skip
    else if !hasRun then Launch(false)
    else if !op.policy.rerunOnNewData || !Relevant(op, delta) then Skip
    else
      var due := if id in d.debounce then d.debounce[id] else now + op.policy.debounce;
      if now >= due then Launch(false) else Await(due)
  }

  lemma PlanOneIs(cfg: Config, s: State, ids: set<string>, d: Dicts, plan: Plan, op: Operator, available: map<string, Class>, now: int)
    requires op.id in ids && s.ops == d.Ops(ids)
    ensures var hasRun := op.id in s.session.watermarks;
      var delta := DeltaFor(s.session, op.id, if op.id in d.prevCaps then d.prevCaps[op.id] else {}, available.Keys);
      var decision := DecideIn(cfg, op, d, Ready(op, s.session.entries, available), hasRun, delta, now);
      PlanOne(cfg, s, plan, op, available, now) == Planned(s, ids, d, plan, op, hasRun, delta, decision, now)
  {
    hide Ready, Relevant, Tripped, Act, Planned, DeltaFor;
    OpsAt(ids, d, s, op.id);
    OpFields(d, op.id);
    hide Dicts.Ops, Dicts.OpAt;
    var hasRun, delta := op.id in s.session.watermarks, OpDelta(s, op.id, available);
    var decision := Decide(cfg, op, s.At(op.id), Ready(op, s.session.entries, available), hasRun, delta, now);
    ActIs(s, ids, d, plan, op, hasRun, delta, decision, now);
  }

  /** What planning one operator moves: the dictionaries, the session, the crash flag and the plan. */
  datatype Moved = Moved(dicts: Dicts, session: Session, crashed: bool, plan: Plan) {
    function Onto(s: State, ids: set<string>): (State, Plan) {
      (s.(ops := dicts.Ops(ids), session := session, crashed := crashed), plan)
    }
  }

  function PlannedDicts(d: Dicts, session: Session, crashed: bool, plan: Plan, op: Operator, hasRun: bool, delta: Delta,
                        decision: Decision, now: int): Moved {
    var id := op.id;
    var d1 := if hasRun && id !in d.retries then d.AfterArm(id, now + op.policy.debounce) else d;
    match decision
    case Skip => Moved(d, session, crashed, plan)
    case GiveUp =>
      if id in d.armedRetries then
        Moved(d.AfterDrop(id).AfterFailure(id, d.armedRetries[id].error),
              session.(watermarks := session.watermarks[id := d.armedRetries[id].observed]), crashed, plan)
      else Moved(d.(retries := d.retries - {id}), session, true, plan)
    case Launch(isRetry) =>
      Moved(d1, session, crashed, plan.(runnable := plan.runnable + [Runnable(op, delta, isRetry)]))
    case Await(due) => Moved(d1, session, crashed, plan.(soonest := Sooner(plan.soonest, due)))
  }

  lemma PlannedIs(s: State, ids: set<string>, d: Dicts, plan: Plan, op: Operator, hasRun: bool, delta: Delta,
                  decision: Decision, now: int)
    requires s.ops == d.Ops(ids)
    ensures Planned(s, ids, d, plan, op, hasRun, delta, decision, now) ==
      PlannedDicts(d, s.session, s.crashed, plan, op, hasRun, delta, decision, now).Onto(s, ids)
  {
    hide Dicts.Ops, Dicts.OpAt, Dicts.AfterArm, Dicts.AfterDrop, Dicts.AfterFailure;
  }

  lemma OntoIs(s: State, ids: set<string>, m: Moved, s': State)
    requires s' == State(m.session, m.dicts.Ops(ids), s.queue, s.now, s.deadlineHit, m.crashed, s.phase)
    ensures m.Onto(s, ids) == (s', m.plan)
  {
    hide Dicts.Ops;
  }

  lemma WindowIs(s: State, ids: set<string>, d: Dicts, op: Operator, decision: Decision, hasRun: bool, now: int)
    requires op.id in ids && s.ops == d.Ops(ids) && (decision.Launch? || decision.Await?)
    ensures s.Set(op.id, ArmWindow(op, d.OpAt(op.id), decision, hasRun, now)) ==
      s.(ops := (if hasRun && op.id !in d.retries then d.AfterArm(op.id, now + op.policy.debounce) else d).Ops(ids))
  {
    hide Dicts.AfterArm;
    OpFields(d, op.id);
    SameOps(ids, d, op.id);
    hide Dicts.Ops, Dicts.OpAt;
    if hasRun && op.id !in d.retries { ArmOps(ids, d, op.id, now + op.policy.debounce); }
  }

  lemma DropIs(s: State, ids: set<string>, d: Dicts, id: string)
    requires id in ids && s.ops == d.Ops(ids)
    ensures DropRetry(s, id) ==
      if id in d.armedRetries then
        s.(ops := d.AfterDrop(id).AfterFailure(id, d.armedRetries[id].error).Ops(ids)).Mark(id, d.armedRetries[id].observed)
      else s.(ops := d.(retries := d.retries - {id}).Ops(ids), crashed := true)
  {
    hide Terminal, Dicts.AfterDrop, Dicts.AfterFailure;
    OpsAt(ids, d, s, id);
    OpFields(d, id);
    hide Dicts.Ops, Dicts.OpAt;
    if id in d.armedRetries {
      var message, dropped := d.armedRetries[id].error, d.OpAt(id).(retryAt := None, armed := None);
      DropOps(ids, d, id);
      FailureOps(ids, d.AfterDrop(id), id, message);
      Overwrite(d.Ops(ids), id, dropped, Terminal(dropped, message));
    } else {
      LostRetryOps(ids, d, id);
    }
  }

  lemma CancelOps(ids: set<string>, d: Dicts, d': Dicts, s: State)
    requires s.ops == d.Ops(ids) && d.running.Keys <= ids
    requires d' == d.(running := map[], failures := map id | id in d.failures.Keys + d.running.Keys ::
                        if id in d.running then CANCELLED else d.failures[id])
    ensures d'.Ops(ids) == CancelRunning(s).ops
  {
    forall id | id in ids ensures d'.OpAt(id) == if d.OpAt(id).running.Some? then CancelOp(d.OpAt(id)) else d.OpAt(id) {
    }
  }

  lemma CancelIs(s: State)
    ensures CancelRunning(s) == s.(ops := CancelRunning(s).ops, phase := Ended)
  {
  }

  lemma PlanAdds(cfg: Config, s: State, plan: Plan, op: Operator, available: map<string, Class>, now: int)
    ensures forall r :: r in PlanOne(cfg, s, plan, op, available, now).1.runnable ==> r in plan.runnable || r.op == op
  {
    hide Decide, Ready, OpDelta;
  }

  lemma PassWaits(cfg: Config, s: State, available: map<string, Class>, times: seq<int>)
    requires |times| == |cfg.operators|
    ensures Pass(cfg, s, available, times).phase.Waiting?
  {
    hide PlanUpTo, LaunchUpTo;
  }

  lemma AnyRunningIs(ids: set<string>, d: Dicts, s: State)
    requires s.ops == d.Ops(ids) && d.running.Keys <= ids
    ensures s.AnyRunning() <==> d.running != map[]
  {
    if d.running != map[] {
      var id :| id in d.running;
      assert s.ops[id].running.Some?;
    }
  }

  class Orchestrator {
    const cfg: Config
    const session: SessionStore
    var running: map<string, Running>
    var runs: map<string, nat>
    var failures: map<string, string>
    var failedAttempts: map<string, nat>
    var armedRetries: map<string, Armed>
    var prevCaps: map<string, set<string>>
    var debounce: map<string, int>      // DebounceController for reruns: when each window is due
    var retries: map<string, int>       // ... and for retries
    var counts: map<string, nat>        // CircuitBreaker
    var queue: seq<Signal>
    var now: int
    var deadlineHit: bool
    var crashed: bool
    var phase: Phase

    constructor (cfg: Config, seed: seq<DataPoint>, now: int)
      ensures this.cfg == cfg && Value() == Start(cfg, seed, now) && Scoped()
      ensures fresh(session)
    {
      this.cfg := cfg;
      var store := new SessionStore();
      var _ := store.MergeBatch(seed);
      session := store;
      running, runs, failures, failedAttempts, armedRetries := map[], map[], map[], map[], map[];
      prevCaps, debounce, retries, counts := map[], map[], map[], map[];
      queue, this.now, deadlineHit, crashed, phase := [], now, false, false, Top;
      new;
      assert Value().ops == Start(cfg, seed, now).ops;
    }

    function Ids(): set<string> {
      set op | op in cfg.operators :: op.id
    }

    function AllDicts(): Dicts
      reads this
    {
      Dicts(running, runs, failures, failedAttempts, armedRetries, prevCaps, debounce, retries, counts)
    }

    function Value(): State
      reads this, session
    {
      State(session.Value(), AllDicts().Ops(Ids()), queue, now, deadlineHit, crashed, phase)
    }

    /** Nothing is recorded about an operator the loop does not have. */
    predicate Scoped()
      reads this
    {
      running.Keys <= Ids() && forall q :: q in queue ==> q.id in Ids()
    }

    method RecordTerminalFailure(id: string, error: string, observed: nat)
      modifies this`failedAttempts, this`failures, session
      ensures failedAttempts == old(failedAttempts) - {id} && failures == old(failures)[id := error]
      ensures session.Value() == old(session.Value()).(watermarks := old(session.Value()).watermarks[id := observed])
    {
      failedAttempts := failedAttempts - {id};
      failures := failures[id := error];
      session.AdvanceWatermark(id, observed);
    }

    method RecordCompletion(id: string, error: Option<string>, cut: bool, delay: nat)
      requires id in Ids()
      modifies this`running, this`runs, this`failures, this`failedAttempts, this`armedRetries, this`retries, this`counts,
        this`deadlineHit, this`crashed, session
      ensures Value() == LiteLoop.RecordCompletion(cfg, old(Value()), id, error, cut, delay)
      ensures running.Keys <= old(running.Keys)
    {
      hide WillRetry, Dicts.Ops, Dicts.OpAt, Dicts.AfterCut, Finished, LiteLoop.RecordCompletion;
      ghost var s, d := Value(), AllDicts();
      if id !in running {
        crashed := true;
        MissCrashes(cfg, Ids(), s, d, id, error, cut, delay);
      } else if cut {
        RecordCut(id);
        CutRecorded(cfg, Ids(), s, d, id, error, delay);
      } else {
        var observed := running[id].observed;
        var advanced := FinishRun(id, error, observed, delay);
        FinishRecorded(cfg, Ids(), s, d, id, error, delay, advanced);
      }
    }

    /** Not a run that finished: the session's budget ran out under it. */
    method RecordCut(id: string)
      modifies this`running, this`failures, this`deadlineHit
      ensures AllDicts() == old(AllDicts()).AfterCut(id) && deadlineHit && running == old(running) - {id}
    {
      running := running - {id};
      deadlineHit := true;
      failures := failures[id := CANCELLED];
    }

    /** Counts a run that finished and settles it: success, a retry, or a terminal failure. */
    method FinishRun(id: string, error: Option<string>, observed: nat, delay: nat) returns (advanced: bool)
      modifies this`running, this`runs, this`failures, this`failedAttempts, this`armedRetries, this`retries, this`counts, session
      ensures AllDicts() == Finished(old(AllDicts()), id, error, now + delay, observed, advanced)
      ensures running == old(running) - {id}
      ensures advanced <==> error.None? || !WillRetry(cfg, id, Count(old(failedAttempts), id) + 1, Count(old(counts), id) + 1)
      ensures session.Value() ==
        if advanced then old(session.Value()).(watermarks := old(session.Value()).watermarks[id := observed])
        else old(session.Value())
    {
      hide WillRetry;
      running := running - {id};
      runs := runs[id := Count(runs, id) + 1];
      counts := counts[id := Count(counts, id) + 1];
      var attempts := Count(failedAttempts, id) + 1;
      if error.None? {
        failedAttempts := failedAttempts - {id};
        session.AdvanceWatermark(id, observed);
        return true;
      }
      var scheduled := RecordFailure(id, error.value, observed, attempts, delay);
      return !scheduled;
    }

    /** A failed run: schedule a retry, which keeps the old watermark, or make the failure terminal. */
    method RecordFailure(id: string, message: string, observed: nat, attempts: nat, delay: nat) returns (scheduled: bool)
      modifies this`failures, this`failedAttempts, this`armedRetries, this`retries, session
      ensures scheduled <==> WillRetry(cfg, id, attempts, Count(counts, id))
      ensures AllDicts() ==
        if scheduled then old(AllDicts()).AfterRetry(id, now + delay, Armed(message, observed, attempts))
        else old(AllDicts()).AfterFailure(id, message)
      ensures session.Value() ==
        if scheduled then old(session.Value())
        else old(session.Value()).(watermarks := old(session.Value()).watermarks[id := observed])
    {
      hide WillRetry;
      failedAttempts := failedAttempts[id := attempts];
      scheduled := ScheduleRetry(id, attempts, delay);
      if scheduled {
        armedRetries := armedRetries[id := Armed(message, observed, attempts)];
      } else {
        RecordTerminalFailure(id, message, observed);
        assert old(failedAttempts)[id := attempts] - {id} == old(failedAttempts) - {id};
      }
    }

    /** Sets the time of the next attempt if the operator has one left; otherwise nothing changes. */
    method ScheduleRetry(id: string, attempts: nat, delay: nat) returns (scheduled: bool)
      modifies this`retries
      ensures scheduled <==> WillRetry(cfg, id, attempts, Count(counts, id))
      ensures retries == if scheduled then old(retries)[id := now + delay] else old(retries)
    {
      var budget := RetryBudget(cfg.operators, id);
      if budget.None? || attempts >= budget.value || Tripped(cfg, id, Count(counts, id)) {
        return false;
      }
      retries := retries[id := now + delay];
      return true;
    }

    method ConsumeAll(delays: seq<nat>)
      requires Scoped() && |delays| == |queue|
      modifies this, session
      ensures Value() == ConsumeQueue(cfg, old(Value()), delays)
      ensures Scoped() && queue == [] && phase == old(phase)
    {
      hide LiteLoop.RecordCompletion, Dicts.Ops;
      var signals := queue;
      ghost var s := Value();
      var _ := session.MergeBatch(Points(Emissions(signals)));
      assert Value() == MergeQueued(s);
      for i := 0 to |signals|
        invariant Value() == RecordUpTo(cfg, MergeQueued(s), signals, delays, i)
        invariant queue == signals && Scoped() && phase == old(phase)
      {
        match signals[i]
        case Emitted(_, _) =>
        case Completed(id, error, cut) => RecordCompletion(id, error, cut, delays[i]);
      }
      queue := [];
    }

    // ----- planning and launching -----

    method PlanOperator(op: Operator, available: map<string, Class>, time: int, plan: Plan) returns (plan': Plan)
      requires op.id in Ids()
      modifies this`failures, this`failedAttempts, this`armedRetries, this`retries, this`debounce, this`crashed, session
      ensures (Value(), plan') == PlanOne(cfg, old(Value()), plan, op, available, time)
    {
      hide Ready, Relevant, Tripped, Dicts.Ops, Dicts.OpAt, PlanOne, DecideIn, PlannedDicts, Planned, DeltaFor, Moved.Onto;
      ghost var s, d := Value(), AllDicts();
      var delta := DeltaFor(session.Value(), op.id, if op.id in prevCaps then prevCaps[op.id] else {}, available.Keys);
      var ready := Ready(op, session.entries, available);
      PlanOneIs(cfg, s, Ids(), d, plan, op, available, time);
      ghost var hasRun := op.id in session.watermarks;
      ghost var decision := DecideIn(cfg, op, d, ready, hasRun, delta, time);
      plan' := PlanOn(op, ready, delta, time, plan);
      PlannedIs(s, Ids(), d, plan, op, hasRun, delta, decision, time);
      OntoIs(s, Ids(), Moved(AllDicts(), session.Value(), crashed, plan'), Value());
    }

    /** One operator of the plan: launch it, note when its window comes due, or drop a retry that cannot run. */
    method PlanOn(op: Operator, ready: bool, delta: Delta, time: int, plan: Plan) returns (plan': Plan)
      modifies this`failures, this`failedAttempts, this`armedRetries, this`retries, this`debounce, this`crashed, session
      ensures
        var decision := DecideIn(cfg, op, old(AllDicts()), ready, op.id in old(session.watermarks), delta, time);
        Moved(AllDicts(), session.Value(), crashed, plan') ==
          PlannedDicts(old(AllDicts()), old(session.Value()), old(crashed), plan, op,
                       op.id in old(session.watermarks), delta, decision, time)
    {
      hide Relevant, Tripped, Dicts.AfterDrop, Dicts.AfterFailure;
      var id := op.id;
      plan' := plan;
      if id in running || Tripped(cfg, id, Count(counts, id)) {
        return;
      }
      if id in retries {
        if !ready {
          DropRetryOf(id);
        } else if time >= retries[id] {
          plan' := plan.(runnable := plan.runnable + [Runnable(op, delta, true)]);
        } else {
          plan' := plan.(soonest := Sooner(plan.soonest, retries[id]));
        }
        return;
      }
      if !ready {
        return;
      }
      if id !in session.watermarks {
        plan' := plan.(runnable := plan.runnable + [Runnable(op, delta, false)]);
        return;
      }
      if !op.policy.rerunOnNewData || !Relevant(op, delta) {
        return;
      }
      if id !in debounce {
        debounce := debounce[id := time + op.policy.debounce];
      }
      if time >= debounce[id] {
        plan' := plan.(runnable := plan.runnable + [Runnable(op, delta, false)]);
      } else {
        plan' := plan.(soonest := Sooner(plan.soonest, debounce[id]));
      }
    }

    /** Readiness was lost for good: the failure the armed retry stood for is terminal now. */
    method DropRetryOf(id: string)
      modifies this`failures, this`failedAttempts, this`armedRetries, this`retries, this`crashed, session
      ensures var d := old(AllDicts());
        if id in d.armedRetries then
          && AllDicts() == d.AfterDrop(id).AfterFailure(id, d.armedRetries[id].error) && crashed == old(crashed)
          && session.Value() == old(session.Value()).(watermarks := old(session.Value()).watermarks[id := d.armedRetries[id].observed])
        else AllDicts() == d.(retries := d.retries - {id}) && crashed && session.Value() == old(session.Value())
    {
      retries := retries - {id};
      if id !in armedRetries {
        crashed := true;
        return;
      }
      var armed := armedRetries[id];
      armedRetries := armedRetries - {id};
      RecordTerminalFailure(id, armed.error, armed.observed);
    }

    method PlanAll(available: map<string, Class>, times: seq<int>) returns (plan: Plan)
      requires |times| == |cfg.operators|
      modifies this`failures, this`failedAttempts, this`armedRetries, this`retries, this`debounce, this`crashed, session
      ensures (Value(), plan) == PlanUpTo(cfg, old(Value()), available, times, |times|)
      ensures forall r :: r in plan.runnable ==> r.op.id in Ids()
    {
      hide PlanOne, Dicts.Ops;
      plan := Plan([], None);
      for i := 0 to |cfg.operators|
        invariant (Value(), plan) == PlanUpTo(cfg, old(Value()), available, times, i)
        invariant forall r :: r in plan.runnable ==> r.op.id in Ids()
      {
        ghost var before := plan;
        plan := PlanOperator(cfg.operators[i], available, times[i], plan);
        PlanAdds(cfg, PlanUpTo(cfg, old(Value()), available, times, i).0, before, cfg.operators[i], available, times[i]);
      }
    }

    method LaunchAll(runnable: seq<Runnable>, available: map<string, Class>)
      requires forall r :: r in runnable ==> r.op.id in Ids()
      modifies this`prevCaps, this`running, this`armedRetries, this`retries, this`debounce
      ensures Value() == LaunchUpTo(old(Value()), runnable, available, |runnable|)
      ensures running.Keys <= old(running.Keys) + Ids()
    {
      hide Dicts.Ops, LaunchOne;
      for i := 0 to |runnable|
        invariant Value() == LaunchUpTo(old(Value()), runnable, available, i)
        invariant running.Keys <= old(running.Keys) + Ids()
      {
        assert runnable[i] in runnable;
        LaunchOperator(runnable[i], available);
      }
    }

    method LaunchOperator(r: Runnable, available: map<string, Class>)
      requires r.op.id in Ids()
      modifies this`prevCaps, this`running, this`armedRetries, this`retries, this`debounce
      ensures Value() == LaunchOne(old(Value()), r, available)
      ensures running.Keys == old(running.Keys) + {r.op.id}
    {
      hide Dicts.Ops, Dicts.OpAt;
      var id := r.op.id;
      ghost var s, d := Value(), AllDicts();
      var record := Running(session.revision, KeyedMerge.ViewOf(session.entries), r.delta);
      prevCaps := prevCaps[id := available.Keys];
      running := running[id := record];
      if r.isRetry {
        retries := retries - {id};
        armedRetries := armedRetries - {id};
      } else {
        debounce := debounce - {id};
      }
      LaunchOps(Ids(), d, id, record, r.isRetry, available);
      OpsAt(Ids(), d, s, id);
    }

    method OnePass(available: map<string, Class>, times: seq<int>)
      requires Scoped() && |times| == |cfg.operators|
      modifies this, session
      ensures Value() == Pass(cfg, old(Value()), available, times)
      ensures Scoped()
    {
      hide PlanUpTo, LaunchUpTo, Dicts.Ops;
      var plan := PlanAll(available, times);
      LaunchAll(plan.runnable, available);
      var wake := plan.soonest;
      if wake.Some? && cfg.deadline.Some? {
        wake := Some(Min(wake.value, cfg.deadline.value));
      }
      if times != [] {
        now := times[|times| - 1];
      }
      phase := Waiting(wake, available);
    }

    /** Everything still running is reported as cancelled. */
    method ClearRunning()
      modifies this`failures, this`running, this`phase
      ensures running == map[] && phase == Ended
      ensures AllDicts() == old(AllDicts()).(running := map[],
        failures := map id | id in old(failures).Keys + old(running).Keys ::
                      if id in old(running) then CANCELLED else old(failures)[id])
    {
      failures := map id | id in failures.Keys + running.Keys :: if id in running then CANCELLED else failures[id];
      running := map[];
      phase := Ended;
    }

    /** After the deadline: apply what is queued, cancel what still runs, report it. */
    method CancelAll()
      requires Scoped()
      modifies this`failures, this`running, this`phase
      ensures Value() == CancelRunning(old(Value()))
      ensures running == map[] && phase.Ended?
    {
      hide Dicts.Ops, CancelRunning, CancelOp;
      ghost var s, d := Value(), AllDicts();
      ClearRunning();
      CancelOps(Ids(), d, AllDicts(), s);
      CancelIs(s);
    }

    // ----- the loop -----

    /** A signal is offered; only a running operator that has not completed can enqueue one. */
    method Receive(signal: Signal) returns (ghost steps: seq<Step>)
      requires Scoped()
      modifies this`queue
      ensures Scoped() && Takes(cfg, old(Value()), steps, Value())
    {
      hide Dicts.Ops, Dicts.OpAt;
      ghost var s := Value();
      steps := [];
      if phase != Ended && signal.id in running && (forall q :: q in queue && q.Completed? ==> q.id != signal.id)
         && !(signal.Completed? && signal.cutByDeadline && (signal.error.None? || cfg.deadline.None?)) {
        OpsAt(Ids(), AllDicts(), s, signal.id);
        OpFields(AllDicts(), signal.id);
        queue := queue + [signal];
        steps := [Arrive(signal)];
        TakesStep(cfg, s, Arrive(signal), Value());
      }
    }

    method ReceiveAll(signals: seq<Signal>) returns (ghost steps: seq<Step>)
      requires Scoped()
      modifies this`queue
      ensures Scoped() && Takes(cfg, old(Value()), steps, Value())
    {
      hide Takes, Dicts.Ops;
      TakesNone(cfg, Value());
      steps := [];
      for i := 0 to |signals|
        invariant Scoped() && Takes(cfg, old(Value()), steps, Value())
      {
        ghost var m := Value();
        ghost var more := Receive(signals[i]);
        TakesThen(cfg, old(Value()), steps, m, more, Value());
        steps := steps + more;
      }
    }

    method Elapse(elapsed: nat) returns (ghost steps: seq<Step>)
      requires Scoped() && !phase.Ended?
      modifies this`now
      ensures Scoped() && now == old(now) + elapsed && Takes(cfg, old(Value()), steps, Value())
    {
      hide Dicts.Ops;
      ghost var s := Value();
      now := now + elapsed;
      steps := [Tick(elapsed)];
      TakesStep(cfg, s, Tick(elapsed), Value());
    }

    method RunPass(available: map<string, Class>, gaps: seq<nat>) returns (ghost steps: seq<Step>)
      requires Scoped() && phase.Top? && !deadlineHit && (cfg.deadline.Some? ==> now < cfg.deadline.value)
      modifies this, session
      ensures Scoped() && Takes(cfg, old(Value()), steps, Value()) && phase.Waiting?
    {
      hide Dicts.Ops, Pass;
      ghost var s := Value();
      var times := Readings(now, Padded(gaps, |cfg.operators|));
      OnePass(available, times);
      steps := [PlanAndLaunch(available, times)];
      PassWaits(cfg, s, available, times);
      TakesStep(cfg, s, PlanAndLaunch(available, times), Value());
    }

    /** The end of a pass: consume what arrived, or go round again when a window is due, or stop when nothing is armed. */
    method Settle(backoff: seq<nat>) returns (blocked: bool, ghost steps: seq<Step>)
      requires Scoped() && phase.Waiting?
      modifies this, session
      ensures Scoped() && Takes(cfg, old(Value()), steps, Value())
      ensures if blocked then phase.Waiting? else phase.Top? || phase.Ended?
      ensures phase.Ended? ==> running == map[]
      ensures blocked <==> old(running) != map[] && old(queue) == [] && !(old(phase).wake.Some? && old(now) >= old(phase).wake.value)
      ensures phase.Ended? <==> old(running) == map[] && old(phase).wake.None?
    {
      hide Dicts.Ops, Dicts.OpAt, ConsumeQueue, Takes;
      ghost var s, step := Value(), Wake;
      AnyRunningIs(Ids(), AllDicts(), s);
      if running != map[] {
        if queue != [] {
          var delays := Padded(backoff, |queue|);
          step := Consume(delays);
          ConsumeAll(delays);
          phase := Top;
        } else if phase.wake.Some? && now >= phase.wake.value {
          phase := Top;
        } else {
          TakesNone(cfg, s);
          return true, [];
        }
        TakesStep(cfg, s, step, Value());
        return false, [step];
      }
      var waited := SleepUntilDue();
      steps := waited;
      blocked := false;
    }

    /** Nothing is running: fast-forward to the soonest armed window, or stop when there is none. */
    method SleepUntilDue() returns (ghost steps: seq<Step>)
      requires Scoped() && phase.Waiting? && running == map[]
      modifies this`now, this`phase
      ensures Scoped() && Takes(cfg, old(Value()), steps, Value())
      ensures if old(phase).wake.None? then phase.Ended? else phase.Top?
    {
      hide Dicts.Ops, Dicts.OpAt, Takes;
      ghost var s := Value();
      AnyRunningIs(Ids(), AllDicts(), s);
      if phase.wake.None? {
        phase := Ended;
        TakesStep(cfg, s, Quiesce, Value());
        return [Quiesce];
      }
      var elapsed := if now < phase.wake.value then phase.wake.value - now else 0;
      ghost var slept := Elapse(elapsed);
      ghost var m := Value();
      assert !m.AnyRunning() by { AnyRunningIs(Ids(), AllDicts(), m); }
      phase := Top;
      TakesAppend(cfg, s, slept, m, Wake, Value());
      steps := slept + [Wake];
    }

    /** Past the deadline the loop is left: what is queued is applied first. */
    method LeaveLoop(backoff: seq<nat>) returns (ghost steps: seq<Step>)
      requires Scoped() && phase.Top? && (deadlineHit || (cfg.deadline.Some? && now >= cfg.deadline.value))
      modifies this, session
      ensures Scoped() && Takes(cfg, old(Value()), steps, Value()) && phase.Draining?
    {
      hide Dicts.Ops, ConsumeQueue, Takes;
      ghost var s := Value();
      var delays := Padded(backoff, |queue|);
      ConsumeAll(delays);
      deadlineHit, phase := true, Draining;
      steps := [HitDeadline(delays)];
      TakesStep(cfg, s, HitDeadline(delays), Value());
    }

    /** What the cancelled operators still sent is applied; then they are reported. */
    method FinishDrain(backoff: seq<nat>) returns (ghost steps: seq<Step>)
      requires Scoped() && phase.Draining?
      modifies this, session
      ensures Takes(cfg, old(Value()), steps, Value()) && phase.Ended? && running == map[] && queue == []
    {
      hide Dicts.Ops, ConsumeQueue, Takes, CancelRunning;
      ghost var s := Value();
      var delays := Padded(backoff, |queue|);
      ConsumeAll(delays);
      CancelAll();
      steps := [Finish(delays)];
      TakesStep(cfg, s, Finish(delays), Value());
    }

    /** The deadline ended the loop: apply what is queued, cancel what runs, apply what it still sent. */
    method DrainRemaining(late: seq<Signal>, backoff: seq<nat>, lateBackoff: seq<nat>) returns (ghost steps: seq<Step>)
      requires Scoped() && phase.Top? && (deadlineHit || (cfg.deadline.Some? && now >= cfg.deadline.value))
      modifies this, session
      ensures Takes(cfg, old(Value()), steps, Value()) && phase.Ended? && running == map[] && queue == []
    {
      hide Takes, Dicts.Ops;
      ghost var s := Value();
      steps := LeaveLoop(backoff);
      ghost var m := Value();
      ghost var more := ReceiveAll(late);
      TakesThen(cfg, s, steps, m, more, Value());
      steps := steps + more;
      m := Value();
      more := FinishDrain(lateBackoff);
      TakesThen(cfg, s, steps, m, more, Value());
      steps := steps + more;
    }

    /**
     * The loop itself, driven by a script of what the environment does. Every state it passes through is
     * reached by enabled steps; it stops ended, blocked on a signal that has not come, or out of script.
     */
    method Gather(script: seq<PassEnv>, late: seq<Signal>, backoff: seq<nat>, lateBackoff: seq<nat>)
      returns (ghost steps: seq<Step>)
      requires Scoped() && phase.Top?
      modifies this, session
      ensures Takes(cfg, old(Value()), steps, Value())
      ensures phase.Ended? ==> running == map[]
    {
      hide Takes, Dicts.Ops;
      steps := [];
      ghost var s := Value();
      TakesNone(cfg, s);
      var i := 0;
      while i < |script| && phase.Top? && !deadlineHit && (cfg.deadline.None? || now < cfg.deadline.value)
        invariant Scoped() && Takes(cfg, s, steps, Value())
        invariant phase.Top? || phase.Ended?
        invariant phase.Ended? ==> running == map[]
        decreases |script| - i
      {
        var env := script[i];
        ghost var m := Value();
        var blocked;
        ghost var more;
        blocked, more := OneRound(env);
        TakesThen(cfg, s, steps, m, more, Value());
        steps := steps + more;
        if blocked {
          return;
        }
        i := i + 1;
      }
      if phase.Top? && (deadlineHit || (cfg.deadline.Some? && now >= cfg.deadline.value)) {
        ghost var m := Value();
        ghost var more := DrainRemaining(late, backoff, lateBackoff);
        TakesThen(cfg, s, steps, m, more, Value());
        steps := steps + more;
      }
    }

    /** One turn of the loop body: a pass, then a wait for a signal or a window. */
    method OneRound(env: PassEnv) returns (blocked: bool, ghost steps: seq<Step>)
      requires Scoped() && phase.Top? && !deadlineHit && (cfg.deadline.None? || now < cfg.deadline.value)
      modifies this, session
      ensures Scoped() && Takes(cfg, old(Value()), steps, Value())
      ensures if blocked then phase.Waiting? else phase.Top? || phase.Ended?
      ensures phase.Ended? ==> running == map[]
    {
      hide Takes, Dicts.Ops;
      ghost var s, m := Value(), Value();
      ghost var more := ReceiveAll(env.before);
      steps := more;
      m := Value();
      more := RunPass(env.available, env.gaps);
      TakesThen(cfg, s, steps, m, more, Value());
      steps := steps + more;
      m := Value();
      more := Elapse(env.elapsed);
      TakesThen(cfg, s, steps, m, more, Value());
      steps := steps + more;
      m := Value();
      more := ReceiveAll(env.during);
      TakesThen(cfg, s, steps, m, more, Value());
      steps := steps + more;
      m := Value();
      blocked, more := Settle(env.backoff);
      TakesThen(cfg, s, steps, m, more, Value());
      steps := steps + more;
    }
  }

  /** A whole gathering, from the seeded session: a run of the state machine, so every theorem about runs is about it. */
  method RunSession(cfg: Config, seed: seq<DataPoint>, now: int, script: seq<PassEnv>, late: seq<Signal>,
                    backoff: seq<nat>, lateBackoff: seq<nat>)
    returns (o: Orchestrator, ghost steps: seq<Step>, ghost trace: seq<World>)
    requires WellFormed(cfg)
    ensures IsRun(cfg, seed, now, steps, trace) && trace[|steps|].s == o.Value()
    ensures o.phase.Ended? ==> o.running == map[]
  {
    o := new Orchestrator(cfg, seed, now);
    steps := o.Gather(script, late, backoff, lateBackoff);
    trace := TakesIsRun(cfg, seed, now, steps, o.Value());
  }
}
