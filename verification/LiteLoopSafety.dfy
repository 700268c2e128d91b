/**
 * Invariants of the lite gathering loop: what holds in every state of every run. One operator's entries form a
 * slice, kept by completing, planning, dropping a retry, launching and cancelling; the queue, the emissions sent
 * and the phase have invariants of their own; and every step of the machine keeps them all.
 */
module LiteLoopSafety {
  import opened Prelude
  import opened DataPoints
  import opened KeyedMerge
  import opened SessionState
  import opened LiteGraph
  import opened LiteLoop

  // ----- one operator's bookkeeping -----

  /** One operator's share of the state: its dictionary entries, its watermark and its history. */
  datatype Slice = Slice(op: Op, mark: Option<nat>, t: Track)

  function SliceOf(s: State, h: History, o: string): Slice {
    Slice(s.At(o), At(s.session.watermarks, o), h.At(o))
  }

  ghost predicate IsView(views: seq<View>, revision: nat, view: View) {
    revision < |views| && views[revision] == view
  }

  /** The delta a run was given is the difference between its view and the one last acted on. */
  ghost predicate DeltaOk(r: Running, hasRun: bool, seen: View) {
    if !hasRun then r.delta.isFirst && r.delta.added == r.view && r.delta.updated == map[]
    else
      && !r.delta.isFirst
      && r.delta.added == (map k | k in r.view && k !in seen :: r.view[k])
      && r.delta.updated == (map k | k in r.view && k in seen && seen[k].lastRetrieved < r.view[k].lastRetrieved :: r.view[k])
  }

  ghost predicate RunningOk(cfg: Config, o: string, x: Slice) {
    x.op.running.Some? ==>
      && HasOperator(cfg, o) && x.op.armed.None? && x.t.launches > 0
      && x.op.running.value == Running(x.t.observed, x.t.given, x.t.told)
      && DeltaOk(x.op.running.value, x.mark.Some?, x.t.seen)
  }

  ghost predicate ArmedOk(cfg: Config, o: string, x: Slice) {
    && (x.op.armed.Some? <==> x.op.retryAt.Some?)
    && (x.op.armed.Some? ==>
          && HasOperator(cfg, o) && !Tripped(cfg, o, x.op.count) && x.t.cancelled == 0 && x.t.launches > 0
          && DeltaOk(Running(x.t.observed, x.t.given, x.t.told), x.mark.Some?, x.t.seen)
          && x.t.observed == x.op.armed.value.observed && x.op.failed == x.op.armed.value.attempts > 0)
    && (x.op.failed > 0 ==>
          && RetryBudget(cfg.operators, o).Some? && x.op.failed < RetryBudget(cfg.operators, o).value
          && (x.op.armed.Some? || x.op.running.Some? || x.t.cancelled > 0))
  }

  ghost predicate MarkOk(x: Slice, views: seq<View>) {
    && (x.t.launches > 0 ==> IsView(views, x.t.observed, x.t.given))
    && (x.mark.Some? ==> x.t.launches > 0 && x.mark.value <= x.t.observed && IsView(views, x.mark.value, x.t.seen))
    && (x.t.launches > 0 && x.op.running.None? && x.op.armed.None? && x.t.cancelled == 0 ==> x.mark == Some(x.t.observed))
  }

  ghost predicate CountOk(cfg: Config, o: string, x: Slice, deadlineHit: bool) {
    && x.t.launches == x.op.runs + x.t.cancelled + (if x.op.running.Some? then 1 else 0)
    && x.op.count == x.op.runs
    && x.t.cancelled <= 1
    && (x.t.cancelled > 0 ==> deadlineHit && x.op.running.None?)
    && (o in cfg.caps && x.t.launches > 0 ==> x.t.launches <= cfg.caps[o])
  }

  ghost predicate SliceOk(cfg: Config, o: string, x: Slice, views: seq<View>, deadlineHit: bool) {
    && RunningOk(cfg, o, x)
    && ArmedOk(cfg, o, x)
    && MarkOk(x, views)
    && CountOk(cfg, o, x, deadlineHit)
    && (x.t.launches > 0 ==> x.t.told.newCaps <= x.op.prevCaps)
  }

  ghost predicate OpInv(cfg: Config, s: State, h: History, o: string) {
    SliceOk(cfg, o, SliceOf(s, h, o), h.views, s.deadlineHit)
  }

  ghost predicate Core(cfg: Config, s: State, h: History) {
    && !s.crashed
    && TellsHistory(s.session, h.views)
    && forall o :: OpInv(cfg, s, h, o)
  }

  // ----- the queue -----

  /** Every queued signal is from a running operator, and a completion is its operator's last signal. */
  ghost predicate QueueOk(cfg: Config, s: State) {
    && (forall i :: 0 <= i < |s.queue| ==> s.At(s.queue[i].id).running.Some?)
    && (forall i, j :: 0 <= i < j < |s.queue| && s.queue[i].Completed? ==> s.queue[i].id != s.queue[j].id)
    && (forall i :: 0 <= i < |s.queue| && s.queue[i].Completed? && s.queue[i].cutByDeadline ==> cfg.deadline.Some?)
  }

  ghost predicate SentOk(s: State, h: History) {
    && h.merged <= |h.sent|
    && h.sent[h.merged..] == Emissions(s.queue)
    && forall i :: 0 <= i < h.merged ==> Covered(s.session.entries, h.sent[i].dp)
  }

  // ----- where the loop stands -----

  /** Nothing calls for launching the operator: it is not ready, or it has run and no new data concerns it. */
  ghost predicate Idle(s: State, op: Operator, available: map<string, Class>) {
    || !Ready(op, s.session.entries, available)
    || (op.id in s.session.watermarks
        && (!op.policy.rerunOnNewData || !Relevant(op, OpDelta(s, op.id, available))))
  }

  ghost predicate DueBy(due: Option<int>, wake: Option<int>) {
    due.Some? && wake.Some? && wake.value <= due.value
  }

  /** After a pass an operator is in flight, or has nothing to do, or waits for a window no earlier than `wake`. */
  ghost predicate Settled(cfg: Config, s: State, op: Operator, wake: Option<int>, available: map<string, Class>) {
    var x := s.At(op.id);
    || x.running.Some?
    || Tripped(cfg, op.id, x.count)
    || DueBy(x.retryAt, wake)
    || (x.retryAt.None? && (Idle(s, op, available) || DueBy(x.debounceAt, wake)))
  }

  ghost predicate PhaseOk(cfg: Config, s: State) {
    match s.phase
    case Top => true
    case Waiting(wake, available) =>
      !s.deadlineHit && forall op :: op in cfg.operators ==> Settled(cfg, s, op, wake, available)
    case Draining => s.deadlineHit
    case Ended => !s.AnyRunning() && s.queue == []
  }

  ghost predicate Inv(cfg: Config, w: World) {
    && Core(cfg, w.s, w.h)
    && QueueOk(cfg, w.s)
    && SentOk(w.s, w.h)
    && PhaseOk(cfg, w.s)
  }

  /** A watermark, once set, is never unset and never moves back. */
  predicate MarkLe(before: Option<nat>, after: Option<nat>) {
    before.Some? ==> after.Some? && before.value <= after.value
  }

  ghost predicate MarksGrow(s: State, s': State) {
    forall o :: MarkLe(At(s.session.watermarks, o), At(s'.session.watermarks, o))
  }

  // ----- recording completions -----

  lemma CompleteKeepsSlice(cfg: Config, o: string, x: Slice, views: seq<View>, hit: bool, error: Option<string>, cut: bool, due: int)
    requires SliceOk(cfg, o, x, views, hit) && x.op.running.Some?
    ensures var outcome := Complete(cfg, o, x.op, error, cut, due);
      SliceOk(cfg, o, Slice(outcome.op, if outcome.advances then Some(x.op.running.value.observed) else x.mark,
                            NoteOutcome(x.t, outcome.advances, cut)), views, hit || cut)
  {
    hide HasOperator, DeltaOk, RetryBudget, IsView;
  }

  lemma RecordSlice(cfg: Config, s: State, h: History, signal: Signal, delay: nat, o: string)
    requires signal.Completed? ==> s.At(signal.id).running.Some?
    ensures SliceOf(RecordSignal(cfg, s, signal, delay), NoteSignal(cfg, s, h, signal), o) ==
      if signal.Emitted? || o != signal.id then SliceOf(s, h, o)
      else
        var outcome := Complete(cfg, o, s.At(o), signal.error, signal.cutByDeadline, s.now + delay);
        Slice(outcome.op, if outcome.advances then Some(s.At(o).running.value.observed) else At(s.session.watermarks, o),
              NoteOutcome(h.At(o), outcome.advances, signal.cutByDeadline))
  {
    hide WillRetry;
  }

  lemma RecordFrame(cfg: Config, s: State, h: History, signal: Signal, delay: nat)
    requires signal.Completed? ==> s.At(signal.id).running.Some?
    ensures var s', h' := RecordSignal(cfg, s, signal, delay), NoteSignal(cfg, s, h, signal);
      && s'.crashed == s.crashed && s'.queue == s.queue && s'.now == s.now && s'.phase == s.phase
      && s'.session.entries == s.session.entries && s'.session.revision == s.session.revision
      && s'.deadlineHit == (s.deadlineHit || (signal.Completed? && signal.cutByDeadline))
      && h'.views == h.views && h'.sent == h.sent && h'.merged == h.merged
      && forall o :: s'.At(o).running == if signal.Completed? && o == signal.id then None else s.At(o).running
  {
    hide WillRetry;
  }

  lemma HitStays(cfg: Config, o: string, x: Slice, views: seq<View>, hit: bool)
    requires SliceOk(cfg, o, x, views, hit)
    ensures SliceOk(cfg, o, x, views, true)
  {
  }

  lemma MarkBelowLaunch(cfg: Config, o: string, x: Slice, views: seq<View>, hit: bool)
    requires SliceOk(cfg, o, x, views, hit)
    ensures x.op.running.Some? ==> MarkLe(x.mark, Some(x.op.running.value.observed))
    ensures x.op.armed.Some? ==> MarkLe(x.mark, Some(x.op.armed.value.observed))
  {
  }

  lemma RecordKeepsCore(cfg: Config, s: State, h: History, signal: Signal, delay: nat)
    requires Core(cfg, s, h) && (signal.Completed? ==> s.At(signal.id).running.Some?)
    ensures Core(cfg, RecordSignal(cfg, s, signal, delay), NoteSignal(cfg, s, h, signal))
    ensures MarksGrow(s, RecordSignal(cfg, s, signal, delay))
  {
    hide SliceOk, RecordSignal, NoteSignal, Complete;
    var s', h' := RecordSignal(cfg, s, signal, delay), NoteSignal(cfg, s, h, signal);
    RecordFrame(cfg, s, h, signal, delay);
    forall o ensures MarkLe(At(s.session.watermarks, o), At(s'.session.watermarks, o)) {
      assert OpInv(cfg, s, h, o);
      RecordSlice(cfg, s, h, signal, delay, o);
      MarkBelowLaunch(cfg, o, SliceOf(s, h, o), h.views, s.deadlineHit);
      assert At(s'.session.watermarks, o) == SliceOf(s', h', o).mark;
    }
    forall o ensures OpInv(cfg, s', h', o) {
      assert OpInv(cfg, s, h, o);
      RecordSlice(cfg, s, h, signal, delay, o);
      if signal.Completed? && o == signal.id {
        CompleteKeepsSlice(cfg, o, SliceOf(s, h, o), h.views, s.deadlineHit, signal.error, signal.cutByDeadline, s.now + delay);
      } else {
        HitStays(cfg, o, SliceOf(s, h, o), h.views, s.deadlineHit);
      }
    }
  }

  /** The signals not yet recorded still come from running operators. */
  ghost predicate RestRunning(s: State, signals: seq<Signal>, n: nat) {
    forall i :: n <= i < |signals| ==> s.At(signals[i].id).running.Some?
  }

  lemma {:induction false} RecordUpToKeepsCore(cfg: Config, s: State, h: History, signals: seq<Signal>, delays: seq<nat>, n: nat)
    requires n <= |signals| == |delays|
    requires Core(cfg, s, h) && RestRunning(s, signals, 0)
    requires forall i, j :: 0 <= i < j < |signals| && signals[i].Completed? ==> signals[i].id != signals[j].id
    ensures var s', h' := RecordUpTo(cfg, s, signals, delays, n), NoteUpTo(cfg, s, h, signals, delays, n);
      && Core(cfg, s', h') && RestRunning(s', signals, n) && MarksGrow(s, s')
      && s'.session.entries == s.session.entries && s'.session.revision == s.session.revision
      && s'.queue == s.queue && s'.now == s.now && s'.phase == s.phase
      && h'.views == h.views && h'.sent == h.sent && h'.merged == h.merged
      && (s'.deadlineHit <==> s.deadlineHit || exists i :: 0 <= i < n && signals[i].Completed? && signals[i].cutByDeadline)
      && forall o :: s'.At(o).running.Some? <==> s.At(o).running.Some? && forall i :: 0 <= i < n && signals[i].Completed? ==> signals[i].id != o
  {
    hide Core, RecordSignal, NoteSignal;
    if n > 0 {
      RecordUpToKeepsCore(cfg, s, h, signals, delays, n - 1);
      var s1, h1 := RecordUpTo(cfg, s, signals, delays, n - 1), NoteUpTo(cfg, s, h, signals, delays, n - 1);
      RecordKeepsCore(cfg, s1, h1, signals[n - 1], delays[n - 1]);
      RecordFrame(cfg, s1, h1, signals[n - 1], delays[n - 1]);
    }
  }

  // ----- merging the queued emissions -----

  lemma MergeKeepsCore(cfg: Config, s: State, h: History)
    requires Core(cfg, s, h)
    ensures Core(cfg, MergeQueued(s), NoteMerge(s, h))
  {
    hide RunningOk, ArmedOk, CountOk, TellsHistory, Merge;
    var s', h' := MergeQueued(s), NoteMerge(s, h);
    MergeTellsHistory(s.session, h.views, Points(Emissions(s.queue)));
    assert s'.session.watermarks == s.session.watermarks by { MergeFrame(s.session, Points(Emissions(s.queue))); }
    forall o ensures OpInv(cfg, s', h', o) {
      assert OpInv(cfg, s, h, o);
      assert SliceOf(s', h', o) == SliceOf(s, h, o);
    }
  }

  lemma MergeFrame(session: Session, batch: seq<DataPoint>)
    ensures Merge(session, batch).watermarks == session.watermarks
    ensures Merge(session, batch).entries == MergeAll(session.entries, batch, session.revision + 1)
  {
  }

  lemma MergeQueuedFrame(s: State, h: History)
    ensures var m, g := MergeQueued(s), NoteMerge(s, h);
      && m.session.watermarks == s.session.watermarks && m.queue == s.queue && m.phase == s.phase
      && m.deadlineHit == s.deadlineHit && g.sent == h.sent && g.merged == |h.sent|
      && forall o :: m.At(o) == s.At(o)
  {
    MergeFrame(s.session, Points(Emissions(s.queue)));
  }

  lemma MergeCoversSent(s: State, h: History)
    requires SentOk(s, h)
    ensures forall i :: 0 <= i < |h.sent| ==> Covered(MergeQueued(s).session.entries, h.sent[i].dp)
  {
    var points := Points(Emissions(s.queue));
    MergeFrame(s.session, points);
    forall i | 0 <= i < |h.sent| ensures Covered(MergeQueued(s).session.entries, h.sent[i].dp) {
      if i < h.merged {
        CoveredStays(s.session.entries, points, s.session.revision + 1, h.sent[i].dp);
      } else {
        assert h.sent[i] == h.sent[h.merged..][i - h.merged];
        assert points[i - h.merged] == h.sent[i].dp;
        MergeCovers(s.session.entries, points, s.session.revision + 1, h.sent[i].dp);
      }
    }
  }

  /** Draining the queue keeps the invariant, leaves the queue empty and merges everything ever sent. */
  lemma ConsumeKeeps(cfg: Config, s: State, h: History, delays: seq<nat>)
    requires Core(cfg, s, h) && QueueOk(cfg, s) && SentOk(s, h) && |delays| == |s.queue|
    ensures var s', h' := ConsumeQueue(cfg, s, delays), NoteConsume(cfg, s, h, delays);
      && Core(cfg, s', h') && SentOk(s', h') && s'.queue == [] && h'.merged == |h'.sent| && h'.sent == h.sent
      && MarksGrow(s, s')
      && (s'.deadlineHit ==> s.deadlineHit || cfg.deadline.Some?)
      && s'.phase == s.phase && (s.deadlineHit ==> s'.deadlineHit)
      && forall o :: s'.At(o).running.Some? ==> s.At(o).running.Some?
  {
    hide Core, Complete, Covered, RecordUpTo, NoteUpTo, MergeQueued, NoteMerge;
    MergeKeepsCore(cfg, s, h);
    MergeCoversSent(s, h);
    var m, g := MergeQueued(s), NoteMerge(s, h);
    MergeQueuedFrame(s, h);
    RecordUpToKeepsCore(cfg, m, g, s.queue, delays, |s.queue|);
    var r, h' := RecordUpTo(cfg, m, s.queue, delays, |s.queue|), NoteConsume(cfg, s, h, delays);
    assert forall o :: r.At(o) == r.(queue := []).At(o);
    EmptiedKeepsCore(cfg, r, h');
  }

  lemma EmptiedKeepsCore(cfg: Config, s: State, h: History)
    requires Core(cfg, s, h)
    ensures Core(cfg, s.(queue := []), h)
  {
    hide SliceOk;
    forall o ensures OpInv(cfg, s.(queue := []), h, o) { assert OpInv(cfg, s, h, o); }
  }

  // ----- planning -----

  ghost predicate RunnableOk(cfg: Config, s: State, r: Runnable, available: map<string, Class>) {
    var x := s.At(r.op.id);
    && r.op in cfg.operators
    && x.running.None? && !Tripped(cfg, r.op.id, x.count)
    && (r.isRetry <==> x.retryAt.Some?)
    && r.delta == OpDelta(s, r.op.id, available)
    && Ready(r.op, s.session.entries, available)
    && (!r.isRetry && r.op.id in s.session.watermarks ==> r.op.policy.rerunOnNewData && Relevant(r.op, r.delta))
  }

  lemma DropRetryKeepsSlice(cfg: Config, o: string, x: Slice, views: seq<View>, hit: bool)
    requires SliceOk(cfg, o, x, views, hit) && x.op.armed.Some? && !hit
    ensures SliceOk(cfg, o, Slice(Terminal(x.op.(retryAt := None, armed := None), x.op.armed.value.error),
                                  Some(x.op.armed.value.observed), NoteOutcome(x.t, true, false)), views, hit)
  {
    hide HasOperator, DeltaOk, RetryBudget, IsView;
  }

  lemma PlanOneSlice(cfg: Config, s: State, h: History, plan: Plan, op: Operator, available: map<string, Class>, now: int)
    requires Core(cfg, s, h) && !s.deadlineHit
    ensures var s', h' := PlanOne(cfg, s, plan, op, available, now).0, NotePlan(cfg, s, h, op, available, now);
      && OpInv(cfg, s', h', op.id)
      && !s'.crashed && h'.views == h.views && s'.deadlineHit == s.deadlineHit
      && s'.session.entries == s.session.entries && s'.session.revision == s.session.revision
      && s'.At(op.id).running == s.At(op.id).running && s'.At(op.id).count == s.At(op.id).count
      && MarkLe(At(s.session.watermarks, op.id), At(s'.session.watermarks, op.id))
  {
    hide SliceOk, Ready, Relevant, OpDelta, Tripped, TellsHistory;
    var x := SliceOf(s, h, op.id);
    assert OpInv(cfg, s, h, op.id);
    var entries := s.At(op.id);
    var decision := Decide(cfg, op, entries, Ready(op, s.session.entries, available), op.id in s.session.watermarks,
                           OpDelta(s, op.id, available), now);
    if decision.GiveUp? {
      ArmedIffRetry(cfg, op.id, x, h.views, s.deadlineHit);
      MarkBelowLaunch(cfg, op.id, x, h.views, s.deadlineHit);
      DropRetryKeepsSlice(cfg, op.id, x, h.views, s.deadlineHit);
    } else {
      ArmWindowKeepsSlice(cfg, op.id, x, h.views, s.deadlineHit, op, decision, op.id in s.session.watermarks, now);
    }
  }

  lemma ArmedIffRetry(cfg: Config, o: string, x: Slice, views: seq<View>, hit: bool)
    requires SliceOk(cfg, o, x, views, hit)
    ensures x.op.armed.Some? <==> x.op.retryAt.Some?
    ensures x.op.running.Some? ==> x.op.retryAt.None?
  {
  }

  lemma ArmWindowKeepsSlice(cfg: Config, o: string, x: Slice, views: seq<View>, hit: bool, op: Operator, d: Decision, hasRun: bool, now: int)
    requires SliceOk(cfg, o, x, views, hit)
    ensures SliceOk(cfg, o, Slice(ArmWindow(op, x.op, d, hasRun, now), x.mark, x.t), views, hit)
  {
  }

  lemma PlanOneLeavesOthers(cfg: Config, s: State, h: History, plan: Plan, op: Operator, available: map<string, Class>, now: int, o: string)
    requires o != op.id
    ensures var s', h' := PlanOne(cfg, s, plan, op, available, now).0, NotePlan(cfg, s, h, op, available, now);
      SliceOf(s', h', o) == SliceOf(s, h, o)
  {
    hide Decide, Ready, OpDelta;
  }

  lemma PlanFrame(cfg: Config, s: State, h: History, plan: Plan, op: Operator, available: map<string, Class>, now: int)
    ensures var s', h' := PlanOne(cfg, s, plan, op, available, now).0, NotePlan(cfg, s, h, op, available, now);
      && s'.session.entries == s.session.entries && s'.session.revision == s.session.revision
      && s'.queue == s.queue && s'.now == s.now && s'.phase == s.phase && s'.deadlineHit == s.deadlineHit
      && h'.views == h.views && h'.sent == h.sent && h'.merged == h.merged
  {
    hide Decide, Ready, OpDelta;
  }

  lemma PlanOneKeepsCore(cfg: Config, s: State, h: History, plan: Plan, op: Operator, available: map<string, Class>, now: int)
    requires Core(cfg, s, h) && !s.deadlineHit
    ensures Core(cfg, PlanOne(cfg, s, plan, op, available, now).0, NotePlan(cfg, s, h, op, available, now))
  {
    hide SliceOk, PlanOne, NotePlan, SliceOf;
    var s', h' := PlanOne(cfg, s, plan, op, available, now).0, NotePlan(cfg, s, h, op, available, now);
    PlanFrame(cfg, s, h, plan, op, available, now);
    PlanOneSlice(cfg, s, h, plan, op, available, now);
    forall o ensures OpInv(cfg, s', h', o) {
      assert OpInv(cfg, s, h, o);
      if o != op.id { PlanOneLeavesOthers(cfg, s, h, plan, op, available, now, o); }
    }
  }

  /** What one planning decision adds: a runnable operator, a window no later than `soonest`, or nothing to do. */
  ghost predicate Considered(cfg: Config, s: State, plan: Plan, op: Operator, available: map<string, Class>) {
    || (exists i :: 0 <= i < |plan.runnable| && plan.runnable[i].op == op)
    || Settled(cfg, s, op, plan.soonest, available)
  }

  lemma PlanOneConsiders(cfg: Config, s: State, h: History, plan: Plan, op: Operator, available: map<string, Class>, now: int)
    requires Core(cfg, s, h) && !s.deadlineHit && op in cfg.operators
    ensures var (s', plan') := PlanOne(cfg, s, plan, op, available, now);
      && Considered(cfg, s', plan', op, available)
      && (plan'.runnable == plan.runnable
          || (|plan'.runnable| == |plan.runnable| + 1 && plan'.runnable[..|plan.runnable|] == plan.runnable
              && plan'.runnable[|plan.runnable|].op == op && RunnableOk(cfg, s', plan'.runnable[|plan.runnable|], available)))
      && (plan.soonest.Some? ==> plan'.soonest.Some? && plan'.soonest.value <= plan.soonest.value)
  {
    hide SliceOk, Ready, Relevant, Tripped, TellsHistory;
    var (s', plan') := PlanOne(cfg, s, plan, op, available, now);
    assert OpInv(cfg, s, h, op.id);
    ArmedIffRetry(cfg, op.id, SliceOf(s, h, op.id), h.views, s.deadlineHit);
    var entries := s.At(op.id);
    var decision := Decide(cfg, op, entries, Ready(op, s.session.entries, available), op.id in s.session.watermarks,
                           OpDelta(s, op.id, available), now);
    if decision.Launch? {
      assert plan'.runnable[|plan.runnable|].op == op;
      assert OpDelta(s', op.id, available) == OpDelta(s, op.id, available);
    }
  }

  lemma SettledEarlier(cfg: Config, s: State, op: Operator, wake: Option<int>, wake': Option<int>, available: map<string, Class>)
    requires Settled(cfg, s, op, wake, available)
    requires wake.Some? ==> wake'.Some? && wake'.value <= wake.value
    ensures Settled(cfg, s, op, wake', available)
  {
    hide Idle;
  }

  /** `Settled` and `RunnableOk` look only at their own operator's entries. */
  lemma SameSliceSameStanding(cfg: Config, s: State, s': State, op: Operator, available: map<string, Class>)
    requires s'.At(op.id) == s.At(op.id) && At(s'.session.watermarks, op.id) == At(s.session.watermarks, op.id)
    requires s'.session.entries == s.session.entries
    ensures OpDelta(s', op.id, available) == OpDelta(s, op.id, available)
    ensures Idle(s', op, available) <==> Idle(s, op, available)
    ensures op.id in s'.session.watermarks <==> op.id in s.session.watermarks
  {
    hide Ready, Relevant;
  }

  ghost predicate PlanInv(cfg: Config, s0: State, s: State, plan: Plan, available: map<string, Class>, n: nat)
    requires n <= |cfg.operators|
  {
    && (forall i :: 0 <= i < |plan.runnable| ==> RunnableOk(cfg, s, plan.runnable[i], available))
    && (forall i :: 0 <= i < |plan.runnable| ==> plan.runnable[i].op in cfg.operators[..n])
    && (forall i, j :: 0 <= i < j < |plan.runnable| ==> plan.runnable[i].op.id != plan.runnable[j].op.id)
    && (forall j :: 0 <= j < n ==> Considered(cfg, s, plan, cfg.operators[j], available))
    && (forall j :: n <= j < |cfg.operators| ==>
          && s.At(cfg.operators[j].id) == s0.At(cfg.operators[j].id)
          && At(s.session.watermarks, cfg.operators[j].id) == At(s0.session.watermarks, cfg.operators[j].id))
    && s.session.entries == s0.session.entries && s.session.revision == s0.session.revision
    && s.queue == s0.queue && s.now == s0.now && s.phase == s0.phase && s.deadlineHit == s0.deadlineHit
    && (forall o :: s.At(o).running == s0.At(o).running)
    && MarksGrow(s0, s)
  }

  lemma {:induction false} PlanUpToKeeps(cfg: Config, s: State, h: History, available: map<string, Class>, times: seq<int>, n: nat)
    requires WellFormed(cfg) && Core(cfg, s, h) && !s.deadlineHit && n <= |cfg.operators| == |times|
    ensures var (s', plan) := PlanUpTo(cfg, s, available, times, n);
      var h' := NotePlanUpTo(cfg, s, h, available, times, n);
      && Core(cfg, s', h') && PlanInv(cfg, s, s', plan, available, n)
      && h'.views == h.views && h'.sent == h.sent && h'.merged == h.merged
  {
    hide Core, PlanInv, PlanOne, NotePlan;
    if n == 0 {
      NothingPlanned(cfg, s, available);
    } else {
      PlanUpToKeeps(cfg, s, h, available, times, n - 1);
      PlanStep(cfg, s, h, available, times, n - 1);
    }
  }

  lemma NothingPlanned(cfg: Config, s: State, available: map<string, Class>)
    ensures PlanInv(cfg, s, s, Plan([], None), available, 0)
  {
  }

  lemma PlanStep(cfg: Config, s0: State, h0: History, available: map<string, Class>, times: seq<int>, n: nat)
    requires WellFormed(cfg) && n < |cfg.operators| == |times|
    requires var (s, plan) := PlanUpTo(cfg, s0, available, times, n);
      Core(cfg, s, NotePlanUpTo(cfg, s0, h0, available, times, n)) && !s0.deadlineHit && PlanInv(cfg, s0, s, plan, available, n)
    ensures var (s, plan) := PlanUpTo(cfg, s0, available, times, n);
      var (s', plan') := PlanOne(cfg, s, plan, cfg.operators[n], available, times[n]);
      var h := NotePlanUpTo(cfg, s0, h0, available, times, n);
      var h' := NotePlan(cfg, s, h, cfg.operators[n], available, times[n]);
      && Core(cfg, s', h') && PlanInv(cfg, s0, s', plan', available, n + 1)
      && h'.views == h.views && h'.sent == h.sent && h'.merged == h.merged
  {
    hide Core, PlanOne, NotePlan, PlanInv, Considered, RunnableOk;
    var (s, plan) := PlanUpTo(cfg, s0, available, times, n);
    var h := NotePlanUpTo(cfg, s0, h0, available, times, n);
    var op, now := cfg.operators[n], times[n];
    var (s', plan') := PlanOne(cfg, s, plan, op, available, now);
    assert s.deadlineHit == s0.deadlineHit by { PlannedRunnableSoFar(cfg, s0, s, plan, available, n); }
    PlanOneKeepsCore(cfg, s, h, plan, op, available, now);
    PlanFrame(cfg, s, h, plan, op, available, now);
    PlanOneSlice(cfg, s, h, plan, op, available, now);
    PlanOneConsiders(cfg, s, h, plan, op, available, now);
    forall o | o != op.id
      ensures s'.At(o) == s.At(o) && At(s'.session.watermarks, o) == At(s.session.watermarks, o)
    {
      PlanOneLeavesOthers(cfg, s, h, plan, op, available, now, o);
    }
    PlanStepKeepsPlan(cfg, s0, s, plan, s', plan', available, n);
  }

  lemma PlannedRunnableSoFar(cfg: Config, s0: State, s: State, plan: Plan, available: map<string, Class>, n: nat)
    requires n <= |cfg.operators| && PlanInv(cfg, s0, s, plan, available, n)
    ensures s.deadlineHit == s0.deadlineHit
  {
    hide RunnableOk, Considered;
  }

  lemma PlanStepKeepsPlan(cfg: Config, s0: State, s: State, plan: Plan, s': State, plan': Plan, available: map<string, Class>, n: nat)
    requires WellFormed(cfg) && n < |cfg.operators| && PlanInv(cfg, s0, s, plan, available, n)
    requires var id := cfg.operators[n].id;
      && (forall o :: o != id ==> s'.At(o) == s.At(o) && At(s'.session.watermarks, o) == At(s.session.watermarks, o))
      && s'.At(id).running == s.At(id).running
      && MarkLe(At(s.session.watermarks, id), At(s'.session.watermarks, id))
    requires s'.session.entries == s.session.entries && s'.session.revision == s.session.revision
    requires s'.queue == s.queue && s'.now == s.now && s'.phase == s.phase && s'.deadlineHit == s.deadlineHit
    requires Considered(cfg, s', plan', cfg.operators[n], available)
    requires plan'.runnable == plan.runnable
          || (|plan'.runnable| == |plan.runnable| + 1 && plan'.runnable[..|plan.runnable|] == plan.runnable
              && plan'.runnable[|plan.runnable|].op == cfg.operators[n]
              && RunnableOk(cfg, s', plan'.runnable[|plan.runnable|], available))
    requires plan.soonest.Some? ==> plan'.soonest.Some? && plan'.soonest.value <= plan.soonest.value
    ensures PlanInv(cfg, s0, s', plan', available, n + 1)
  {
    hide Settled, Tripped, Ready, Relevant;
    assert forall i :: 0 <= i < |plan.runnable| ==> plan'.runnable[i] == plan.runnable[i];
    forall i | 0 <= i < |plan.runnable| ensures RunnableOk(cfg, s', plan.runnable[i], available) {
      assert RunnableOk(cfg, s, plan.runnable[i], available) && plan.runnable[i].op in cfg.operators[..n];
      SameSliceSameStanding(cfg, s, s', plan.runnable[i].op, available);
    }
    hide RunnableOk;
    forall j | 0 <= j < n ensures Considered(cfg, s', plan', cfg.operators[j], available) {
      assert Considered(cfg, s, plan, cfg.operators[j], available);
      ConsideredStays(cfg, s, plan, s', plan', cfg.operators[j], available);
    }
    hide Considered;
    forall i, j | 0 <= i < j < |plan'.runnable| ensures plan'.runnable[i].op.id != plan'.runnable[j].op.id {
      assert plan.runnable[i].op in cfg.operators[..n];
    }
    assert MarksGrow(s0, s') by {
      forall o ensures MarkLe(At(s0.session.watermarks, o), At(s'.session.watermarks, o)) {
        assert MarkLe(At(s0.session.watermarks, o), At(s.session.watermarks, o));
      }
    }
  }

  lemma ConsideredStays(cfg: Config, s: State, plan: Plan, s': State, plan': Plan, op: Operator, available: map<string, Class>)
    requires Considered(cfg, s, plan, op, available)
    requires s'.At(op.id) == s.At(op.id) && At(s'.session.watermarks, op.id) == At(s.session.watermarks, op.id)
    requires s'.session.entries == s.session.entries
    requires |plan.runnable| <= |plan'.runnable| && forall i :: 0 <= i < |plan.runnable| ==> plan'.runnable[i] == plan.runnable[i]
    requires plan.soonest.Some? ==> plan'.soonest.Some? && plan'.soonest.value <= plan.soonest.value
    ensures Considered(cfg, s', plan', op, available)
  {
    hide Settled;
    if i :| 0 <= i < |plan.runnable| && plan.runnable[i].op == op {
      assert plan'.runnable[i] == plan.runnable[i];
    } else {
      SettledEarlier(cfg, s, op, plan.soonest, plan'.soonest, available);
      SettledSame(cfg, s, s', op, plan'.soonest, available);
    }
  }

  lemma SettledSame(cfg: Config, s: State, s': State, op: Operator, wake: Option<int>, available: map<string, Class>)
    requires Settled(cfg, s, op, wake, available)
    requires s'.At(op.id) == s.At(op.id) && At(s'.session.watermarks, op.id) == At(s.session.watermarks, op.id)
    requires s'.session.entries == s.session.entries
    ensures Settled(cfg, s', op, wake, available)
  {
    hide Idle;
    SameSliceSameStanding(cfg, s, s', op, available);
  }

  // ----- launching -----

  /** A launched delta is exact because the session tells its own history. */
  lemma LaunchDeltaOk(s: State, h: History, o: string, available: map<string, Class>)
    requires TellsHistory(s.session, h.views) && MarkOk(SliceOf(s, h, o), h.views)
    ensures DeltaOk(Running(s.session.revision, ViewOf(s.session.entries), OpDelta(s, o, available)),
                    o in s.session.watermarks, h.At(o).seen)
  {
    if o in s.session.watermarks {
      DeltaIsExact(s.session, h.views, o, s.At(o).prevCaps, available.Keys);
    }
  }

  lemma LaunchKeepsSlice(cfg: Config, o: string, x: Slice, views: seq<View>, running: Running, isRetry: bool,
                         available: map<string, Class>, t': Track)
    requires SliceOk(cfg, o, x, views, false) && HasOperator(cfg, o)
    requires x.op.running.None? && !Tripped(cfg, o, x.op.count) && (isRetry <==> x.op.retryAt.Some?)
    requires IsView(views, running.observed, running.view) && |views| == running.observed + 1
    requires DeltaOk(running, x.mark.Some?, x.t.seen) && running.delta.newCaps <= available.Keys && t'.told == running.delta
    requires t'.given == running.view && t'.observed == running.observed && t'.seen == x.t.seen
    requires t'.launches == x.t.launches + 1 && t'.cancelled == x.t.cancelled
    ensures SliceOk(cfg, o, Slice(LaunchOp(x.op, running, isRetry, available), x.mark, t'), views, false)
  {
    hide HasOperator, DeltaOk, RetryBudget;
  }

  lemma LaunchOneKeepsCore(cfg: Config, s: State, h: History, r: Runnable, available: map<string, Class>)
    requires Core(cfg, s, h) && !s.deadlineHit && RunnableOk(cfg, s, r, available)
    ensures Core(cfg, LaunchOne(s, r, available), NoteLaunch(s, h, r))
  {
    hide SliceOk, TellsHistory, OpDelta, Tripped, DeltaOk, LaunchOp;
    var s', h' := LaunchOne(s, r, available), NoteLaunch(s, h, r);
    forall o ensures OpInv(cfg, s', h', o) {
      assert OpInv(cfg, s, h, o);
      if o == r.op.id {
        LaunchDeltaOkFor(cfg, s, h, o, available);
        var running := Running(s.session.revision, ViewOf(s.session.entries), r.delta);
        LaunchKeepsSlice(cfg, o, SliceOf(s, h, o), h.views, running, r.isRetry, available, h'.At(o));
        assert s'.At(o) == LaunchOp(s.At(o), running, r.isRetry, available);
      } else {
        assert SliceOf(s', h', o) == SliceOf(s, h, o);
      }
    }
  }

  lemma LaunchDeltaOkFor(cfg: Config, s: State, h: History, o: string, available: map<string, Class>)
    requires Core(cfg, s, h)
    ensures |h.views| == s.session.revision + 1 && IsView(h.views, s.session.revision, ViewOf(s.session.entries))
    ensures DeltaOk(Running(s.session.revision, ViewOf(s.session.entries), OpDelta(s, o, available)),
                    o in s.session.watermarks, h.At(o).seen)
    ensures OpDelta(s, o, available).newCaps <= available.Keys
  {
    assert OpInv(cfg, s, h, o);
    LaunchDeltaOk(s, h, o, available);
  }

  /** After launching the first `n` runnable operators: those run, everything else is as planned. */
  ghost predicate Launched(s0: State, s: State, runnable: seq<Runnable>, n: nat)
    requires n <= |runnable|
  {
    && (forall i :: 0 <= i < n ==> s.At(runnable[i].op.id).running.Some?)
    && (forall o :: (forall i :: 0 <= i < n ==> runnable[i].op.id != o) ==> s.At(o) == s0.At(o))
    && s.session == s0.session && s.queue == s0.queue && s.now == s0.now && s.phase == s0.phase
    && s.deadlineHit == s0.deadlineHit
  }

  lemma {:induction false} LaunchUpToKeeps(cfg: Config, s: State, h: History, runnable: seq<Runnable>, available: map<string, Class>, n: nat)
    requires Core(cfg, s, h) && !s.deadlineHit && n <= |runnable|
    requires forall i :: 0 <= i < |runnable| ==> RunnableOk(cfg, s, runnable[i], available)
    requires forall i, j :: 0 <= i < j < |runnable| ==> runnable[i].op.id != runnable[j].op.id
    ensures var s', h' := LaunchUpTo(s, runnable, available, n), NoteLaunchUpTo(s, h, runnable, n);
      && Core(cfg, s', h') && Launched(s, s', runnable, n)
      && h'.views == h.views && h'.sent == h.sent && h'.merged == h.merged
  {
    hide Core, RunnableOk, LaunchOne, NoteLaunch, Launched;
    if n == 0 {
      NothingLaunched(s, runnable);
    } else {
      LaunchUpToKeeps(cfg, s, h, runnable, available, n - 1);
      LaunchStep(cfg, s, LaunchUpTo(s, runnable, available, n - 1), NoteLaunchUpTo(s, h, runnable, n - 1), runnable, available, n - 1);
    }
  }

  lemma NothingLaunched(s: State, runnable: seq<Runnable>)
    ensures Launched(s, s, runnable, 0)
  {
  }

  lemma LaunchStep(cfg: Config, s0: State, s: State, h: History, runnable: seq<Runnable>, available: map<string, Class>, n: nat)
    requires Core(cfg, s, h) && n < |runnable| && Launched(s0, s, runnable, n) && !s0.deadlineHit
    requires RunnableOk(cfg, s0, runnable[n], available)
    requires forall i, j :: 0 <= i < j < |runnable| ==> runnable[i].op.id != runnable[j].op.id
    ensures var s', h' := LaunchOne(s, runnable[n], available), NoteLaunch(s0, h, runnable[n]);
      && Core(cfg, s', h') && Launched(s0, s', runnable, n + 1)
      && h'.views == h.views && h'.sent == h.sent && h'.merged == h.merged
  {
    hide Core, LaunchOp, Tripped;
    var r := runnable[n];
    assert s.At(r.op.id) == s0.At(r.op.id);
    assert OpDelta(s, r.op.id, available) == OpDelta(s0, r.op.id, available);
    LaunchOneKeepsCore(cfg, s, h, r, available);
    LaunchRuns(s, r, available);
    NoteLaunchSession(s0, s, h, r);
  }

  lemma LaunchRuns(s: State, r: Runnable, available: map<string, Class>)
    ensures LaunchOne(s, r, available).At(r.op.id).running.Some?
  {
  }

  lemma NoteLaunchSession(s: State, s': State, h: History, r: Runnable)
    requires s'.session == s.session
    ensures NoteLaunch(s', h, r) == NoteLaunch(s, h, r)
  {
  }

  lemma PassKeeps(cfg: Config, w: World, available: map<string, Class>, times: seq<int>)
    requires WellFormed(cfg) && Inv(cfg, w) && Enabled(cfg, w.s, PlanAndLaunch(available, times))
    ensures Inv(cfg, Next(cfg, w, PlanAndLaunch(available, times)))
    ensures MarksGrow(w.s, Next(cfg, w, PlanAndLaunch(available, times)).s)
  {
    hide Core, PlanInv, Launched, QueueOk, SentOk, LaunchUpTo, PlanUpTo, NotePlanUpTo, NoteLaunchUpTo;
    var s, h := w.s, w.h;
    PlanUpToKeeps(cfg, s, h, available, times, |times|);
    var (s1, plan) := PlanUpTo(cfg, s, available, times, |times|);
    var h1 := NotePlanUpTo(cfg, s, h, available, times, |times|);
    PlannedRunnable(cfg, s, s1, plan, available);
    LaunchUpToKeeps(cfg, s1, h1, plan.runnable, available, |plan.runnable|);
    var s2, h2 := LaunchUpTo(s1, plan.runnable, available, |plan.runnable|), NoteLaunchUpTo(s1, h1, plan.runnable, |plan.runnable|);
    var w' := Next(cfg, w, PlanAndLaunch(available, times));
    assert w'.h == h2 && w'.s == s2.(phase := w'.s.phase, now := w'.s.now);
    RephasedKeepsCore(cfg, s2, h2, w'.s.phase, w'.s.now);
    PassKeepsQueue(cfg, s, s1, s2, w'.s, h, h2, plan, available);
    PassSettles(cfg, s, s1, s2, w'.s, plan, available);
    assert MarksGrow(s, s1) && w'.s.session == s1.session by { PassMarks(cfg, s, s1, s2, plan, available); }
  }

  lemma PassMarks(cfg: Config, s: State, s1: State, s2: State, plan: Plan, available: map<string, Class>)
    requires PlanInv(cfg, s, s1, plan, available, |cfg.operators|) && Launched(s1, s2, plan.runnable, |plan.runnable|)
    ensures MarksGrow(s, s1) && s2.session == s1.session
  {
    hide RunnableOk, Considered;
  }

  lemma PlannedRunnable(cfg: Config, s: State, s1: State, plan: Plan, available: map<string, Class>)
    requires PlanInv(cfg, s, s1, plan, available, |cfg.operators|)
    ensures forall i :: 0 <= i < |plan.runnable| ==> RunnableOk(cfg, s1, plan.runnable[i], available)
    ensures forall i, j :: 0 <= i < j < |plan.runnable| ==> plan.runnable[i].op.id != plan.runnable[j].op.id
    ensures s1.deadlineHit == s.deadlineHit
  {
    hide RunnableOk, Considered;
  }

  lemma PassKeepsQueue(cfg: Config, s: State, s1: State, s2: State, s': State, h: History, h': History, plan: Plan,
                       available: map<string, Class>)
    requires QueueOk(cfg, s) && SentOk(s, h) && h'.sent == h.sent && h'.merged == h.merged
    requires PlanInv(cfg, s, s1, plan, available, |cfg.operators|) && Launched(s1, s2, plan.runnable, |plan.runnable|)
    requires s' == s2.(phase := s'.phase, now := s'.now)
    ensures QueueOk(cfg, s') && SentOk(s', h')
  {
    hide RunnableOk, Considered;
    forall o ensures s.At(o).running.Some? ==> s'.At(o).running.Some? {
      assert s1.At(o).running == s.At(o).running;
      assert s'.At(o) == s2.At(o);
    }
  }

  lemma PassSettles(cfg: Config, s: State, s1: State, s2: State, s': State, plan: Plan, available: map<string, Class>)
    requires PlanInv(cfg, s, s1, plan, available, |cfg.operators|) && Launched(s1, s2, plan.runnable, |plan.runnable|)
    requires s' == s2.(phase := s'.phase, now := s'.now) && !s.deadlineHit
    requires s'.phase == Waiting(if plan.soonest.None? || cfg.deadline.None? then plan.soonest
                                 else Some(Min(plan.soonest.value, cfg.deadline.value)), available)
    ensures PhaseOk(cfg, s')
  {
    hide RunnableOk, Settled;
    var wake := s'.phase.wake;
    forall op | op in cfg.operators ensures Settled(cfg, s', op, wake, available) {
      var j :| 0 <= j < |cfg.operators| && cfg.operators[j] == op;
      assert Considered(cfg, s1, plan, op, available);
      ConsideredSettles(cfg, s1, s2, plan, op, available);
      SettledEarlier(cfg, s2, op, plan.soonest, wake, available);
      SettledSame(cfg, s2, s', op, wake, available);
    }
  }

  lemma ConsideredSettles(cfg: Config, s: State, s': State, plan: Plan, op: Operator, available: map<string, Class>)
    requires Considered(cfg, s, plan, op, available) && Launched(s, s', plan.runnable, |plan.runnable|)
    ensures Settled(cfg, s', op, plan.soonest, available)
  {
    hide Idle, Tripped;
    if exists i :: 0 <= i < |plan.runnable| && plan.runnable[i].op.id == op.id {
    } else {
      SettledSame(cfg, s, s', op, plan.soonest, available);
    }
  }

  lemma RephasedKeepsCore(cfg: Config, s: State, h: History, phase: Phase, now: int)
    requires Core(cfg, s, h)
    ensures Core(cfg, s.(phase := phase, now := now), h)
  {
    hide SliceOk;
    var s' := s.(phase := phase, now := now);
    forall o ensures OpInv(cfg, s', h, o) {
      assert OpInv(cfg, s, h, o);
      assert SliceOf(s', h, o) == SliceOf(s, h, o);
    }
  }

  // ----- every step, every run -----

  lemma CancelKeepsCore(cfg: Config, s: State, h: History)
    requires Core(cfg, s, h) && s.deadlineHit
    ensures Core(cfg, CancelRunning(s), NoteCancel(s, h)) && !CancelRunning(s).AnyRunning()
  {
    hide SliceOk, TellsHistory;
    var s', h' := CancelRunning(s), NoteCancel(s, h);
    forall o ensures OpInv(cfg, s', h', o) {
      assert OpInv(cfg, s, h, o);
      CancelKeepsSlice(cfg, o, SliceOf(s, h, o), h.views);
      assert SliceOf(s', h', o) == if s.At(o).running.Some?
        then Slice(CancelOp(s.At(o)), At(s.session.watermarks, o), h.At(o).(cancelled := h.At(o).cancelled + 1))
        else SliceOf(s, h, o);
    }
  }

  lemma CancelKeepsSlice(cfg: Config, o: string, x: Slice, views: seq<View>)
    requires SliceOk(cfg, o, x, views, true)
    ensures x.op.running.Some? ==>
      SliceOk(cfg, o, Slice(CancelOp(x.op), x.mark, x.t.(cancelled := x.t.cancelled + 1)), views, true)
  {
    hide HasOperator, DeltaOk, RetryBudget, IsView;
  }

  lemma QueuedKeepsCore(cfg: Config, s: State, h: History, signal: Signal, sent: seq<Emission>)
    requires Core(cfg, s, h)
    ensures Core(cfg, s.(queue := s.queue + [signal]), h.(sent := sent))
  {
    hide SliceOk;
    var s', h' := s.(queue := s.queue + [signal]), h.(sent := sent);
    forall o ensures OpInv(cfg, s', h', o) {
      assert OpInv(cfg, s, h, o);
      assert SliceOf(s', h', o) == SliceOf(s, h, o);
    }
  }

  lemma QueuedKeepsQueue(cfg: Config, s: State, signal: Signal)
    requires QueueOk(cfg, s) && MayArrive(cfg, s, signal)
    ensures QueueOk(cfg, s.(queue := s.queue + [signal]))
  {
    var s' := s.(queue := s.queue + [signal]);
    assert forall o :: s'.At(o) == s.At(o);
    assert forall i :: 0 <= i < |s.queue| ==> s.queue[i] in s.queue;
  }

  lemma QueuedKeepsSent(s: State, h: History, signal: Signal, sent: seq<Emission>)
    requires SentOk(s, h)
    requires sent == h.sent + if signal.Emitted? then [Emission(signal.id, signal.dp)] else []
    ensures SentOk(s.(queue := s.queue + [signal]), h.(sent := sent))
  {
    assert (s.queue + [signal])[..|s.queue|] == s.queue;
    assert sent[h.merged..] == h.sent[h.merged..] + sent[|h.sent|..];
  }

  lemma ArriveKeeps(cfg: Config, w: World, signal: Signal)
    requires Inv(cfg, w) && MayArrive(cfg, w.s, signal)
    ensures Inv(cfg, Next(cfg, w, Arrive(signal)))
  {
    hide Core, QueueOk, SentOk, Settled, MayArrive;
    var s := w.s;
    var w' := Next(cfg, w, Arrive(signal));
    var sent := w.h.sent + if signal.Emitted? then [Emission(signal.id, signal.dp)] else [];
    assert w'.s == s.(queue := s.queue + [signal]) && w'.h == w.h.(sent := sent);
    QueuedKeepsCore(cfg, s, w.h, signal, sent);
    QueuedKeepsQueue(cfg, s, signal);
    QueuedKeepsSent(s, w.h, signal, sent);
    assert !s.phase.Ended? by { ArrivesBeforeEnd(cfg, s, signal); }
    if s.phase.Waiting? { SettledStays(cfg, s, w'.s); }
  }

  lemma ArrivesBeforeEnd(cfg: Config, s: State, signal: Signal)
    requires MayArrive(cfg, s, signal)
    ensures !s.phase.Ended?
  {
  }

  lemma SettledStays(cfg: Config, s: State, s': State)
    requires PhaseOk(cfg, s) && s.phase.Waiting?
    requires s'.phase == s.phase && s'.session == s.session && s'.ops == s.ops && s'.deadlineHit == s.deadlineHit
    ensures PhaseOk(cfg, s')
  {
    hide Settled;
    forall op | op in cfg.operators ensures Settled(cfg, s', op, s'.phase.wake, s'.phase.available) {
      assert Settled(cfg, s, op, s.phase.wake, s.phase.available);
      SettledSame(cfg, s, s', op, s.phase.wake, s.phase.available);
    }
  }

  lemma StepKeepsInv(cfg: Config, w: World, step: Step)
    requires WellFormed(cfg) && Inv(cfg, w) && Enabled(cfg, w.s, step)
    ensures Inv(cfg, Next(cfg, w, step))
    ensures MarksGrow(w.s, Next(cfg, w, step).s)
  {
    hide Core, Settled, ConsumeQueue, NoteConsume, CancelRunning, NoteCancel;
    var w' := Next(cfg, w, step);
    match step
    case Tick(_) =>
      RephasedKeepsCore(cfg, w.s, w.h, w.s.phase, w'.s.now);
      assert forall o :: w'.s.At(o) == w.s.At(o);
      if w.s.phase.Waiting? { SettledStays(cfg, w.s, w'.s); }
    case Arrive(signal) => ArriveKeeps(cfg, w, signal);
    case PlanAndLaunch(available, times) => PassKeeps(cfg, w, available, times);
    case Consume(delays) =>
      ConsumeKeeps(cfg, w.s, w.h, delays);
      RephasedKeepsCore(cfg, ConsumeQueue(cfg, w.s, delays), w'.h, Top, w'.s.now);
    case Wake =>
      RephasedKeepsCore(cfg, w.s, w.h, Top, w.s.now);
      assert forall o :: w'.s.At(o) == w.s.At(o);
    case Quiesce =>
      RephasedKeepsCore(cfg, w.s, w.h, Ended, w.s.now);
      assert forall o :: w'.s.At(o) == w.s.At(o);
      IdleQueueEmpty(cfg, w.s);
    case HitDeadline(delays) =>
      ConsumeKeeps(cfg, w.s, w.h, delays);
      HitKeepsCore(cfg, ConsumeQueue(cfg, w.s, delays), w'.h);
    case Finish(delays) =>
      ConsumeKeeps(cfg, w.s, w.h, delays);
      FinishKeeps(cfg, ConsumeQueue(cfg, w.s, delays), NoteConsume(cfg, w.s, w.h, delays));
      CancelKeepsMarks(ConsumeQueue(cfg, w.s, delays));
  }

  lemma IdleQueueEmpty(cfg: Config, s: State)
    requires QueueOk(cfg, s)
    ensures s.queue != [] ==> s.AnyRunning()
  {
    if s.queue != [] {
      var o := s.queue[0].id;
      assert o in s.ops && s.ops[o].running.Some?;
    }
  }

  lemma HitKeepsCore(cfg: Config, s: State, h: History)
    requires Core(cfg, s, h)
    ensures Core(cfg, s.(deadlineHit := true, phase := Draining), h)
  {
    hide SliceOk;
    var s' := s.(deadlineHit := true, phase := Draining);
    forall o ensures OpInv(cfg, s', h, o) {
      assert OpInv(cfg, s, h, o);
      HitStays(cfg, o, SliceOf(s, h, o), h.views, s.deadlineHit);
      assert SliceOf(s', h, o) == SliceOf(s, h, o);
    }
  }

  lemma CancelKeepsMarks(s: State)
    ensures CancelRunning(s).session == s.session
  {
  }

  lemma FinishKeeps(cfg: Config, s: State, h: History)
    requires Core(cfg, s, h) && SentOk(s, h) && s.queue == [] && s.deadlineHit
    ensures Inv(cfg, World(CancelRunning(s), NoteCancel(s, h)))
  {
    CancelKeepsCore(cfg, s, h);
  }

  lemma StartInv(cfg: Config, seed: seq<DataPoint>, now: int)
    ensures Inv(cfg, StartWorld(cfg, seed, now))
  {
    EmptyTellsHistory();
    MergeTellsHistory(Session(map[], 0, map[]), [map[]], seed);
  }

  /** The invariant holds in every state of every run. */
  lemma {:induction false} RunKeepsInv(cfg: Config, seed: seq<DataPoint>, now: int, steps: seq<Step>, trace: seq<World>, n: nat)
    requires IsRun(cfg, seed, now, steps, trace) && n < |trace|
    ensures Inv(cfg, trace[n])
  {
    hide Inv, Next, Enabled;
    if n == 0 {
      StartInv(cfg, seed, now);
    } else {
      RunKeepsInv(cfg, seed, now, steps, trace, n - 1);
      assert StepsTo(cfg, trace[n - 1], steps[n - 1], trace[n]);
      StepKeepsInv(cfg, trace[n - 1], steps[n - 1]);
    }
  }
}
