/**
 * How often an operator can launch: retry budgets, new data and new capabilities, counted over whole runs. Each
 * launch is paid for, and each step of the machine keeps the account.
 */
module LiteLoopBounds {
  import opened Prelude
  import opened DataPoints
  import opened KeyedMerge
  import opened SessionState
  import opened LiteGraph
  import opened LiteLoop
  import opened LiteLoopSafety

  // ----- counting emissions -----

  predicate Concerns(op: Operator, e: Emission) {
    Triggers(op, e.dp.identity.kind)
  }

  /** How many of the emissions are of a type that triggers `op`. */
  function RelevantSent(op: Operator, sent: seq<Emission>): nat {
    if sent == [] then 0
    else RelevantSent(op, sent[..|sent| - 1]) + if Concerns(op, sent[|sent| - 1]) then 1 else 0
  }

  function SentBy(id: string, sent: seq<Emission>): nat {
    if sent == [] then 0
    else SentBy(id, sent[..|sent| - 1]) + if sent[|sent| - 1].id == id then 1 else 0
  }

  lemma {:induction false} RelevantSentGrows(op: Operator, sent: seq<Emission>, m: nat)
    requires m <= |sent|
    ensures RelevantSent(op, sent[..m]) <= RelevantSent(op, sent)
    ensures (exists i :: m <= i < |sent| && Concerns(op, sent[i])) ==> RelevantSent(op, sent[..m]) < RelevantSent(op, sent)
  {
    if m < |sent| {
      var init := sent[..|sent| - 1];
      assert init[..m] == sent[..m];
      RelevantSentGrows(op, init, m);
    } else {
      assert sent[..m] == sent;
    }
  }

  // ----- one operator's launches -----

  /** How many attempts one data-driven launch can turn into. */
  function Attempts(cfg: Config, o: string): nat {
    var budget := RetryBudget(cfg.operators, o);
    if budget.Some? && budget.value > 1 then budget.value else 1
  }

  /** Some entry of a triggering type was added or freshened after the operator's last launch looked. */
  ghost predicate HasNews(es: Entries, op: Operator, observed: nat) {
    exists k :: k in es && es[k].updatedRev > observed && Triggers(op, k.kind)
  }

  /** Every launch beyond the first of an attempt sequence is paid for by the retry budget. */
  ghost predicate RetriesPaid(cfg: Config, o: string, x: Slice) {
    var a, current := Attempts(cfg, o), x.op.failed + (if x.op.running.Some? then 1 else 0);
    if x.op.running.Some? || x.op.armed.Some? then
      x.t.starts > 0 && current <= a && x.t.launches <= a * (x.t.starts - 1) + current
    else x.t.launches <= a * x.t.starts
  }

  /**
   * Every data-driven launch is paid for by an emission, a new capability, or being the first; an operator that does
   * not rerun on new data has only the first.
   */
  ghost predicate StartsPaid(es: Entries, op: Operator, x: Slice, paid: nat) {
    && (x.t.launches == 0 ==> x.t.starts == 0)
    && (!op.policy.rerunOnNewData ==> x.t.starts <= 1)
    && (x.t.launches > 0 ==>
          x.t.starts + (if HasNews(es, op, x.t.observed) then 1 else 0) <= 1 + paid + |x.op.prevCaps|)
  }

  /** `cur` is what the last pass had available. */
  ghost predicate Paid(cfg: Config, s: State, h: History, cur: set<string>) {
    && (forall o :: RetriesPaid(cfg, o, SliceOf(s, h, o)) && s.At(o).prevCaps <= cur)
    && (forall op :: op in cfg.operators ==>
          h.merged <= |h.sent| && StartsPaid(s.session.entries, op, SliceOf(s, h, op.id), RelevantSent(op, h.sent[..h.merged])))
  }

  lemma CompletePaid(cfg: Config, o: string, x: Slice, views: seq<View>, error: Option<string>, due: int)
    requires SliceOk(cfg, o, x, views, false) && RetriesPaid(cfg, o, x) && x.op.running.Some?
    ensures var outcome := Complete(cfg, o, x.op, error, false, due);
      RetriesPaid(cfg, o, Slice(outcome.op, x.mark, NoteOutcome(x.t, outcome.advances, false)))
  {
    hide HasOperator, DeltaOk, IsView, Tripped;
    var a := Attempts(cfg, o);
    assert a * x.t.starts == a * (x.t.starts - 1) + a;
  }

  lemma RecordPaid(cfg: Config, s: State, h: History, signal: Signal, delay: nat, cur: set<string>)
    requires Core(cfg, s, h) && !s.deadlineHit && Paid(cfg, s, h, cur)
    requires signal.Completed? ==> s.At(signal.id).running.Some? && !signal.cutByDeadline
    ensures Paid(cfg, RecordSignal(cfg, s, signal, delay), NoteSignal(cfg, s, h, signal), cur)
    ensures forall o :: s.At(o).runs <= RecordSignal(cfg, s, signal, delay).At(o).runs
    ensures signal.Completed? ==> s.At(signal.id).runs < RecordSignal(cfg, s, signal, delay).At(signal.id).runs
  {
    hide SliceOk, RecordSignal, NoteSignal, RetriesPaid, HasNews, WillRetry;
    var s', h' := RecordSignal(cfg, s, signal, delay), NoteSignal(cfg, s, h, signal);
    RecordFrame(cfg, s, h, signal, delay);
    forall o
      ensures RetriesPaid(cfg, o, SliceOf(s', h', o)) && s'.At(o).prevCaps == s.At(o).prevCaps
      ensures h'.At(o).launches == h.At(o).launches && h'.At(o).starts == h.At(o).starts && h'.At(o).observed == h.At(o).observed
      ensures s.At(o).runs <= s'.At(o).runs && (signal.Completed? && o == signal.id ==> s.At(o).runs < s'.At(o).runs)
    {
      assert OpInv(cfg, s, h, o) && RetriesPaid(cfg, o, SliceOf(s, h, o));
      RecordSlice(cfg, s, h, signal, delay, o);
      var x' := SliceOf(s', h', o);
      if signal.Completed? && o == signal.id {
        CompletePaid(cfg, o, SliceOf(s, h, o), h.views, signal.error, s.now + delay);
        MarkIrrelevant(cfg, o, Slice(x'.op, At(s.session.watermarks, o), x'.t), x'.mark);
      }
    }
    forall op | op in cfg.operators
      ensures StartsPaid(s'.session.entries, op, SliceOf(s', h', op.id), RelevantSent(op, h'.sent[..h'.merged]))
    {
      assert StartsPaid(s.session.entries, op, SliceOf(s, h, op.id), RelevantSent(op, h.sent[..h.merged]));
    }
  }

  lemma MarkIrrelevant(cfg: Config, o: string, x: Slice, mark: Option<nat>)
    requires RetriesPaid(cfg, o, x)
    ensures RetriesPaid(cfg, o, x.(mark := mark))
  {
  }

  lemma {:induction false} RecordUpToPaid(cfg: Config, s: State, h: History, signals: seq<Signal>, delays: seq<nat>, n: nat, cur: set<string>)
    requires n <= |signals| == |delays|
    requires Core(cfg, s, h) && RestRunning(s, signals, 0) && !s.deadlineHit && Paid(cfg, s, h, cur)
    requires forall i, j :: 0 <= i < j < |signals| && signals[i].Completed? ==> signals[i].id != signals[j].id
    requires forall i :: 0 <= i < |signals| && signals[i].Completed? ==> !signals[i].cutByDeadline
    ensures var s', h' := RecordUpTo(cfg, s, signals, delays, n), NoteUpTo(cfg, s, h, signals, delays, n);
      && Paid(cfg, s', h', cur) && !s'.deadlineHit
      && (forall o :: s.At(o).runs <= s'.At(o).runs)
      && (forall i :: 0 <= i < n && signals[i].Completed? ==> s.At(signals[i].id).runs < s'.At(signals[i].id).runs)
  {
    hide Core, Paid, RecordSignal, NoteSignal;
    if n > 0 {
      RecordUpToPaid(cfg, s, h, signals, delays, n - 1, cur);
      RecordUpToKeepsCore(cfg, s, h, signals, delays, n - 1);
      RecordUpToKeepsCore(cfg, s, h, signals, delays, n);
      RecordPaid(cfg, RecordUpTo(cfg, s, signals, delays, n - 1), NoteUpTo(cfg, s, h, signals, delays, n - 1),
                 signals[n - 1], delays[n - 1], cur);
    }
  }

  /** A merge gives an operator news only if the batch held an emission that concerns it. */
  lemma NewsComesFromBatch(es: Entries, batch: seq<DataPoint>, rev: nat, op: Operator, observed: nat)
    requires HasNews(MergeAll(es, batch, rev), op, observed) && !HasNews(es, op, observed)
    ensures exists d :: d in batch && Triggers(op, d.identity.kind)
  {
    var m := MergeAll(es, batch, rev);
    var k :| k in m && m[k].updatedRev > observed && Triggers(op, k.kind);
    MergeMeaning(es, batch, rev, k);
    FirstOfAppend(batch, DataPoint(k, "", 0, 0), k);
    if k in es {
      assert es[k].updatedRev <= observed;
      LatestIsMaximum(batch, k, es[k].dp.lastRetrieved);
    }
    assert exists d :: d in batch && d.identity == k;
  }

  lemma EmissionAt(signals: seq<Signal>, d: DataPoint) returns (i: nat)
    requires d in Points(Emissions(signals))
    ensures i < |Emissions(signals)| && Emissions(signals)[i].dp == d
  {
    i :| 0 <= i < |Points(Emissions(signals))| && Points(Emissions(signals))[i] == d;
  }

  lemma MergePaid(cfg: Config, s: State, h: History, cur: set<string>)
    requires SentOk(s, h) && Paid(cfg, s, h, cur)
    ensures Paid(cfg, MergeQueued(s), NoteMerge(s, h), cur)
  {
    hide RetriesPaid, HasNews, Concerns;
    var s', h', batch := MergeQueued(s), NoteMerge(s, h), Points(Emissions(s.queue));
    MergeFrame(s.session, batch);
    assert forall o :: s'.At(o) == s.At(o) && h'.At(o) == h.At(o);
    assert h'.sent[..h'.merged] == h.sent;
    forall o ensures RetriesPaid(cfg, o, SliceOf(s', h', o)) {
      assert RetriesPaid(cfg, o, SliceOf(s, h, o));
      assert SliceOf(s', h', o) == SliceOf(s, h, o);
    }
    forall op | op in cfg.operators
      ensures StartsPaid(s'.session.entries, op, SliceOf(s', h', op.id), RelevantSent(op, h'.sent[..h'.merged]))
    {
      var observed := h.At(op.id).observed;
      assert StartsPaid(s.session.entries, op, SliceOf(s, h, op.id), RelevantSent(op, h.sent[..h.merged]));
      RelevantSentGrows(op, h.sent, h.merged);
      if HasNews(s'.session.entries, op, observed) && !HasNews(s.session.entries, op, observed) {
        NewsConcerns(s, h, op, observed);
      }
    }
  }

  lemma NewsConcerns(s: State, h: History, op: Operator, observed: nat)
    requires SentOk(s, h)
    requires HasNews(MergeQueued(s).session.entries, op, observed) && !HasNews(s.session.entries, op, observed)
    ensures exists i :: h.merged <= i < |h.sent| && Concerns(op, h.sent[i])
  {
    var batch := Points(Emissions(s.queue));
    MergeFrame(s.session, batch);
    NewsComesFromBatch(s.session.entries, batch, s.session.revision + 1, op, observed);
    var d :| d in batch && Triggers(op, d.identity.kind);
    var i := EmissionAt(s.queue, d);
    assert h.sent[h.merged..][i] == h.sent[h.merged + i];
    assert Concerns(op, h.sent[h.merged + i]);
  }

  /** Draining the queue pays for what it triggers, and records at least one signal if there was one. */
  lemma ConsumePaid(cfg: Config, s: State, h: History, delays: seq<nat>, cur: set<string>)
    requires Core(cfg, s, h) && QueueOk(cfg, s) && SentOk(s, h) && |delays| == |s.queue|
    requires cfg.deadline.None? && !s.deadlineHit && Paid(cfg, s, h, cur)
    ensures var s', h' := ConsumeQueue(cfg, s, delays), NoteConsume(cfg, s, h, delays);
      && Paid(cfg, s', h', cur)
      && (forall o :: s.At(o).runs <= s'.At(o).runs)
      && (s.queue != [] ==> h.merged < h'.merged || exists i :: 0 <= i < |s.queue| && s.At(s.queue[i].id).runs < s'.At(s.queue[i].id).runs)
  {
    hide Core, Paid;
    MergeKeepsCore(cfg, s, h);
    MergePaid(cfg, s, h, cur);
    var m, g := MergeQueued(s), NoteMerge(s, h);
    assert forall o :: m.At(o) == s.At(o);
    assert m.queue == s.queue && m.deadlineHit == s.deadlineHit;
    RecordUpToPaid(cfg, m, g, s.queue, delays, |s.queue|, cur);
    RecordUpToKeepsCore(cfg, m, g, s.queue, delays, |s.queue|);
    var r, h' := RecordUpTo(cfg, m, s.queue, delays, |s.queue|), NoteConsume(cfg, s, h, delays);
    assert forall o :: r.At(o) == r.(queue := []).At(o);
    EmptiedPaid(cfg, r, h', cur);
    if s.queue != [] && s.queue[0].Emitted? {
      EmittedShows(s.queue);
      assert |h.sent[h.merged..]| == |h.sent| - h.merged;
    }
  }

  lemma {:induction false} EmittedShows(signals: seq<Signal>)
    requires signals != [] && signals[0].Emitted?
    ensures |Emissions(signals)| > 0
  {
    if |signals| > 1 { EmittedShows(signals[..|signals| - 1]); }
  }

  lemma EmptiedPaid(cfg: Config, s: State, h: History, cur: set<string>)
    requires Paid(cfg, s, h, cur)
    ensures Paid(cfg, s.(queue := []), h, cur)
  {
    hide RetriesPaid, StartsPaid;
    var s' := s.(queue := []);
    forall o ensures RetriesPaid(cfg, o, SliceOf(s', h, o)) && s'.At(o).prevCaps <= cur {
      assert RetriesPaid(cfg, o, SliceOf(s, h, o)) && SliceOf(s', h, o) == SliceOf(s, h, o);
    }
    forall op | op in cfg.operators
      ensures StartsPaid(s'.session.entries, op, SliceOf(s', h, op.id), RelevantSent(op, h.sent[..h.merged]))
    {
      assert StartsPaid(s.session.entries, op, SliceOf(s, h, op.id), RelevantSent(op, h.sent[..h.merged]));
      assert SliceOf(s', h, op.id) == SliceOf(s, h, op.id);
    }
  }

  // ----- planning and launching -----

  lemma PlanOnePaid(cfg: Config, s: State, h: History, plan: Plan, op: Operator, available: map<string, Class>, now: int, cur: set<string>)
    requires Core(cfg, s, h) && !s.deadlineHit && Paid(cfg, s, h, cur)
    ensures Paid(cfg, PlanOne(cfg, s, plan, op, available, now).0, NotePlan(cfg, s, h, op, available, now), cur)
  {
    hide SliceOk, PlanOne, NotePlan, RetriesPaid, HasNews;
    var s', h' := PlanOne(cfg, s, plan, op, available, now).0, NotePlan(cfg, s, h, op, available, now);
    PlanFrame(cfg, s, h, plan, op, available, now);
    forall o
      ensures RetriesPaid(cfg, o, SliceOf(s', h', o)) && s'.At(o).prevCaps == s.At(o).prevCaps
      ensures h'.At(o).launches == h.At(o).launches && h'.At(o).starts == h.At(o).starts && h'.At(o).observed == h.At(o).observed
    {
      assert OpInv(cfg, s, h, o) && RetriesPaid(cfg, o, SliceOf(s, h, o));
      if o == op.id {
        PlanSlicePaid(cfg, s, h, plan, op, available, now);
      } else {
        PlanOneLeavesOthers(cfg, s, h, plan, op, available, now, o);
      }
    }
    forall p | p in cfg.operators
      ensures StartsPaid(s'.session.entries, p, SliceOf(s', h', p.id), RelevantSent(p, h'.sent[..h'.merged]))
    {
      assert StartsPaid(s.session.entries, p, SliceOf(s, h, p.id), RelevantSent(p, h.sent[..h.merged]));
    }
  }

  lemma PlanSlicePaid(cfg: Config, s: State, h: History, plan: Plan, op: Operator, available: map<string, Class>, now: int)
    requires OpInv(cfg, s, h, op.id) && RetriesPaid(cfg, op.id, SliceOf(s, h, op.id))
    ensures var s', h' := PlanOne(cfg, s, plan, op, available, now).0, NotePlan(cfg, s, h, op, available, now);
      && RetriesPaid(cfg, op.id, SliceOf(s', h', op.id)) && s'.At(op.id).prevCaps == s.At(op.id).prevCaps
      && h'.At(op.id).launches == h.At(op.id).launches && h'.At(op.id).starts == h.At(op.id).starts
      && h'.At(op.id).observed == h.At(op.id).observed
  {
    hide Ready, Relevant, OpDelta, Tripped, Attempts;
    var x := SliceOf(s, h, op.id);
    ArmedIffRetry(cfg, op.id, x, h.views, s.deadlineHit);
    hide SliceOk;
    var a := Attempts(cfg, op.id);
    assert a * x.t.starts == a * (x.t.starts - 1) + a;
  }

  lemma {:induction false} PlanUpToPaid(cfg: Config, s: State, h: History, available: map<string, Class>, times: seq<int>, n: nat, cur: set<string>)
    requires WellFormed(cfg) && Core(cfg, s, h) && !s.deadlineHit && n <= |cfg.operators| == |times| && Paid(cfg, s, h, cur)
    ensures Paid(cfg, PlanUpTo(cfg, s, available, times, n).0, NotePlanUpTo(cfg, s, h, available, times, n), cur)
  {
    hide Core, Paid, PlanOne, NotePlan;
    if n > 0 {
      PlanUpToPaid(cfg, s, h, available, times, n - 1, cur);
      PlanUpToKeeps(cfg, s, h, available, times, n - 1);
      var (s1, plan) := PlanUpTo(cfg, s, available, times, n - 1);
      assert !s1.deadlineHit;
      PlanOnePaid(cfg, s1, NotePlanUpTo(cfg, s, h, available, times, n - 1), plan, cfg.operators[n - 1], available, times[n - 1], cur);
    }
  }

  /** A data-driven launch is warranted by news, by a new capability, or by being the first. */
  lemma LaunchStartsPaid(s: State, h: History, op: Operator, x: Slice, available: map<string, Class>, isRetry: bool, paid: nat, x': Slice)
    requires TellsHistory(s.session, h.views) && x == SliceOf(s, h, op.id) && MarkOk(x, h.views)
    requires x.op.running.None? && x.t.cancelled == 0 && x.op.prevCaps <= available.Keys
    requires isRetry <==> x.op.armed.Some?
    requires isRetry ==> x.t.launches > 0
    requires !isRetry && x.mark.Some? ==> op.policy.rerunOnNewData && Relevant(op, OpDelta(s, op.id, available))
    requires StartsPaid(s.session.entries, op, x, paid)
    requires x'.t.observed == s.session.revision && x'.t.launches == x.t.launches + 1 && x'.op.prevCaps == available.Keys
    requires x'.t.starts == x.t.starts + if isRetry then 0 else 1
    ensures StartsPaid(s.session.entries, op, x', paid)
  {
    hide Triggers;
    SmallerSet(x.op.prevCaps, available.Keys);
    assert !HasNews(s.session.entries, op, s.session.revision);
    if !isRetry && x.mark.Some? {
      var delta := OpDelta(s, op.id, available);
      if k :| k in delta.added && Triggers(op, k.kind) {
        assert HasNews(s.session.entries, op, x.t.observed);
      } else if k :| k in delta.updated && Triggers(op, k.kind) {
        assert HasNews(s.session.entries, op, x.t.observed);
      }
    }
  }

  lemma LaunchRetriesPaid(cfg: Config, o: string, x: Slice, views: seq<View>, running: Running, isRetry: bool,
                          available: map<string, Class>, t': Track)
    requires SliceOk(cfg, o, x, views, false) && RetriesPaid(cfg, o, x) && x.op.running.None?
    requires isRetry <==> x.op.retryAt.Some?
    requires t'.launches == x.t.launches + 1 && t'.starts == x.t.starts + if isRetry then 0 else 1
    ensures RetriesPaid(cfg, o, Slice(LaunchOp(x.op, running, isRetry, available), x.mark, t'))
  {
    hide HasOperator, DeltaOk, IsView, Tripped;
  }

  lemma LaunchOnePaid(cfg: Config, s: State, h: History, r: Runnable, available: map<string, Class>)
    requires Core(cfg, s, h) && !s.deadlineHit && RunnableOk(cfg, s, r, available) && WellFormed(cfg)
    requires Paid(cfg, s, h, available.Keys)
    ensures Paid(cfg, LaunchOne(s, r, available), NoteLaunch(s, h, r), available.Keys)
  {
    hide SliceOk, RetriesPaid, StartsPaid, TellsHistory, OpDelta, Tripped, LaunchOp, Ready, Relevant;
    var s', h' := LaunchOne(s, r, available), NoteLaunch(s, h, r);
    var id, running := r.op.id, Running(s.session.revision, ViewOf(s.session.entries), r.delta);
    var x, x' := SliceOf(s, h, id), SliceOf(s', h', id);
    assert OpInv(cfg, s, h, id) && RetriesPaid(cfg, id, x) && s.At(id).prevCaps <= available.Keys;
    LaunchRetriesPaid(cfg, id, x, h.views, running, r.isRetry, available, h'.At(id));
    LaunchCaps(s, r, available);
    ArmedIffRetry(cfg, id, x, h.views, s.deadlineHit);
    NotCancelled(cfg, id, x, h.views);
    forall o ensures RetriesPaid(cfg, o, SliceOf(s', h', o)) && s'.At(o).prevCaps <= available.Keys {
      assert RetriesPaid(cfg, o, SliceOf(s, h, o)) && s.At(o).prevCaps <= available.Keys;
    }
    forall op | op in cfg.operators
      ensures StartsPaid(s'.session.entries, op, SliceOf(s', h', op.id), RelevantSent(op, h'.sent[..h'.merged]))
    {
      var paid := RelevantSent(op, h.sent[..h.merged]);
      assert StartsPaid(s.session.entries, op, SliceOf(s, h, op.id), paid);
      if op.id == id {
        SameOperator(cfg, op, r.op);
        LaunchStartsPaid(s, h, op, x, available, r.isRetry, paid, x');
      }
    }
  }

  lemma LaunchCaps(s: State, r: Runnable, available: map<string, Class>)
    ensures LaunchOne(s, r, available).At(r.op.id).prevCaps == available.Keys
  {
  }

  lemma NotCancelled(cfg: Config, o: string, x: Slice, views: seq<View>)
    requires SliceOk(cfg, o, x, views, false)
    ensures x.t.cancelled == 0 && MarkOk(x, views) && (x.op.armed.Some? ==> x.t.launches > 0)
  {
  }

  lemma SameOperator(cfg: Config, a: Operator, b: Operator)
    requires WellFormed(cfg) && a in cfg.operators && b in cfg.operators && a.id == b.id
    ensures a == b
  {
    var i :| 0 <= i < |cfg.operators| && cfg.operators[i] == a;
    var j :| 0 <= j < |cfg.operators| && cfg.operators[j] == b;
  }

  lemma {:induction false} LaunchUpToPaid(cfg: Config, s: State, h: History, runnable: seq<Runnable>, available: map<string, Class>, n: nat)
    requires Core(cfg, s, h) && !s.deadlineHit && n <= |runnable| && WellFormed(cfg)
    requires forall i :: 0 <= i < |runnable| ==> RunnableOk(cfg, s, runnable[i], available)
    requires forall i, j :: 0 <= i < j < |runnable| ==> runnable[i].op.id != runnable[j].op.id
    requires Paid(cfg, s, h, available.Keys)
    ensures Paid(cfg, LaunchUpTo(s, runnable, available, n), NoteLaunchUpTo(s, h, runnable, n), available.Keys)
  {
    hide Core, Paid, LaunchOne, NoteLaunch, Launched, RunnableOk;
    if n > 0 {
      LaunchUpToPaid(cfg, s, h, runnable, available, n - 1);
      LaunchUpToKeeps(cfg, s, h, runnable, available, n - 1);
      var s1, h1, r := LaunchUpTo(s, runnable, available, n - 1), NoteLaunchUpTo(s, h, runnable, n - 1), runnable[n - 1];
      LaunchedStanding(cfg, s, s1, runnable, available, n - 1);
      LaunchOnePaid(cfg, s1, h1, r, available);
      NoteLaunchSession(s, s1, h1, r);
    }
  }

  lemma LaunchedStanding(cfg: Config, s0: State, s: State, runnable: seq<Runnable>, available: map<string, Class>, n: nat)
    requires n < |runnable| && Launched(s0, s, runnable, n) && RunnableOk(cfg, s0, runnable[n], available)
    requires forall i, j :: 0 <= i < j < |runnable| ==> runnable[i].op.id != runnable[j].op.id
    ensures RunnableOk(cfg, s, runnable[n], available) && s.session == s0.session && s.deadlineHit == s0.deadlineHit
  {
    hide Ready, Relevant, Tripped;
    assert s.At(runnable[n].op.id) == s0.At(runnable[n].op.id);
  }

  lemma PaidGrows(cfg: Config, s: State, h: History, cur: set<string>, cur': set<string>)
    requires Paid(cfg, s, h, cur) && cur <= cur'
    ensures Paid(cfg, s, h, cur')
  {
    hide RetriesPaid, StartsPaid;
    forall o ensures RetriesPaid(cfg, o, SliceOf(s, h, o)) && s.At(o).prevCaps <= cur' {
      assert RetriesPaid(cfg, o, SliceOf(s, h, o)) && s.At(o).prevCaps <= cur;
    }
  }

  lemma PassPaid(cfg: Config, w: World, available: map<string, Class>, times: seq<int>, cur: set<string>)
    requires WellFormed(cfg) && Inv(cfg, w) && Enabled(cfg, w.s, PlanAndLaunch(available, times))
    requires Paid(cfg, w.s, w.h, cur) && cur <= available.Keys
    ensures Paid(cfg, Next(cfg, w, PlanAndLaunch(available, times)).s, Next(cfg, w, PlanAndLaunch(available, times)).h, available.Keys)
  {
    hide Core, PlanInv, Paid, LaunchUpTo, PlanUpTo, NotePlanUpTo, NoteLaunchUpTo;
    var s, h := w.s, w.h;
    PlanUpToKeeps(cfg, s, h, available, times, |times|);
    PlanUpToPaid(cfg, s, h, available, times, |times|, cur);
    var (s1, plan) := PlanUpTo(cfg, s, available, times, |times|);
    var h1 := NotePlanUpTo(cfg, s, h, available, times, |times|);
    PaidGrows(cfg, s1, h1, cur, available.Keys);
    PlannedRunnable(cfg, s, s1, plan, available);
    LaunchUpToPaid(cfg, s1, h1, plan.runnable, available, |plan.runnable|);
    var s2, h2 := LaunchUpTo(s1, plan.runnable, available, |plan.runnable|), NoteLaunchUpTo(s1, h1, plan.runnable, |plan.runnable|);
    var w' := Next(cfg, w, PlanAndLaunch(available, times));
    RephasedPaid(cfg, s2, h2, w'.s.phase, w'.s.now, available.Keys);
  }

  lemma RephasedPaid(cfg: Config, s: State, h: History, phase: Phase, now: int, cur: set<string>)
    requires Paid(cfg, s, h, cur)
    ensures Paid(cfg, s.(phase := phase, now := now), h, cur)
  {
    hide RetriesPaid, StartsPaid;
    var s' := s.(phase := phase, now := now);
    forall o ensures RetriesPaid(cfg, o, SliceOf(s', h, o)) && s'.At(o).prevCaps <= cur {
      assert RetriesPaid(cfg, o, SliceOf(s, h, o)) && SliceOf(s', h, o) == SliceOf(s, h, o);
    }
    forall op | op in cfg.operators
      ensures StartsPaid(s'.session.entries, op, SliceOf(s', h, op.id), RelevantSent(op, h.sent[..h.merged]))
    {
      assert StartsPaid(s.session.entries, op, SliceOf(s, h, op.id), RelevantSent(op, h.sent[..h.merged]));
      assert SliceOf(s', h, op.id) == SliceOf(s, h, op.id);
    }
  }

  lemma ArrivePaid(cfg: Config, s: State, h: History, signal: Signal, sent: seq<Emission>, cur: set<string>)
    requires Paid(cfg, s, h, cur) && h.sent <= sent && h.merged <= |h.sent|
    ensures Paid(cfg, s.(queue := s.queue + [signal]), h.(sent := sent), cur)
  {
    hide RetriesPaid, StartsPaid;
    var s', h' := s.(queue := s.queue + [signal]), h.(sent := sent);
    assert sent[..h.merged] == h.sent[..h.merged];
    forall o ensures RetriesPaid(cfg, o, SliceOf(s', h', o)) && s'.At(o).prevCaps <= cur {
      assert RetriesPaid(cfg, o, SliceOf(s, h, o)) && SliceOf(s', h', o) == SliceOf(s, h, o);
    }
    forall op | op in cfg.operators
      ensures StartsPaid(s'.session.entries, op, SliceOf(s', h', op.id), RelevantSent(op, h'.sent[..h.merged]))
    {
      assert StartsPaid(s.session.entries, op, SliceOf(s, h, op.id), RelevantSent(op, h.sent[..h.merged]));
      assert SliceOf(s', h', op.id) == SliceOf(s, h, op.id);
    }
  }

  lemma StartPaid(cfg: Config, seed: seq<DataPoint>, now: int)
    ensures Paid(cfg, StartWorld(cfg, seed, now).s, StartWorld(cfg, seed, now).h, {})
  {
  }
}
