/** Where a session's data comes from. */
module LiteLoopData {
  import opened Prelude
  import opened DataPoints
  import opened KeyedMerge
  import opened SessionState
  import opened LiteGraph
  import opened LiteLoop
  import opened LiteLoopSafety

  /** What a batch makes of a view depends on the view alone, not on stamps or revisions. */
  lemma {:induction false} MergeOfView(es: Entries, es': Entries, batch: seq<DataPoint>, rev: nat, rev': nat)
    requires ViewOf(es) == ViewOf(es')
    ensures ViewOf(MergeAll(es, batch, rev)) == ViewOf(MergeAll(es', batch, rev'))
  {
    if batch != [] {
      MergeOfView(es, es', batch[..|batch| - 1], rev, rev');
      MergeOneOfView(MergeAll(es, batch[..|batch| - 1], rev), MergeAll(es', batch[..|batch| - 1], rev'), batch[|batch| - 1], rev, rev');
    }
  }

  lemma MergeOneOfView(es: Entries, es': Entries, d: DataPoint, rev: nat, rev': nat)
    requires ViewOf(es) == ViewOf(es')
    ensures ViewOf(MergeOne(es, d, rev)) == ViewOf(MergeOne(es', d, rev'))
  {
    assert d.identity in ViewOf(es) <==> d.identity in es;
    assert d.identity in ViewOf(es') <==> d.identity in es';
    assert d.identity in es ==> es[d.identity].dp == ViewOf(es)[d.identity] == ViewOf(es')[d.identity] == es'[d.identity].dp;
    var a, b := ViewOf(MergeOne(es, d, rev)), ViewOf(MergeOne(es', d, rev'));
    forall k ensures At(a, k) == At(b, k) {
      assert At(ViewOf(es), k) == At(ViewOf(es'), k);
    }
    SameMap(a, b);
  }

  // ----- what each step does to the data and to the log -----

  /** Neither the data nor what was merged changes. */
  predicate SameData(w: World, w': World) {
    && ViewOf(w'.s.session.entries) == ViewOf(w.s.session.entries)
    && w'.h.merged == w.h.merged && w.h.sent <= w'.h.sent
  }

  /** Everything queued is merged. */
  predicate MergesQueue(w: World, w': World) {
    && w'.s.session.entries == MergeAll(w.s.session.entries, Points(Emissions(w.s.queue)), w.s.session.revision + 1)
    && w'.h.merged == |w.h.sent| && w'.h.sent == w.h.sent
  }

  lemma RecordKeepsData(cfg: Config, s: State, h: History, signal: Signal, delay: nat)
    ensures RecordSignal(cfg, s, signal, delay).session.entries == s.session.entries
    ensures NoteSignal(cfg, s, h, signal).sent == h.sent && NoteSignal(cfg, s, h, signal).merged == h.merged
  {
    hide Complete, NoteOutcome;
  }

  lemma {:induction false} RecordUpToKeepsData(cfg: Config, s: State, h: History, signals: seq<Signal>, delays: seq<nat>, n: nat)
    requires n <= |signals| == |delays|
    ensures RecordUpTo(cfg, s, signals, delays, n).session.entries == s.session.entries
    ensures var h' := NoteUpTo(cfg, s, h, signals, delays, n); h'.sent == h.sent && h'.merged == h.merged
  {
    hide RecordSignal, NoteSignal;
    if n > 0 {
      RecordUpToKeepsData(cfg, s, h, signals, delays, n - 1);
      RecordKeepsData(cfg, RecordUpTo(cfg, s, signals, delays, n - 1), NoteUpTo(cfg, s, h, signals, delays, n - 1), signals[n - 1], delays[n - 1]);
    }
  }

  lemma DrainMerges(cfg: Config, w: World, step: Step, delays: seq<nat>)
    requires Enabled(cfg, w.s, step) && (step == Consume(delays) || step == HitDeadline(delays) || step == Finish(delays))
    ensures MergesQueue(w, Next(cfg, w, step))
  {
    hide RecordUpTo, NoteUpTo, MergeAll;
    MergeQueuedFrame(w.s, w.h);
    MergeFrame(w.s.session, Points(Emissions(w.s.queue)));
    RecordUpToKeepsData(cfg, MergeQueued(w.s), NoteMerge(w.s, w.h), w.s.queue, delays, |w.s.queue|);
  }

  lemma PassKeepsData(cfg: Config, w: World, available: map<string, Class>, times: seq<int>)
    requires WellFormed(cfg) && Inv(cfg, w) && Enabled(cfg, w.s, PlanAndLaunch(available, times))
    ensures SameData(w, Next(cfg, w, PlanAndLaunch(available, times)))
  {
    hide Core, QueueOk, SentOk, LaunchUpTo, PlanUpTo, NotePlanUpTo, NoteLaunchUpTo, RunnableOk, Considered, ViewOf;
    PlanUpToKeeps(cfg, w.s, w.h, available, times, |times|);
    var (s1, plan) := PlanUpTo(cfg, w.s, available, times, |times|);
    PlannedRunnable(cfg, w.s, s1, plan, available);
    LaunchUpToKeeps(cfg, s1, NotePlanUpTo(cfg, w.s, w.h, available, times, |times|), plan.runnable, available, |plan.runnable|);
  }

  lemma QuietKeepsData(cfg: Config, w: World, step: Step)
    requires Enabled(cfg, w.s, step) && (step.Tick? || step.Arrive? || step.Wake? || step.Quiesce?)
    ensures SameData(w, Next(cfg, w, step))
  {
  }

  // ----- over every run -----

  /** The view is what one merge of the seed and of everything merged so far makes of nothing. */
  ghost predicate OneMerge(seed: seq<DataPoint>, w: World) {
    w.h.merged <= |w.h.sent|
    && ViewOf(w.s.session.entries) == ViewOf(MergeAll(map[], seed + Points(w.h.sent[..w.h.merged]), 1))
  }

  lemma StartsMerged(cfg: Config, seed: seq<DataPoint>, now: int)
    ensures OneMerge(seed, StartWorld(cfg, seed, now))
  {
    MergeFrame(Session(map[], 0, map[]), seed);
    assert seed + Points([]) == seed;
  }

  lemma SameDataMerged(seed: seq<DataPoint>, w: World, w': World)
    requires OneMerge(seed, w) && SameData(w, w')
    ensures OneMerge(seed, w')
  {
    assert w'.h.sent[..w'.h.merged] == w.h.sent[..w.h.merged];
  }

  lemma DrainMerged(seed: seq<DataPoint>, w: World, w': World)
    requires OneMerge(seed, w) && MergesQueue(w, w') && SentOk(w.s, w.h)
    ensures OneMerge(seed, w')
  {
    hide MergeAll, ViewOf, Covered;
    var old', new' := w.h.sent[..w.h.merged], Emissions(w.s.queue);
    var before, queued := seed + Points(old'), Points(new');
    assert w.h.sent == old' + new';
    assert w'.h.sent[..w'.h.merged] == w.h.sent;
    assert seed + Points(old' + new') == before + queued;
    MergeAppend(map[], before, queued, 1);
    MergeOfView(w.s.session.entries, MergeAll(map[], before, 1), queued, w.s.session.revision + 1, 1);
  }

  /**
   * In every state of every run, the session's data is one merge of the seed and of every emission merged so far, in
   * the order they were sent: nothing is lost, invented or altered, however the loop batched it.
   */
  lemma {:induction false} SessionIsOneMerge(cfg: Config, seed: seq<DataPoint>, now: int, steps: seq<Step>, trace: seq<World>, n: nat)
    requires IsRun(cfg, seed, now, steps, trace) && n < |trace|
    ensures OneMerge(seed, trace[n])
  {
    hide Next, Enabled, OneMerge, MergesQueue, SameData, Core, QueueOk, SentOk, PhaseOk;
    if n == 0 {
      StartsMerged(cfg, seed, now);
    } else {
      SessionIsOneMerge(cfg, seed, now, steps, trace, n - 1);
      RunKeepsInv(cfg, seed, now, steps, trace, n - 1);
      var w, step := trace[n - 1], steps[n - 1];
      assert StepsTo(cfg, w, step, trace[n]);
      if step.PlanAndLaunch? {
        PassKeepsData(cfg, w, step.available, step.times);
        SameDataMerged(seed, w, trace[n]);
      } else if step.Consume? || step.HitDeadline? || step.Finish? {
        DrainMerges(cfg, w, step, step.delays);
        DrainMerged(seed, w, trace[n]);
      } else {
        QuietKeepsData(cfg, w, step);
        SameDataMerged(seed, w, trace[n]);
      }
    }
  }
}
