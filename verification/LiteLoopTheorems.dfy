/** What every run of the lite gathering loop guarantees. */
module LiteLoopTheorems {
  import opened Prelude
  import opened DataPoints
  import opened KeyedMerge
  import opened SessionState
  import opened LiteGraph
  import opened LiteLoop
  import opened LiteLoopSafety

  /**
   * Delta exactness, in every state of every run: for an operator that has run, the delta it would be given
   * is the difference between the current view and the view of its last watermark-advancing run, so nothing
   * merged since, and in particular nothing merged while it ran, is lost; and each run in flight was given
   * exactly such a delta.
   */
  lemma DeltaExactness(cfg: Config, seed: seq<DataPoint>, now: int, steps: seq<Step>, trace: seq<World>, n: nat,
                       o: string, available: map<string, Class>)
    requires IsRun(cfg, seed, now, steps, trace) && n < |trace|
    ensures var s, t := trace[n].s, trace[n].h.At(o);
      && (o in s.session.watermarks ==>
            var delta, view := OpDelta(s, o, available), ViewOf(s.session.entries);
            && delta.added == (map k | k in view && k !in t.seen :: view[k])
            && delta.updated == (map k | k in view && k in t.seen && t.seen[k].lastRetrieved < view[k].lastRetrieved :: view[k])
            && t.seen + delta.added + delta.updated == view)
      && (s.At(o).running.Some? ==> DeltaOk(s.At(o).running.value, o in s.session.watermarks, t.seen))
  {
    hide Next, Enabled;
    RunKeepsInv(cfg, seed, now, steps, trace, n);
    var s, h := trace[n].s, trace[n].h;
    assert OpInv(cfg, s, h, o);
    if o in s.session.watermarks {
      DeltaIsExact(s.session, h.views, o, s.At(o).prevCaps, available.Keys);
    }
  }

  /**
   * What a retry is told, in every state of every run: all the data its failed run was given, each observation as
   * it was or seen again later, and beyond it just the data that came since that run's view; of the capabilities,
   * only ones the failed run did not have, so what was news to the failed run is not told again.
   */
  lemma RetryDelta(cfg: Config, seed: seq<DataPoint>, now: int, steps: seq<Step>, trace: seq<World>, n: nat,
                   o: string, available: map<string, Class>)
    requires IsRun(cfg, seed, now, steps, trace) && n < |trace| && trace[n].s.At(o).armed.Some?
    ensures var s, t := trace[n].s, trace[n].h.At(o);
      var failed, retry, view := t.told, OpDelta(s, o, available), ViewOf(s.session.entries);
      && (forall k :: k in failed.added ==> k in retry.added && AsFresh(failed.added[k], retry.added[k]))
      && (forall k :: k in failed.updated ==> k in retry.updated && AsFresh(failed.updated[k], retry.updated[k]))
      && (forall k :: k in retry.added && k !in failed.added ==> k !in t.given)
      && (forall k :: k in retry.updated && k !in failed.updated ==> k in t.given && t.given[k].lastRetrieved < view[k].lastRetrieved)
      && retry.newCaps == available.Keys - s.At(o).prevCaps && failed.newCaps <= s.At(o).prevCaps
      && retry.newCaps * failed.newCaps == {}
  {
    hide Next, Enabled;
    RunKeepsInv(cfg, seed, now, steps, trace, n);
    var s, h := trace[n].s, trace[n].h;
    assert OpInv(cfg, s, h, o);
    DeltaExactness(cfg, seed, now, steps, trace, n, o, available);
    ViewsOnlyFreshen(s.session, h.views, h.At(o).observed);
    if o in s.session.watermarks { ViewsGrow(s.session, h.views, s.session.watermarks[o], h.At(o).observed); }
    RetryTold(cfg, s, h, o, available);
  }

  /** The same observation, perhaps seen again later. */
  predicate AsFresh(before: DataPoint, after: DataPoint) {
    before.lastRetrieved <= after.lastRetrieved && after == before.(lastRetrieved := after.lastRetrieved)
  }

  lemma ViewsOnlyFreshen(session: Session, views: seq<View>, r: nat)
    requires TellsHistory(session, views) && r < |views|
    ensures forall k :: k in views[r] ==> k in session.entries && AsFresh(views[r][k], session.entries[k].dp)
  {
    assert AgreesAt(session.entries, views[r], r);
  }

  lemma ViewsGrow(session: Session, views: seq<View>, r: nat, q: nat)
    requires TellsHistory(session, views) && r <= q < |views|
    ensures forall k :: k in views[r] ==> k in views[q]
  {
    assert AgreesAt(session.entries, views[r], r) && AgreesAt(session.entries, views[q], q);
  }

  lemma RetryTold(cfg: Config, s: State, h: History, o: string, available: map<string, Class>)
    requires OpInv(cfg, s, h, o) && s.At(o).armed.Some?
    requires forall k :: k in h.At(o).given ==> k in s.session.entries && AsFresh(h.At(o).given[k], s.session.entries[k].dp)
    requires var delta, view, seen := OpDelta(s, o, available), ViewOf(s.session.entries), h.At(o).seen;
      o in s.session.watermarks ==>
        && (forall k :: k in seen ==> k in h.At(o).given)
        && delta.added == (map k | k in view && k !in seen :: view[k])
        && delta.updated == (map k | k in view && k in seen && seen[k].lastRetrieved < view[k].lastRetrieved :: view[k])
    ensures var t, view := h.At(o), ViewOf(s.session.entries);
      var failed, retry := t.told, OpDelta(s, o, available);
      && (forall k :: k in failed.added ==> k in retry.added && AsFresh(failed.added[k], retry.added[k]))
      && (forall k :: k in failed.updated ==> k in retry.updated && AsFresh(failed.updated[k], retry.updated[k]))
      && (forall k :: k in retry.added && k !in failed.added ==> k !in t.given)
      && (forall k :: k in retry.updated && k !in failed.updated ==> k in t.given && t.given[k].lastRetrieved < view[k].lastRetrieved)
      && retry.newCaps == available.Keys - s.At(o).prevCaps && failed.newCaps <= s.At(o).prevCaps
  {
    hide IsView, Tripped, HasOperator;
    var t := h.At(o);
    assert DeltaOk(Running(t.observed, t.given, t.told), o in s.session.watermarks, t.seen);
  }

  /** Watermarks never move back and are never forgotten, along any stretch of any run. */
  lemma {:induction false} WatermarksNeverMoveBack(cfg: Config, seed: seq<DataPoint>, now: int, steps: seq<Step>,
                                                   trace: seq<World>, m: nat, n: nat)
    requires IsRun(cfg, seed, now, steps, trace) && m <= n < |trace|
    ensures MarksGrow(trace[m].s, trace[n].s)
  {
    hide Next, Enabled, Inv;
    if m < n {
      WatermarksNeverMoveBack(cfg, seed, now, steps, trace, m, n - 1);
      RunKeepsInv(cfg, seed, now, steps, trace, n - 1);
      assert StepsTo(cfg, trace[n - 1], steps[n - 1], trace[n]);
      StepKeepsInv(cfg, trace[n - 1], steps[n - 1]);
      assert forall o :: MarkLe(At(trace[m].s.session.watermarks, o), At(trace[n - 1].s.session.watermarks, o));
    }
  }

  /** Nothing left for an operator to do: no data or capability it has not acted on concerns it. */
  ghost predicate NothingNew(s: State, t: Track, op: Operator, available: map<string, Class>) {
    var view := ViewOf(s.session.entries);
    && op.id in s.session.watermarks
    && (op.policy.rerunOnNewData ==>
          && available.Keys <= s.At(op.id).prevCaps
          && forall k :: k in view && Triggers(op, k.kind) ==>
               k in t.seen && (op.policy.addedOnly || view[k].lastRetrieved <= t.seen[k].lastRetrieved))
  }

  /**
   * Quiescence is real: when the loop returns without hitting the deadline, nothing runs, no retry is armed,
   * the queue is empty, everything ever emitted has been merged, and each operator is tripped, not ready, or
   * has already acted on everything that concerns it.
   */
  lemma QuiescenceIsReal(cfg: Config, seed: seq<DataPoint>, now: int, steps: seq<Step>, trace: seq<World>, n: nat)
    requires IsRun(cfg, seed, now, steps, trace) && n < |steps| && steps[n].Quiesce?
    ensures var s, h := trace[n + 1].s, trace[n + 1].h;
      var available := trace[n].s.phase.available;
      && s.phase.Ended? && !s.AnyRunning() && s.queue == [] && !s.deadlineHit
      && (forall e :: e in h.sent ==> Covered(s.session.entries, e.dp))
      && forall op :: op in cfg.operators ==>
           var x := s.At(op.id);
           && x.armed.None? && x.retryAt.None? && x.running.None?
           && (Tripped(cfg, op.id, x.count) || !Ready(op, s.session.entries, available) || NothingNew(s, h.At(op.id), op, available))
  {
    hide Tripped, Ready;
    assert StepsTo(cfg, trace[n], steps[n], trace[n + 1]);
    RunKeepsInv(cfg, seed, now, steps, trace, n);
    var s, h := trace[n].s, trace[n].h;
    var s' := trace[n + 1].s;
    assert s' == s.(phase := Ended) && trace[n + 1].h == h;
    IdleQueueEmpty(cfg, s);
    forall e | e in h.sent ensures Covered(s.session.entries, e.dp) {
      assert h.sent[h.merged..] == [];
    }
    var available := s.phase.available;
    forall op | op in cfg.operators
      ensures s'.At(op.id).armed.None? && s'.At(op.id).retryAt.None? && s'.At(op.id).running.None?
      ensures || Tripped(cfg, op.id, s'.At(op.id).count)
              || !Ready(op, s'.session.entries, available)
              || NothingNew(s', h.At(op.id), op, available)
    {
      assert OpInv(cfg, s, h, op.id);
      assert s'.At(op.id) == s.At(op.id);
      assert Settled(cfg, s, op, None, available);
      NotRunning(s, op.id);
      if !Tripped(cfg, op.id, s.At(op.id).count) && Ready(op, s.session.entries, available) {
        IdleMeansNothingNew(s, h, op, available);
      }
    }
  }

  lemma NotRunning(s: State, o: string)
    requires !s.AnyRunning()
    ensures s.At(o).running.None?
  {
  }

  lemma IdleMeansNothingNew(s: State, h: History, op: Operator, available: map<string, Class>)
    requires Idle(s, op, available) && Ready(op, s.session.entries, available)
    requires TellsHistory(s.session, h.views) && MarkOk(SliceOf(s, h, op.id), h.views)
    ensures NothingNew(s, h.At(op.id), op, available)
  {
    hide Ready, Triggers;
    var delta, view, seen := OpDelta(s, op.id, available), ViewOf(s.session.entries), h.At(op.id).seen;
    DeltaIsExact(s.session, h.views, op.id, s.At(op.id).prevCaps, available.Keys);
    if op.policy.rerunOnNewData {
      assert delta.newCaps == available.Keys - s.At(op.id).prevCaps == {};
      assert available.Keys <= s.At(op.id).prevCaps + (available.Keys - s.At(op.id).prevCaps);
    }
    forall k | op.policy.rerunOnNewData && k in view && Triggers(op, k.kind)
      ensures k in seen && (op.policy.addedOnly || view[k].lastRetrieved <= seen[k].lastRetrieved)
    {
      assert k !in delta.added;
      assert op.policy.addedOnly || k !in delta.updated;
    }
  }

  /**
   * Launch conservation, in every state of every run: an operator's launches are its recorded completions
   * plus its cancellations plus the one run it may have in flight; a capped operator never launches more than
   * its cap; retries are armed exactly for the failures being retried; and no dictionary lookup ever misses.
   */
  lemma LaunchConservation(cfg: Config, seed: seq<DataPoint>, now: int, steps: seq<Step>, trace: seq<World>, n: nat, o: string)
    requires IsRun(cfg, seed, now, steps, trace) && n < |trace|
    ensures var s, x, t := trace[n].s, trace[n].s.At(o), trace[n].h.At(o);
      && !s.crashed
      && t.launches == x.runs + t.cancelled + (if x.running.Some? then 1 else 0)
      && t.cancelled <= (if s.deadlineHit then 1 else 0)
      && (s.phase.Ended? ==> t.launches == x.runs + t.cancelled)
      && (o in cfg.caps && t.launches > 0 ==> t.launches <= cfg.caps[o])
      && (x.armed.Some? <==> x.retryAt.Some?) && (x.armed.Some? ==> x.running.None?)
  {
    hide Next, Enabled;
    RunKeepsInv(cfg, seed, now, steps, trace, n);
    assert OpInv(cfg, trace[n].s, trace[n].h, o);
    if trace[n].s.phase.Ended? { NotRunning(trace[n].s, o); }
  }
}
