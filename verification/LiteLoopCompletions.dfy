/** What becomes of an operator when its run ends, in every run. */
module LiteLoopCompletions {
  import opened Prelude
  import opened DataPoints
  import opened KeyedMerge
  import opened SessionState
  import opened LiteGraph
  import opened LiteLoop
  import opened LiteLoopSafety

  /** The operator's retry policy allows another attempt, and its circuit breaker another run. */
  ghost predicate TriesAgain(cfg: Config, o: string, failures: nat, runs: nat) {
    && (exists op :: op in cfg.operators && op.id == o && op.policy.maxAttempts.Some? && failures < op.policy.maxAttempts.value)
    && (o in cfg.caps ==> runs < cfg.caps[o])
  }

  /**
   * From entries `x` to `y` and watermark `before` to `after`: a success or a last failure moves the watermark to
   * what the run observed; a failure to be retried arms the retry for `due` and keeps the watermark; a run cut at
   * the deadline counts for nothing.
   */
  ghost predicate Recorded(cfg: Config, o: string, x: Op, y: Op, before: Option<nat>, after: Option<nat>,
                           error: Option<string>, cut: bool, due: int)
    requires x.running.Some?
  {
    var observed, failures, counted := x.running.value.observed, x.failed + 1, x.(running := None, runs := x.runs + 1, count := x.count + 1);
    if cut then
      y == x.(running := None, failure := Some("cancelled: the session deadline passed while the operator was running")) && after == before
    else if error.None? then y == counted.(failed := 0) && after == Some(observed)
    else if TriesAgain(cfg, o, failures, x.count + 1) then
      y == counted.(failed := failures, retryAt := Some(due), armed := Some(Armed(error.value, observed, failures))) && after == before
    else y == counted.(failed := 0, failure := error) && after == Some(observed)
  }

  lemma {:induction false} BudgetIs(operators: seq<Operator>, o: string, failures: nat)
    requires forall i, j :: 0 <= i < j < |operators| ==> operators[i].id != operators[j].id
    ensures var budget := RetryBudget(operators, o);
      budget.Some? && failures < budget.value <==>
        exists op :: op in operators && op.id == o && op.policy.maxAttempts.Some? && failures < op.policy.maxAttempts.value
  {
    if operators != [] {
      var rest := operators[1..];
      assert operators == [operators[0]] + rest;
      BudgetIs(rest, o, failures);
      if operators[0].id == o {
        forall op | op in rest ensures op.id != o {
          var i :| 0 <= i < |rest| && rest[i] == op;
          assert operators[i + 1] == op;
        }
      }
    }
  }

  lemma CompletionIs(cfg: Config, s: State, o: string, error: Option<string>, cut: bool, delay: nat)
    requires WellFormed(cfg) && s.At(o).running.Some?
    ensures var s' := RecordCompletion(cfg, s, o, error, cut, delay);
      Recorded(cfg, o, s.At(o), s'.At(o), At(s.session.watermarks, o), At(s'.session.watermarks, o), error, cut, s.now + delay)
  {
    BudgetIs(cfg.operators, o, s.At(o).failed + 1);
    hide RetryBudget;
  }

  lemma OthersKept(cfg: Config, s: State, signal: Signal, delay: nat, o: string)
    requires signal.Completed? ==> signal.id != o
    ensures var s' := RecordSignal(cfg, s, signal, delay);
      s'.At(o) == s.At(o) && At(s'.session.watermarks, o) == At(s.session.watermarks, o) && s'.now == s.now
  {
    hide Complete;
  }

  lemma NowKept(cfg: Config, s: State, signal: Signal, delay: nat)
    ensures RecordSignal(cfg, s, signal, delay).now == s.now
  {
    hide Complete;
  }

  /** The queue's completions, one at most for each operator, each recorded at the clock reading of the drain. */
  lemma {:induction false} RecordedUpTo(cfg: Config, s: State, signals: seq<Signal>, delays: seq<nat>, n: nat, o: string)
    requires WellFormed(cfg) && n <= |signals| == |delays|
    requires forall i, j :: 0 <= i < j < |signals| && signals[i].Completed? ==> signals[i].id != signals[j].id
    requires forall i :: 0 <= i < |signals| ==> s.At(signals[i].id).running.Some?
    ensures var s' := RecordUpTo(cfg, s, signals, delays, n);
      var before, after := At(s.session.watermarks, o), At(s'.session.watermarks, o);
      && s'.now == s.now
      && ((forall i :: 0 <= i < n && signals[i].Completed? ==> signals[i].id != o) ==> s'.At(o) == s.At(o) && after == before)
      && (forall i :: 0 <= i < n && signals[i].Completed? && signals[i].id == o ==>
            Recorded(cfg, o, s.At(o), s'.At(o), before, after, signals[i].error, signals[i].cutByDeadline, s.now + delays[i]))
  {
    hide Recorded, RecordCompletion;
    if n > 0 {
      RecordedUpTo(cfg, s, signals, delays, n - 1, o);
      var s1, last := RecordUpTo(cfg, s, signals, delays, n - 1), signals[n - 1];
      NowKept(cfg, s1, last, delays[n - 1]);
      if last.Completed? && last.id == o {
        assert s1.At(o) == s.At(o);
        CompletionIs(cfg, s1, o, last.error, last.cutByDeadline, delays[n - 1]);
      } else {
        OthersKept(cfg, s1, last, delays[n - 1], o);
      }
    }
  }

  predicate Drains(step: Step, delays: seq<nat>) {
    step == Consume(delays) || step == HitDeadline(delays)
  }

  /**
   * In every run, every drain of the queue: each completion in it is recorded as its result demands, and operators
   * without one keep their entries and watermarks.
   */
  lemma CompletionsAreExact(cfg: Config, seed: seq<DataPoint>, now: int, steps: seq<Step>, trace: seq<World>, i: nat,
                            delays: seq<nat>, o: string)
    requires IsRun(cfg, seed, now, steps, trace) && i < |steps| && Drains(steps[i], delays)
    ensures var s, s' := trace[i].s, trace[i + 1].s;
      var before, after := At(s.session.watermarks, o), At(s'.session.watermarks, o);
      && |delays| == |s.queue| && s'.queue == []
      && ((forall q :: q in s.queue && q.Completed? ==> q.id != o) ==> s'.At(o) == s.At(o) && after == before)
      && (forall k :: 0 <= k < |s.queue| && s.queue[k].Completed? && s.queue[k].id == o ==>
            && s.At(o).running.Some?
            && Recorded(cfg, o, s.At(o), s'.At(o), before, after, s.queue[k].error, s.queue[k].cutByDeadline, s.now + delays[k]))
  {
    hide RecordUpTo, Core, SentOk, MergeQueued, Recorded;
    assert StepsTo(cfg, trace[i], steps[i], trace[i + 1]);
    RunKeepsInv(cfg, seed, now, steps, trace, i);
    var s := trace[i].s;
    var m := MergeQueued(s);
    MergeQueuedKeeps(s);
    RecordedUpTo(cfg, m, s.queue, delays, |s.queue|, o);
    var r, s' := RecordUpTo(cfg, m, s.queue, delays, |s.queue|), trace[i + 1].s;
    assert s'.session == r.session && s'.ops == r.ops;
    if forall q :: q in s.queue && q.Completed? ==> q.id != o {
      forall k | 0 <= k < |s.queue| && s.queue[k].Completed? ensures s.queue[k].id != o { assert s.queue[k] in s.queue; }
    }
  }

  /** In every run, what is still running once the loop has been left and the last signals are in is reported cancelled. */
  lemma CutAtTheDeadline(cfg: Config, seed: seq<DataPoint>, now: int, steps: seq<Step>, trace: seq<World>, i: nat,
                         delays: seq<nat>, o: string)
    requires IsRun(cfg, seed, now, steps, trace) && i < |steps| && steps[i] == Finish(delays)
    ensures var s, s' := trace[i].s, trace[i + 1].s;
      && |delays| == |s.queue| && s'.phase.Ended? && s'.At(o).running.None?
      && ((forall q :: q in s.queue && q.Completed? ==> q.id != o) ==>
            s'.At(o) == if s.At(o).running.None? then s.At(o)
                        else s.At(o).(running := None, failure := Some("cancelled: the session deadline passed while the operator was running")))
  {
    hide RecordUpTo, Core, SentOk, MergeQueued, Recorded;
    assert StepsTo(cfg, trace[i], steps[i], trace[i + 1]);
    RunKeepsInv(cfg, seed, now, steps, trace, i);
    var s := trace[i].s;
    MergeQueuedKeeps(s);
    RecordedUpTo(cfg, MergeQueued(s), s.queue, delays, |s.queue|, o);
    if forall q :: q in s.queue && q.Completed? ==> q.id != o {
      forall k | 0 <= k < |s.queue| && s.queue[k].Completed? ensures s.queue[k].id != o { assert s.queue[k] in s.queue; }
    }
  }

  lemma MergeQueuedKeeps(s: State)
    ensures var m := MergeQueued(s); m.ops == s.ops && m.now == s.now && m.session.watermarks == s.session.watermarks
  {
    hide MergeAll;
  }
}
