/** What every run of the competing pods guarantees, and why the fence comes first. */
module FencedPodsTheorems {
  import opened Prelude
  import opened DataPoints
  import opened KeyedMerge
  import S = DataPointStore
  import opened DataPointStore
  import L = SessionLock
  import opened Mirror
  import opened FencedPods

  // ----- what every run guarantees -----

  lemma {:induction false} RunKeepsInv(steps: seq<Step>, trace: seq<World>, n: nat)
    requires IsRun(steps, trace) && n < |trace|
    ensures Inv(trace[n])
  {
    hide Next, Enabled;
    if n == 0 {
      StartInv();
    } else {
      RunKeepsInv(steps, trace, n - 1);
      assert StepsTo(trace[n - 1], steps[n - 1], trace[n]);
      StepKeepsInv(trace[n - 1], steps[n - 1]);
    }
  }

  lemma StartInv()
    ensures Inv(START)
  {
  }

  /**
   * In every run: minted epochs strictly increase, the epochs of accepted store operations never decrease,
   * and no pod is ever prevented from sending or delivering by anything but the fence.
   */
  lemma EpochsAreFenced(steps: seq<Step>, trace: seq<World>, n: nat, p: string, batch: seq<DataPoint>)
    requires IsRun(steps, trace) && n < |trace|
    ensures var w := trace[n];
      && (forall i, j :: 0 <= i < j < |w.minted| ==> w.minted[i] < w.minted[j])
      && (forall i, j :: 0 <= i < j < |w.accepted| ==> w.accepted[i] <= w.accepted[j])
      && (w.At(p).Live? ==> Enabled(w, Send(p, batch)))
      && (w.At(p).Sending? ==> Enabled(w, Deliver(p)))
  {
    hide Next;
    RunKeepsInv(steps, trace, n);
    assert PodOk(trace[n].At(p), trace[n].store, trace[n].lock.counter);
  }

  /**
   * In every run, every delivery: accepted, it lands exactly as a direct merge into what the store held at
   * that moment, and leaves the pod's mirror in step; rejected, it changes nothing in the store.
   */
  lemma DeliveriesAreExact(steps: seq<Step>, trace: seq<World>, n: nat, p: string)
    requires IsRun(steps, trace) && n < |steps| && steps[n] == Deliver(p)
    ensures var w, w' := trace[n], trace[n + 1];
      && w.At(p).Sending?
      && w'.store == Write(w.store, w.At(p).batch, w.At(p).epoch).0
      && (Accepts(w.store, w.At(p).epoch) ==> w'.At(p).Live? && InSync(w'.At(p).mirror, w'.store))
      && (!Accepts(w.store, w.At(p).epoch) ==> w'.store == w.store && w'.At(p).Idle?)
  {
    hide InSync, MergeAll, PutAdded, PutUpdated;
    RunKeepsInv(steps, trace, n);
    assert StepsTo(trace[n], steps[n], trace[n + 1]);
    if Accepts(trace[n].store, trace[n].At(p).epoch) { DeliverIsWrite(trace[n], p); }
  }

  /** In every run, while the fence stands at a pod's epoch, everything its mirror answers is what the store holds. */
  lemma ReadersAgree(steps: seq<Step>, trace: seq<World>, n: nat, p: string, since: nat)
    requires IsRun(steps, trace) && n < |trace|
    requires trace[n].At(p).Live? && trace[n].At(p).epoch == trace[n].store.maxEpoch
    ensures var m, st := trace[n].At(p).mirror, trace[n].store;
      && ViewOf(m.entries) == ViewOf(st.entries) && m.revision == st.revision
      && ChangeSetOf(m, since) ==
           if since >= m.rehydratedAt || since in m.baselines then Some(ChangeSetSince(st, since)) else None
  {
    hide Next, Enabled, InSync;
    RunKeepsInv(steps, trace, n);
    assert PodOk(trace[n].At(p), trace[n].store, trace[n].lock.counter);
    ReadsAgree(trace[n].At(p).mirror, trace[n].store, since);
  }

  predicate LockCall(step: Step, p: string) {
    step == Complete(p) || step == Release(p) || (step.Renew? && step.p == p)
  }

  /** In every run only the newest epoch completes the session, and a superseded pod never moves the lock. */
  lemma OnlyTheNewestActs(steps: seq<Step>, trace: seq<World>, n: nat, p: string)
    requires IsRun(steps, trace) && n < |steps| && !trace[n].At(p).Idle?
    ensures var w, w', epoch := trace[n], trace[n + 1], trace[n].At(p).epoch;
      && w.minted != []
      && (steps[n] == Complete(p) ==>
            w'.completed == if epoch == w.minted[|w.minted| - 1] then w.completed + [epoch] else w.completed)
      && (epoch != w.minted[|w.minted| - 1] && LockCall(steps[n], p) ==> w'.lock == w.lock)
  {
    hide InSync;
    RunKeepsInv(steps, trace, n);
    var w := trace[n];
    assert StepsTo(w, steps[n], trace[n + 1]);
    assert PodOk(w.At(p), w.store, w.lock.counter);
    EpochsPositive(steps, trace, n, p);
    if w.At(p).epoch < w.lock.counter {
      L.StaleHolderIsHarmless(w.lock, w.At(p).epoch, w.now, if steps[n].Renew? then steps[n].ttl else 0.0);
    }
  }

  /** No pod holds an epoch that was not minted. */
  lemma {:induction false} EpochsPositive(steps: seq<Step>, trace: seq<World>, n: nat, p: string)
    requires IsRun(steps, trace) && n < |trace| && !trace[n].At(p).Idle?
    ensures trace[n].At(p).epoch in trace[n].minted
  {
    hide InSync, Resolve;
    if n > 0 {
      var v, w := trace[n - 1], trace[n];
      assert StepsTo(v, steps[n - 1], w);
      if !v.At(p).Idle? { EpochsPositive(steps, trace, n - 1, p); }
      PodsOnlyByAcquire(v, steps[n - 1], p);
    }
  }

  lemma PodsOnlyByAcquire(w: World, step: Step, p: string)
    requires Enabled(w, step)
    ensures var w' := Next(w, step);
      && w.minted <= w'.minted
      && (!w'.At(p).Idle? ==>
            (!w.At(p).Idle? && w'.At(p).epoch == w.At(p).epoch) || w'.At(p).epoch in w'.minted)
  {
    hide InSync, Resolve, Primed, Mirror.Apply, ApplyResolved, ViewOf, Rehydrated;
  }

  // ----- why the fence has to come first -----

  /**
   * A mirror rehydrated for epoch `mine` at this store stays exact against every writer of a lower epoch that
   * the fence still admits.
   */
  ghost predicate SafeAgainstOlder(st: Store, mine: nat)
    requires S.Valid(st)
  {
    forall older: nat, theirs, batch :: older < mine && Accepts(st, older) ==>
      var between := Write(st, theirs, older).0;
      WriteThrough(Rehydrated(ViewOf(st.entries), st.revision), between, batch, mine).1 == Write(between, batch, mine).0
  }

  /**
   * The hypothesis is exact: rehydrating is safe if and only if the fence already stands at the pod's epoch.
   * Below it, an older writer is still admitted, and the mirror then overwrites an observation it never saw.
   */
  lemma FenceFirstIffSafe(st: Store, mine: nat, unseen: Identity)
    requires S.Valid(st) && unseen !in st.entries
    ensures SafeAgainstOlder(st, mine) <==> st.maxEpoch >= mine
  {
    if st.maxEpoch < mine {
      UnfencedRehydrateDiverges(st, st.maxEpoch, mine, unseen);
    }
  }

  lemma UnfencedRehydrateDiverges(st: Store, older: nat, mine: nat, unseen: Identity)
    requires S.Valid(st) && unseen !in st.entries && Accepts(st, older) && older < mine
    ensures !SafeAgainstOlder(st, mine)
  {
    var late, early := DataPoint(unseen, "", 0, 5), DataPoint(unseen, "", 0, 3);
    var m := Rehydrated(ViewOf(st.entries), st.revision);
    var between := Write(st, [late], older).0;
    MergeSingle(st.entries, late, st.revision + 1);
    assert between.entries == st.entries[unseen := Entry(late, st.revision + 1, st.revision + 1)];
    MergeSingle(between.entries, early, between.revision + 1);
    assert Write(between, [early], mine).0.entries == between.entries;
    assert [early][..0] == [];
    var r := Resolve(m.entries, [early]);
    assert r == ResolveOne(m.entries, Resolve(m.entries, []), early);
    assert r.added.Values() == [early] && r.updated.Values() == [];
    assert PutUpdated(PutAdded(between.entries, [early], between.revision + 1), [], between.revision + 1)[unseen].dp == early;
    assert WriteThrough(m, between, [early], mine).1.entries[unseen].dp == early;
  }

  lemma MergeSingle(es: Entries, d: DataPoint, rev: nat)
    ensures MergeAll(es, [d], rev) == MergeOne(es, d, rev)
  {
    assert [d][..0] == [];
    assert MergeAll(es, [], rev) == es;
  }
}
