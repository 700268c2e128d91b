/** How long a lease lasts, told by the run alone. */
module FencedPodsLeases {
  import opened Prelude
  import opened DataPointStore
  import L = SessionLock
  import opened Mirror
  import opened FencedPods
  import FencedPodsTheorems

  ghost predicate Grants(steps: seq<Step>, trace: seq<World>, j: nat)
    requires |trace| == |steps| + 1 && j < |steps|
  {
    steps[j].Acquire? && trace[j + 1].minted != trace[j].minted && trace[j + 1].minted != []
  }

  /** The pod of the step gives up an epoch. */
  predicate Releases(steps: seq<Step>, trace: seq<World>, k: nat, epoch: nat)
    requires |trace| == |steps| + 1 && k < |steps|
  {
    steps[k].Release? && !trace[k].At(steps[k].p).Idle? && trace[k].At(steps[k].p).epoch == epoch
  }

  /** The epoch a grant or a renewal is for. */
  ghost function OwnerOf(steps: seq<Step>, trace: seq<World>, j: nat): nat
    requires |trace| == |steps| + 1 && j < |steps|
  {
    if Grants(steps, trace, j) then trace[j + 1].minted[|trace[j + 1].minted| - 1]
    else if steps[j].Renew? && !trace[j].At(steps[j].p).Idle? then trace[j].At(steps[j].p).epoch
    else 0
  }

  /** When a lease started at step `j` ends, if it is left alone. */
  function EndOf(steps: seq<Step>, trace: seq<World>, j: nat): real
    requires |trace| == |steps| + 1 && j < |steps|
  {
    if steps[j].Acquire? || steps[j].Renew? then trace[j].now + steps[j].ttl else trace[j].now
  }

  /** A grant, or a renewal by the holder before the end. */
  ghost predicate Starts(steps: seq<Step>, trace: seq<World>, j: nat)
    requires |trace| == |steps| + 1 && j < |steps|
    decreases j, 2
  {
    || Grants(steps, trace, j)
    || (steps[j].Renew? && !trace[j].At(steps[j].p).Idle?
        && exists i :: 0 <= i < j && Runs(steps, trace, i, j) && OwnerOf(steps, trace, i) == trace[j].At(steps[j].p).epoch)
  }

  /** The last lease started before moment `m`, not released since. */
  ghost predicate Stands(steps: seq<Step>, trace: seq<World>, i: nat, m: nat)
    requires |trace| == |steps| + 1 && i < m <= |steps|
    decreases m, 0
  {
    && Starts(steps, trace, i)
    && forall k :: i < k < m ==> !Starts(steps, trace, k) && !Releases(steps, trace, k, OwnerOf(steps, trace, i))
  }

  ghost predicate Runs(steps: seq<Step>, trace: seq<World>, i: nat, m: nat)
    requires |trace| == |steps| + 1 && i < m <= |steps|
    decreases m, 1
  {
    Stands(steps, trace, i, m) && trace[m].now < EndOf(steps, trace, i)
  }

  /** The lock's lease is the lease that stands. */
  ghost predicate LeaseIs(steps: seq<Step>, trace: seq<World>, m: nat)
    requires |trace| == |steps| + 1 && m <= |steps|
  {
    && (forall i :: 0 <= i < m && Stands(steps, trace, i, m) ==>
          trace[m].lock.lease == Some(L.Lease(OwnerOf(steps, trace, i), EndOf(steps, trace, i))))
    && (trace[m].lock.lease.Some? ==> exists i :: 0 <= i < m && Stands(steps, trace, i, m))
  }

  /** What one step does to the lease, where the lease held before it is `(owner, end)`. */
  lemma LeaseStep(v: World, step: Step, w: World)
    requires Inv(v) && StepsTo(v, step, w)
    ensures var lease, p := v.lock.lease, if step.Tick? then "" else step.p;
      && (step.Acquire? && (lease.None? || lease.value.expiresAt <= v.now) ==>
            && w.lock.lease == Some(L.Lease(v.lock.counter + 1, v.now + step.ttl))
            && w.minted == v.minted + [v.lock.counter + 1] && w.At(p) == Holding(v.lock.counter + 1))
      && (step.Acquire? && lease.Some? && v.now < lease.value.expiresAt ==> w == v)
      && (step.Renew? ==>
            && !v.At(p).Idle?
            && w.lock.lease == if lease.Some? && lease.value.epoch == v.At(p).epoch && v.now < lease.value.expiresAt
                               then Some(L.Lease(v.At(p).epoch, v.now + step.ttl)) else lease)
      && (step.Release? ==>
            && !v.At(p).Idle?
            && w.lock.lease == if lease.Some? && lease.value.epoch == v.At(p).epoch then None else lease)
      && (!step.Acquire? && !step.Renew? && !step.Release? ==> w.lock.lease == lease)
      && (!step.Acquire? ==> w.minted == v.minted)
      && v.now <= w.now == v.now + if step.Tick? then step.elapsed else 0.0
  {
    hide Inv, ApplyResolved, Resolve, Mirror.Apply, Primed, Rehydrated, SetFingerprint, SetWatermark;
  }

  lemma {:induction false} LeaseStands(steps: seq<Step>, trace: seq<World>, m: nat)
    requires IsRun(steps, trace) && m <= |steps|
    ensures LeaseIs(steps, trace, m)
  {
    hide Inv, Next, Enabled, Starts, Stands, LeaseIs;
    if m == 0 {
      NoLeaseAtStart(steps, trace);
    } else {
      LeaseStands(steps, trace, m - 1);
      FencedPodsTheorems.RunKeepsInv(steps, trace, m - 1);
      assert StepsTo(trace[m - 1], steps[m - 1], trace[m]);
      LeaseNext(steps, trace, m - 1);
    }
  }

  lemma NoLeaseAtStart(steps: seq<Step>, trace: seq<World>)
    requires IsRun(steps, trace)
    ensures LeaseIs(steps, trace, 0)
  {
  }

  lemma LeaseNext(steps: seq<Step>, trace: seq<World>, m: nat)
    requires |trace| == |steps| + 1 && m < |steps| && LeaseIs(steps, trace, m)
    requires Inv(trace[m]) && StepsTo(trace[m], steps[m], trace[m + 1])
    ensures LeaseIs(steps, trace, m + 1)
  {
    LeaseStep(trace[m], steps[m], trace[m + 1]);
    if steps[m].Renew? { StartsIff(steps, trace, m); }
    NextStands(steps, trace, m);
    if !steps[m].Renew? { StartsByGrant(steps, trace, m); }
    hide Starts, Stands, StepsTo, Inv;
    var lease, lease' := trace[m].lock.lease, trace[m + 1].lock.lease;
    if Starts(steps, trace, m) {
      assert lease' == Some(L.Lease(OwnerOf(steps, trace, m), EndOf(steps, trace, m)));
    } else {
      forall i | 0 <= i < m && Stands(steps, trace, i, m + 1)
        ensures lease' == Some(L.Lease(OwnerOf(steps, trace, i), EndOf(steps, trace, i)))
      {
        assert Stands(steps, trace, i, m) && !Releases(steps, trace, m, OwnerOf(steps, trace, i));
      }
      if lease'.Some? {
        assert lease' == lease;
        var i :| 0 <= i < m && Stands(steps, trace, i, m);
        assert Stands(steps, trace, i, m + 1);
      }
    }
  }

  lemma StartsByGrant(steps: seq<Step>, trace: seq<World>, m: nat)
    requires |trace| == |steps| + 1 && m < |steps| && !steps[m].Renew?
    ensures Starts(steps, trace, m) <==> Grants(steps, trace, m)
  {
  }

  /** A step starts a lease exactly when it is a grant, or a renewal of the lease that stands, in time. */
  lemma StartsIff(steps: seq<Step>, trace: seq<World>, m: nat)
    requires |trace| == |steps| + 1 && m < |steps| && LeaseIs(steps, trace, m) && steps[m].Renew? && !trace[m].At(steps[m].p).Idle?
    ensures var lease := trace[m].lock.lease;
      Starts(steps, trace, m) <==> lease.Some? && lease.value.epoch == trace[m].At(steps[m].p).epoch && trace[m].now < lease.value.expiresAt
  {
    hide Stands, LeaseIs;
    if trace[m].lock.lease.Some? { var i := StandingLease(steps, trace, m); }
    if i :| 0 <= i < m && Runs(steps, trace, i, m) && OwnerOf(steps, trace, i) == trace[m].At(steps[m].p).epoch {
      RunningLease(steps, trace, i, m);
    }
  }

  /** One more step: it starts a lease, or those that stood still stand unless it releases them. */
  lemma NextStands(steps: seq<Step>, trace: seq<World>, m: nat)
    requires |trace| == |steps| + 1 && m < |steps|
    ensures Stands(steps, trace, m, m + 1) <==> Starts(steps, trace, m)
    ensures forall i :: 0 <= i < m ==>
      (Stands(steps, trace, i, m + 1) <==>
        Stands(steps, trace, i, m) && !Starts(steps, trace, m) && !Releases(steps, trace, m, OwnerOf(steps, trace, i)))
  {
    hide Starts, Releases;
    forall i | 0 <= i < m
      ensures Stands(steps, trace, i, m + 1) <==>
        Stands(steps, trace, i, m) && !Starts(steps, trace, m) && !Releases(steps, trace, m, OwnerOf(steps, trace, i))
    {
      var owner := OwnerOf(steps, trace, i);
      if Stands(steps, trace, i, m + 1) {
        assert !Starts(steps, trace, m) && !Releases(steps, trace, m, owner);
        assert forall k :: i < k < m ==> !Starts(steps, trace, k) && !Releases(steps, trace, k, owner);
      }
    }
  }

  // ----- what a lease is for -----

  /**
   * In every run, an acquire is refused exactly while a lease runs: one granted, or renewed in time by its holder, not
   * released and not yet at its end. Refused, it changes nothing; otherwise the pod gets the next epoch at once.
   */
  lemma AcquireIff(steps: seq<Step>, trace: seq<World>, m: nat)
    requires IsRun(steps, trace) && m < |steps| && steps[m].Acquire?
    ensures var v, w := trace[m], trace[m + 1];
      if exists i :: 0 <= i < m && Runs(steps, trace, i, m) then w == v
      else w.minted == v.minted + [v.lock.counter + 1] && w.At(steps[m].p) == Holding(v.lock.counter + 1)
  {
    hide Inv, Next, Enabled, Starts, Stands;
    LeaseStands(steps, trace, m);
    FencedPodsTheorems.RunKeepsInv(steps, trace, m);
    assert StepsTo(trace[m], steps[m], trace[m + 1]);
    LeaseStep(trace[m], steps[m], trace[m + 1]);
    RunsIff(steps, trace, m);
  }

  lemma RunsIff(steps: seq<Step>, trace: seq<World>, m: nat)
    requires |trace| == |steps| + 1 && m <= |steps| && LeaseIs(steps, trace, m)
    ensures var lease := trace[m].lock.lease;
      (exists i :: 0 <= i < m && Runs(steps, trace, i, m)) <==> lease.Some? && trace[m].now < lease.value.expiresAt
  {
    hide Starts, Stands, Runs, LeaseIs;
    var lease := trace[m].lock.lease;
    if i :| 0 <= i < m && Runs(steps, trace, i, m) { RunningLease(steps, trace, i, m); }
    if lease.Some? && trace[m].now < lease.value.expiresAt { var i := StandingLease(steps, trace, m); }
  }

  lemma RunningLease(steps: seq<Step>, trace: seq<World>, i: nat, m: nat)
    requires |trace| == |steps| + 1 && i < m <= |steps| && LeaseIs(steps, trace, m) && Runs(steps, trace, i, m)
    ensures trace[m].lock.lease == Some(L.Lease(OwnerOf(steps, trace, i), EndOf(steps, trace, i)))
    ensures trace[m].now < EndOf(steps, trace, i)
  {
    assert Stands(steps, trace, i, m);
  }

  lemma StandingLease(steps: seq<Step>, trace: seq<World>, m: nat) returns (i: nat)
    requires |trace| == |steps| + 1 && m <= |steps| && LeaseIs(steps, trace, m) && trace[m].lock.lease.Some?
    ensures i < m && Stands(steps, trace, i, m) && trace[m].lock.lease == Some(L.Lease(OwnerOf(steps, trace, i), EndOf(steps, trace, i)))
    ensures trace[m].now < trace[m].lock.lease.value.expiresAt ==> Runs(steps, trace, i, m)
  {
    hide Starts;
    i :| 0 <= i < m && Stands(steps, trace, i, m);
  }

  /** In every run, a renewal succeeds exactly when a lease of its own epoch runs, and then lasts from its own time. */
  lemma RenewIff(steps: seq<Step>, trace: seq<World>, m: nat)
    requires IsRun(steps, trace) && m < |steps| && steps[m].Renew?
    ensures !trace[m].At(steps[m].p).Idle?
    ensures var v, epoch := trace[m], trace[m].At(steps[m].p).epoch;
      && (L.Renew(v.lock, epoch, v.now, steps[m].ttl).1.Ok? <==>
            exists i :: 0 <= i < m && Runs(steps, trace, i, m) && OwnerOf(steps, trace, i) == epoch)
      && (L.Renew(v.lock, epoch, v.now, steps[m].ttl).1.Ok? <==> Stands(steps, trace, m, m + 1))
  {
    hide Inv, Next, Stands;
    LeaseStands(steps, trace, m);
    assert StepsTo(trace[m], steps[m], trace[m + 1]);
    StartsIff(steps, trace, m);
    NextStands(steps, trace, m);
  }

  /** The lease is not released in between, and a renewal of it never brings the end forward. */
  ghost predicate KeptBetween(steps: seq<Step>, trace: seq<World>, n: nat, m: nat)
    requires |trace| == |steps| + 1 && n < m <= |steps|
  {
    forall k :: n < k < m ==>
      && !Releases(steps, trace, k, OwnerOf(steps, trace, n))
      && (steps[k].Renew? && OwnerOf(steps, trace, k) == OwnerOf(steps, trace, n) ==> EndOf(steps, trace, n) <= EndOf(steps, trace, k))
  }

  ghost predicate SucceedsTo(steps: seq<Step>, trace: seq<World>, n: nat, i: nat)
    requires |trace| == |steps| + 1 && n <= i < |steps|
  {
    OwnerOf(steps, trace, i) == OwnerOf(steps, trace, n) && EndOf(steps, trace, n) <= EndOf(steps, trace, i)
  }

  /** In every run, before the end of a lease that is not released no further epoch is minted: its holder's lease runs. */
  lemma {:induction false} NoneMintedBefore(steps: seq<Step>, trace: seq<World>, n: nat, m: nat)
    requires IsRun(steps, trace) && n < m <= |steps| && Starts(steps, trace, n)
    requires KeptBetween(steps, trace, n, m) && trace[m].now < EndOf(steps, trace, n)
    ensures trace[m].minted == trace[n + 1].minted
    ensures exists i :: n <= i < m && Runs(steps, trace, i, m) && SucceedsTo(steps, trace, n, i)
  {
    hide Inv, Next, Enabled, Starts, Stands;
    NextStands(steps, trace, m - 1);
    if n == m - 1 {
      assert Runs(steps, trace, n, m);
    } else {
      FencedPodsTheorems.RunKeepsInv(steps, trace, m - 1);
      assert StepsTo(trace[m - 1], steps[m - 1], trace[m]);
      LeaseStep(trace[m - 1], steps[m - 1], trace[m]);
      NoneMintedBefore(steps, trace, n, m - 1);
      LeaseKept(steps, trace, n, m - 1);
    }
  }

  lemma LeaseKept(steps: seq<Step>, trace: seq<World>, n: nat, m: nat)
    requires IsRun(steps, trace) && n < m < |steps| && KeptBetween(steps, trace, n, m + 1) && trace[m + 1].now < EndOf(steps, trace, n)
    requires exists i :: n <= i < m && Runs(steps, trace, i, m) && SucceedsTo(steps, trace, n, i)
    ensures trace[m + 1].minted == trace[m].minted
    ensures exists i :: n <= i < m + 1 && Runs(steps, trace, i, m + 1) && SucceedsTo(steps, trace, n, i)
  {
    hide Inv, Next, Enabled, Starts, Stands;
    var i :| n <= i < m && Runs(steps, trace, i, m) && SucceedsTo(steps, trace, n, i);
    FencedPodsTheorems.RunKeepsInv(steps, trace, m);
    assert StepsTo(trace[m], steps[m], trace[m + 1]);
    LeaseStep(trace[m], steps[m], trace[m + 1]);
    LeaseStands(steps, trace, m);
    NextStands(steps, trace, m);
    if steps[m].Acquire? { AcquireIff(steps, trace, m); }
    if !steps[m].Renew? { StartsByGrant(steps, trace, m); }
    RunningLease(steps, trace, i, m);
    hide Runs, LeaseIs;
    if Starts(steps, trace, m) {
      StartsIff(steps, trace, m);
      assert OwnerOf(steps, trace, m) == OwnerOf(steps, trace, n);
      assert EndOf(steps, trace, n) <= EndOf(steps, trace, m) by {
        assert steps[m].Renew?;
        assert !Releases(steps, trace, m, OwnerOf(steps, trace, n));
      }
      assert SucceedsTo(steps, trace, n, m);
      NowRuns(steps, trace, m, m + 1);
    } else {
      NowRuns(steps, trace, i, m + 1);
    }
  }

  lemma NowRuns(steps: seq<Step>, trace: seq<World>, i: nat, m: nat)
    requires |trace| == |steps| + 1 && i < m <= |steps| && Stands(steps, trace, i, m) && trace[m].now < EndOf(steps, trace, i)
    ensures Runs(steps, trace, i, m)
  {
  }

  /** In every run the session reads as complete exactly when some completion was accepted. */
  lemma {:induction false} CompleteIff(steps: seq<Step>, trace: seq<World>, n: nat)
    requires IsRun(steps, trace) && n <= |steps|
    ensures trace[n].lock.complete <==> trace[n].completed != []
  {
    if n > 0 {
      CompleteIff(steps, trace, n - 1);
      assert StepsTo(trace[n - 1], steps[n - 1], trace[n]);
      CompleteStep(trace[n - 1], steps[n - 1], trace[n]);
    }
  }

  lemma CompleteStep(v: World, step: Step, w: World)
    requires StepsTo(v, step, w)
    ensures (w.lock.complete == v.lock.complete && w.completed == v.completed) || (w.lock.complete && w.completed != [])
  {
    hide ApplyResolved, Resolve, Mirror.Apply, Primed, Rehydrated, SetFingerprint, SetWatermark;
  }
}
