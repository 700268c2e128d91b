/** Which archive batches are taken, and under which numbers. */
module ArchiveFence {
  import opened Prelude
  import opened Archive
  import opened ArchiveFlush

  ghost predicate Highest(fence: nat, steps: seq<Step>, n: nat)
    requires n <= |steps|
  {
    && (forall k :: 0 <= k < n && steps[k].Allocate? ==> steps[k].batch != [] && steps[k].batch[0].epoch <= fence)
    && (fence == 0 || exists k :: 0 <= k < n && steps[k].Allocate? && steps[k].batch != [] && steps[k].batch[0].epoch == fence)
  }

  lemma {:induction false} FenceIsHighest(steps: seq<Step>, trace: seq<State>, n: nat)
    requires IsRun(steps, trace) && n <= |steps|
    ensures Highest(trace[n].maxEpoch, steps, n)
  {
    hide FoldIn, NextPage;
    if n > 0 {
      FenceIsHighest(steps, trace, n - 1);
      assert StepsTo(trace[n - 1], steps[n - 1], trace[n]);
    }
  }

  /**
   * In every run, a batch is refused, and nothing changes, exactly when an earlier batch was led by a higher epoch;
   * otherwise it gets the next numbers, one for each row and right after all given out before.
   */
  lemma AllocationIff(steps: seq<Step>, trace: seq<State>, n: nat)
    requires IsRun(steps, trace) && n < |steps| && steps[n].Allocate?
    ensures steps[n].batch != []
    ensures var s, s', batch := trace[n], trace[n + 1], steps[n].batch;
      if exists k :: 0 <= k < n && steps[k].Allocate? && steps[k].batch != [] && steps[k].batch[0].epoch > batch[0].epoch then s' == s
      else s' == s.(sequence := s.sequence + |batch|, maxEpoch := batch[0].epoch,
                    writers := s.writers[steps[n].w := Writer(s.sequence + 1, batch, 0)])
  {
    FenceIsHighest(steps, trace, n);
    assert StepsTo(trace[n], steps[n], trace[n + 1]);
  }
}
