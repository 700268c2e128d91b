/** The keyed merge shared by the lite session state and the DataPoint stores. */
module KeyedMerge {
  import opened Prelude
  import opened DataPoints

  datatype Entry = Entry(dp: DataPoint, addedRev: nat, updatedRev: nat)

  type Entries = map<Identity, Entry>

  ghost predicate Keyed(es: Entries) {
    forall k :: k in es ==> es[k].dp.identity == k
  }

  /** Stamps never exceed the revision and an entry is never freshened before it is added. */
  ghost predicate StampsUpTo(es: Entries, revision: nat) {
    forall k :: k in es ==> es[k].addedRev <= es[k].updatedRev <= revision
  }

  /** One observation: insert a new identity, freshen a known one iff it is newer. */
  function MergeOne(es: Entries, d: DataPoint, rev: nat): Entries {
    var k := d.identity;
    if k !in es then es[k := Entry(d, rev, rev)]
    else if d.lastRetrieved > es[k].dp.lastRetrieved then
      es[k := Entry(es[k].dp.Reobserved(d.lastRetrieved), es[k].addedRev, rev)]
    else es
  }

  function MergeAll(es: Entries, batch: seq<DataPoint>, rev: nat): Entries {
    if batch == [] then es
    else MergeOne(MergeAll(es, batch[..|batch| - 1], rev), batch[|batch| - 1], rev)
  }

  function ViewOf(es: Entries): View {
    map k | k in es :: es[k].dp
  }

  /** The observation is already reflected: merging it changes nothing. */
  predicate Covered(es: Entries, d: DataPoint) {
    d.identity in es && d.lastRetrieved <= es[d.identity].dp.lastRetrieved
  }

  /** The first observation of `k` in the batch. */
  function FirstOf(batch: seq<DataPoint>, k: Identity): Option<DataPoint> {
    if batch == [] then None
    else if batch[0].identity == k then Some(batch[0])
    else FirstOf(batch[1..], k)
  }

  /** The latest time `k` was seen, in the batch or before it. */
  function Latest(batch: seq<DataPoint>, k: Identity, before: int): int {
    if batch == [] then before
    else
      var d := batch[|batch| - 1];
      var earlier := Latest(batch[..|batch| - 1], k, before);
      if d.identity == k then Max(earlier, d.lastRetrieved) else earlier
  }

  lemma {:induction false} LatestIsMaximum(batch: seq<DataPoint>, k: Identity, before: int)
    ensures before <= Latest(batch, k, before)
    ensures forall d :: d in batch && d.identity == k ==> d.lastRetrieved <= Latest(batch, k, before)
    ensures Latest(batch, k, before) == before
         || exists d :: d in batch && d.identity == k && d.lastRetrieved == Latest(batch, k, before)
  {
    if batch != [] {
      var init, d := batch[..|batch| - 1], batch[|batch| - 1];
      LatestIsMaximum(init, k, before);
      assert batch == init + [d] && d in batch;
    }
  }

  lemma FirstOfAppend(batch: seq<DataPoint>, d: DataPoint, k: Identity)
    ensures FirstOf(batch + [d], k) ==
            if FirstOf(batch, k).Some? then FirstOf(batch, k) else if d.identity == k then Some(d) else None
    ensures FirstOf(batch, k).Some? <==> exists e :: e in batch && e.identity == k
  {
    if batch != [] {
      FirstOfAppend(batch[1..], d, k);
      assert (batch + [d])[1..] == batch[1..] + [d];
      assert forall e :: e in batch <==> e == batch[0] || e in batch[1..];
    }
  }

  /**
   * What a batch merge does to one identity, in one clause per case: an untouched one stays; a known one
   * keeps its first observation and its add stamp and takes the latest time; a new one is its first
   * observation advanced to the latest time, with both stamps at this revision.
   */
  ghost predicate MergedTo(es: Entries, batch: seq<DataPoint>, rev: nat, k: Identity, m: Entries) {
    if k in es then
      && k in m && m[k].addedRev == es[k].addedRev
      && m[k].dp == es[k].dp.(lastRetrieved := Latest(batch, k, es[k].dp.lastRetrieved))
      && m[k].updatedRev == if m[k].dp == es[k].dp then es[k].updatedRev else rev
    else match FirstOf(batch, k)
      case None => k !in m
      case Some(first) =>
        && k in m && m[k].addedRev == m[k].updatedRev == rev
        && m[k].dp == first.(lastRetrieved := Latest(batch, k, first.lastRetrieved))
  }

  lemma {:induction false} MergeMeaning(es: Entries, batch: seq<DataPoint>, rev: nat, k: Identity)
    ensures MergedTo(es, batch, rev, k, MergeAll(es, batch, rev))
  {
    if batch != [] {
      var init, d := batch[..|batch| - 1], batch[|batch| - 1];
      assert batch == init + [d];
      MergeMeaning(es, init, rev, k);
      FirstOfAppend(init, d, k);
      if k in es {
        LatestIsMaximum(init, k, es[k].dp.lastRetrieved);
      } else if FirstOf(init, k).None? {
        LatestWithout(init, k, d.lastRetrieved);
      }
    }
  }

  lemma {:induction false} LatestWithout(batch: seq<DataPoint>, k: Identity, before: int)
    requires FirstOf(batch, k).None?
    ensures Latest(batch, k, before) == before
  {
    FirstOfAppend(batch, DataPoint(k, "", 0, 0), k);
    LatestIsMaximum(batch, k, before);
  }

  lemma {:induction false} MergeKeepsKeyed(es: Entries, batch: seq<DataPoint>, rev: nat)
    requires Keyed(es)
    ensures Keyed(MergeAll(es, batch, rev))
  {
    if batch != [] { MergeKeepsKeyed(es, batch[..|batch| - 1], rev); }
  }

  lemma {:induction false} MergeKeepsStamps(es: Entries, batch: seq<DataPoint>, rev: nat)
    requires StampsUpTo(es, rev)
    ensures StampsUpTo(MergeAll(es, batch, rev), rev)
  {
    if batch != [] { MergeKeepsStamps(es, batch[..|batch| - 1], rev); }
  }

  /** Coverage is never lost: data, once merged, stays merged. */
  lemma {:induction false} CoveredStays(es: Entries, batch: seq<DataPoint>, rev: nat, d: DataPoint)
    requires Covered(es, d)
    ensures Covered(MergeAll(es, batch, rev), d)
  {
    if batch != [] { CoveredStays(es, batch[..|batch| - 1], rev, d); }
  }

  lemma {:induction false} MergeCovers(es: Entries, batch: seq<DataPoint>, rev: nat, d: DataPoint)
    requires d in batch
    ensures Covered(MergeAll(es, batch, rev), d)
  {
    var init := batch[..|batch| - 1];
    assert batch == init + [batch[|batch| - 1]];
    if d in init { MergeCovers(es, init, rev, d); }
  }

  /** A merge is a no-op exactly when everything in the batch is already covered. */
  lemma {:induction false} NoOpIffCovered(es: Entries, batch: seq<DataPoint>, rev: nat)
    ensures MergeAll(es, batch, rev) == es <==> forall d :: d in batch ==> Covered(es, d)
  {
    if MergeAll(es, batch, rev) == es {
      forall d | d in batch ensures Covered(es, d) { MergeCovers(es, batch, rev, d); }
    }
    if forall d :: d in batch ==> Covered(es, d) {
      AllCoveredNoOp(es, batch, rev);
    }
  }

  lemma {:induction false} AllCoveredNoOp(es: Entries, batch: seq<DataPoint>, rev: nat)
    requires forall d :: d in batch ==> Covered(es, d)
    ensures MergeAll(es, batch, rev) == es
  {
    if batch != [] {
      AllCoveredNoOp(es, batch[..|batch| - 1], rev);
      assert batch[|batch| - 1] in batch;
    }
  }

  lemma {:induction false} MergeAppend(es: Entries, a: seq<DataPoint>, b: seq<DataPoint>, rev: nat)
    ensures MergeAll(es, a + b, rev) == MergeAll(MergeAll(es, a, rev), b, rev)
  {
    if b == [] {
      assert a + b == a;
    } else {
      MergeAppend(es, a, b[..|b| - 1], rev);
      assert (a + b)[..|a + b| - 1] == a + b[..|b| - 1];
    }
  }
}
