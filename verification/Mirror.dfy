/** The mirror as a value: a cache that must agree with the store it writes through. */
module Mirror {
  import opened Prelude
  import opened DataPoints
  import opened KeyedMerge
  import opened DataPointStore

  datatype MergeKind = Added | Updated

  datatype MergeResult = MergeResult(kind: MergeKind, dp: DataPoint)

  /** A dict that keeps insertion order. */
  datatype Rows = Rows(order: seq<Identity>, values: View) {
    function Put(k: Identity, d: DataPoint): (rows: Rows)
      ensures Valid() && d.identity == k ==> rows.Valid()
    {
      Rows(if k in values then order else order + [k], values[k := d])
    }

    function Values(): seq<DataPoint>
      requires Valid()
    {
      seq(|order|, i requires 0 <= i < |order| => values[order[i]])
    }

    ghost predicate Valid() {
      && (forall k :: k in order <==> k in values)
      && (forall i, j :: 0 <= i < j < |order| ==> order[i] != order[j])
      && (forall k :: k in values ==> values[k].identity == k)
    }
  }

  const NO_ROWS := Rows([], map[])

  /** A batch resolved against the local copy, before it is durably applied. */
  datatype Resolution = Resolution(outcomes: seq<MergeResult>, added: Rows, updated: Rows) {
    ghost predicate Valid() {
      added.Valid() && updated.Valid()
    }
  }

  /** Local stamps: 0 stands for at or before rehydration. */
  datatype Local = Local(
    entries: Entries,
    baselines: map<nat, map<Identity, MergeKind>>,
    revision: nat,
    rehydratedAt: nat)

  function Rehydrated(view: View, revision: nat): Local {
    Local(map k | k in view :: Entry(view[k], 0, 0), map[], revision, revision)
  }

  function Baseline(change: ChangeSet): map<Identity, MergeKind> {
    (map k | k in change.added :: Added) + (map k | k in change.updated :: Updated)
  }

  function Primed(m: Local, st: Store, since: nat): Local {
    if since >= m.rehydratedAt || since in m.baselines then m
    else m.(baselines := m.baselines[since := Baseline(ChangeSetSince(st, since))])
  }

  function ResolveOne(local: Entries, r: Resolution, d: DataPoint): (r': Resolution)
    requires Keyed(local) && r.Valid()
    ensures r'.Valid()
  {
    var k := d.identity;
    if k in r.added.values then
      var merged := r.added.values[k].Reobserved(d.lastRetrieved);
      r.(outcomes := r.outcomes + [MergeResult(Updated, merged)], added := r.added.Put(k, merged))
    else if k in r.updated.values then
      var merged := r.updated.values[k].Reobserved(d.lastRetrieved);
      r.(outcomes := r.outcomes + [MergeResult(Updated, merged)], updated := r.updated.Put(k, merged))
    else if k !in local then r.(outcomes := r.outcomes + [MergeResult(Added, d)], added := r.added.Put(k, d))
    else
      var merged := local[k].dp.Reobserved(d.lastRetrieved);
      r.(outcomes := r.outcomes + [MergeResult(Updated, merged)],
         updated := if d.lastRetrieved > local[k].dp.lastRetrieved then r.updated.Put(k, merged) else r.updated)
  }

  function Resolve(local: Entries, batch: seq<DataPoint>): (r: Resolution)
    requires Keyed(local)
    ensures r.Valid()
  {
    if batch == [] then Resolution([], NO_ROWS, NO_ROWS)
    else ResolveOne(local, Resolve(local, batch[..|batch| - 1]), batch[|batch| - 1])
  }

  /** The local copy takes over the resolved rows at the revision the store returned. */
  function Apply(m: Local, r: Resolution, revision: nat): Local {
    m.(entries := map k | k in m.entries.Keys + r.added.values.Keys + r.updated.values.Keys ::
         if k in r.updated.values then
           Entry(r.updated.values[k], if k in r.added.values then revision else if k in m.entries then m.entries[k].addedRev else 0, revision)
         else if k in r.added.values then Entry(r.added.values[k], revision, revision)
         else m.entries[k],
       revision := revision)
  }

  function LocalChangeSet(m: Local, since: nat): ChangeSet {
    ChangeSet(map k | k in m.entries && m.entries[k].addedRev > since :: m.entries[k].dp,
              map k | k in m.entries && m.entries[k].addedRev <= since < m.entries[k].updatedRev :: m.entries[k].dp)
  }

  predicate BaselinedAdd(m: Local, baseline: map<Identity, MergeKind>, since: nat, k: Identity)
    requires k in m.entries
  {
    m.entries[k].addedRev > since || At(baseline, k) == Some(Added)
  }

  function BaselinedChangeSet(m: Local, since: nat): ChangeSet
    requires since in m.baselines
  {
    var b := m.baselines[since];
    ChangeSet(map k | k in m.entries && BaselinedAdd(m, b, since, k) :: m.entries[k].dp,
              map k | k in m.entries && !BaselinedAdd(m, b, since, k)
                      && (At(b, k) == Some(Updated) || m.entries[k].updatedRev > since) :: m.entries[k].dp)
  }

  /** `None` is the error for a revision that predates rehydration and was never primed. */
  function ChangeSetOf(m: Local, since: nat): Option<ChangeSet> {
    if since >= m.rehydratedAt then Some(LocalChangeSet(m, since))
    else if since in m.baselines then Some(BaselinedChangeSet(m, since))
    else None
  }

  /** What the store would be after the write, and the local copy: untouched when the write is fenced off. */
  function WriteThrough(m: Local, st: Store, batch: seq<DataPoint>, epoch: nat): (after: (Local, Store, Result<nat>))
    requires Keyed(m.entries)
    ensures Keyed(after.0.entries)
  {
    var r := Resolve(m.entries, batch);
    var (st', reply) := ApplyResolved(st, r.added.Values(), r.updated.Values(), epoch);
    match reply
    case StaleEpoch => (m, st', StaleEpoch)
    case Ok(revision) => (Apply(m, r, revision), st', Ok(revision))
  }

  // ----- agreement with the store -----

  /** A stamp as the local copy keeps it. */
  function LocalStamp(stamp: nat, rehydratedAt: nat): nat {
    if stamp > rehydratedAt then stamp else 0
  }

  /** The primed split still answers for every change up to rehydration, and never names a change that did not happen. */
  ghost predicate BaselineOk(b: map<Identity, MergeKind>, es: Entries, since: nat, rehydratedAt: nat) {
    forall k :: BaselineAt(At(b, k), At(es, k), since, rehydratedAt)
  }

  predicate BaselineAt(kind: Option<MergeKind>, e: Option<Entry>, since: nat, rehydratedAt: nat) {
    match e
    case None => kind.None?
    case Some(entry) =>
      && (kind == Some(Added) ==> entry.addedRev > since)
      && (kind == Some(Updated) ==> entry.addedRev <= since < entry.updatedRev)
      && (since < entry.addedRev <= rehydratedAt ==> kind == Some(Added))
      && (entry.addedRev <= since < entry.updatedRev <= rehydratedAt ==> kind == Some(Updated))
  }

  ghost predicate EntriesAgree(local: Entries, es: Entries, rehydratedAt: nat) {
    local.Keys == es.Keys && forall k :: k in es ==> EntryAgrees(local[k], es[k], rehydratedAt)
  }

  predicate EntryAgrees(local: Entry, e: Entry, rehydratedAt: nat) {
    local == Entry(e.dp, LocalStamp(e.addedRev, rehydratedAt), LocalStamp(e.updatedRev, rehydratedAt))
  }

  ghost predicate InSync(m: Local, st: Store) {
    && m.revision == st.revision && m.rehydratedAt <= m.revision
    && EntriesAgree(m.entries, st.entries, m.rehydratedAt)
    && forall since :: since in m.baselines ==> since < m.rehydratedAt && BaselineOk(m.baselines[since], st.entries, since, m.rehydratedAt)
  }

  lemma RehydrateSyncs(st: Store)
    requires Valid(st)
    ensures InSync(Rehydrated(ViewOf(st.entries), st.revision), st)
  {
  }

  lemma PrimeKeepsSync(m: Local, st: Store, since: nat)
    requires InSync(m, st) && Valid(st)
    ensures InSync(Primed(m, st, since), st)
  {
    var m' := Primed(m, st, since);
    if m' != m { PrimedOk(st.entries, st, since, m.rehydratedAt); }
  }

  lemma PrimedOk(es: Entries, st: Store, since: nat, rehydratedAt: nat)
    requires st.entries == es
    ensures BaselineOk(Baseline(ChangeSetSince(st, since)), es, since, rehydratedAt)
  {
    var change := ChangeSetSince(st, since);
    var b := Baseline(change);
    forall k ensures BaselineAt(At(b, k), At(es, k), since, rehydratedAt) {
      assert k in change.added <==> k in es && es[k].addedRev > since;
      assert k in change.updated <==> k in es && es[k].addedRev <= since < es[k].updatedRev;
      assert k in b <==> k in change.added || k in change.updated;
    }
  }

  /** Every read the mirror answers, it answers as the store would; it refuses only what it was not primed for. */
  lemma ReadsAgree(m: Local, st: Store, since: nat)
    requires Valid(st) && InSync(m, st)
    ensures ViewOf(m.entries) == ViewOf(st.entries) && m.revision == st.revision
    ensures ChangeSetOf(m, since) ==
      if since >= m.rehydratedAt || since in m.baselines then Some(ChangeSetSince(st, since)) else None
  {
    assert EntriesAgree(m.entries, st.entries, m.rehydratedAt);
    if since >= m.rehydratedAt {
      LocalAgrees(m, st, since);
    } else if since in m.baselines {
      assert BaselineOk(m.baselines[since], st.entries, since, m.rehydratedAt);
      BaselinedAgrees(m, st, since);
    }
  }

  lemma LocalAgrees(m: Local, st: Store, since: nat)
    requires EntriesAgree(m.entries, st.entries, m.rehydratedAt) && since >= m.rehydratedAt
    ensures LocalChangeSet(m, since) == ChangeSetSince(st, since)
  {
    var local, remote := LocalChangeSet(m, since), ChangeSetSince(st, since);
    forall k | k in st.entries
      ensures k in local.added <==> k in remote.added
      ensures k in local.updated <==> k in remote.updated
      ensures m.entries[k].dp == st.entries[k].dp
    {
      assert EntryAgrees(m.entries[k], st.entries[k], m.rehydratedAt);
    }
    assert local.added == remote.added && local.updated == remote.updated;
  }

  lemma BaselinedAgrees(m: Local, st: Store, since: nat)
    requires Valid(st) && EntriesAgree(m.entries, st.entries, m.rehydratedAt) && m.rehydratedAt <= st.revision
    requires since < m.rehydratedAt && since in m.baselines
    requires BaselineOk(m.baselines[since], st.entries, since, m.rehydratedAt)
    ensures BaselinedChangeSet(m, since) == ChangeSetSince(st, since)
  {
    hide BaselineOk, EntriesAgree, EntryAgrees, BaselinedAdd;
    var b, local, remote := m.baselines[since], BaselinedChangeSet(m, since), ChangeSetSince(st, since);
    assert m.entries.Keys == st.entries.Keys by { SyncSamePoints(m.entries, st.entries, m.rehydratedAt); }
    forall k | k in st.entries
      ensures BaselinedAdd(m, b, since, k) <==> st.entries[k].addedRev > since
      ensures !BaselinedAdd(m, b, since, k) && (At(b, k) == Some(Updated) || m.entries[k].updatedRev > since)
         <==> st.entries[k].addedRev <= since < st.entries[k].updatedRev
      ensures m.entries[k].dp == st.entries[k].dp
    {
      BaselinedAgreesAt(m, st, since, k);
    }
    assert local.added == remote.added;
    assert local.updated == remote.updated;
  }

  lemma BaselinedAgreesAt(m: Local, st: Store, since: nat, k: Identity)
    requires Valid(st) && EntriesAgree(m.entries, st.entries, m.rehydratedAt) && m.rehydratedAt <= st.revision
    requires since < m.rehydratedAt && since in m.baselines && k in st.entries
    requires BaselineOk(m.baselines[since], st.entries, since, m.rehydratedAt)
    ensures k in m.entries && m.entries[k].dp == st.entries[k].dp
    ensures var b, e := m.baselines[since], st.entries[k];
      && (BaselinedAdd(m, b, since, k) <==> e.addedRev > since)
      && (!BaselinedAdd(m, b, since, k) && (At(b, k) == Some(Updated) || m.entries[k].updatedRev > since)
          <==> e.addedRev <= since < e.updatedRev)
  {
    assert BaselineAt(At(m.baselines[since], k), At(st.entries, k), since, m.rehydratedAt);
    assert EntryAgrees(m.entries[k], st.entries[k], m.rehydratedAt);
  }

  // ----- resolving a batch is merging it -----

  /** The rows are the difference between the entries before and after the merge. */
  ghost predicate RowsTell(es: Entries, merged: Entries, r: Resolution) {
    && r.Valid()
    && forall k :: RowTells(At(es, k), At(merged, k), At(r.added.values, k), At(r.updated.values, k))
  }

  predicate RowTells(before: Option<Entry>, after: Option<Entry>, added: Option<DataPoint>, updated: Option<DataPoint>) {
    match before
    case None => updated.None? && added == (if after.Some? then Some(after.value.dp) else None)
    case Some(e) => added.None? && after.Some? && updated == (if after.value != e then Some(after.value.dp) else None)
  }

  /** Same DataPoints under the same identities, whatever the stamps. */
  ghost predicate SamePoints(local: Entries, es: Entries) {
    local.Keys == es.Keys && forall k :: k in es ==> local[k].dp == es[k].dp
  }

  /** The outcome of one observation carries the value the store holds right after it, and says whether it is new. */
  ghost predicate OutcomeIs(es: Entries, batch: seq<DataPoint>, rev: nat, i: nat, o: MergeResult)
    requires i < |batch|
  {
    var k, before, after := batch[i].identity, MergeAll(es, batch[..i], rev), MergeAll(es, batch[..i + 1], rev);
    k in after && o == MergeResult(if k in before then Updated else Added, after[k].dp)
  }

  /** Resolving a batch against the local copy finds exactly what merging it changes. */
  lemma {:induction false} ResolveIsMerge(local: Entries, es: Entries, batch: seq<DataPoint>, rev: nat)
    requires Keyed(local) && SamePoints(local, es) && forall k :: k in es ==> es[k].updatedRev < rev
    ensures var r := Resolve(local, batch);
      && RowsTell(es, MergeAll(es, batch, rev), r)
      && |r.outcomes| == |batch|
      && forall i :: 0 <= i < |batch| ==> OutcomeIs(es, batch, rev, i, r.outcomes[i])
  {
    hide RowsTell, RowTells, ResolveOne, MergeOne, OutcomeIs;
    if batch == [] {
      NothingResolved(local, es, rev);
    } else {
      var init, d := batch[..|batch| - 1], batch[|batch| - 1];
      ResolveIsMerge(local, es, init, rev);
      var r0, r := Resolve(local, init), Resolve(local, batch);
      ResolveStep(local, es, MergeAll(es, init, rev), r0, d, rev);
      assert batch[..|batch|] == batch;
      forall i | 0 <= i < |batch| ensures OutcomeIs(es, batch, rev, i, r.outcomes[i]) {
        if i < |init| {
          assert OutcomeIs(es, init, rev, i, r0.outcomes[i]);
          assert init[i] == batch[i] && init[..i] == batch[..i] && init[..i + 1] == batch[..i + 1];
          assert r.outcomes[i] == r0.outcomes[i];
          OutcomeStays(es, init, batch, rev, i, r.outcomes[i]);
        } else {
          LastOutcome(es, init, d, rev, r.outcomes[i]);
          assert init + [d] == batch;
        }
      }
    }
  }

  lemma NothingResolved(local: Entries, es: Entries, rev: nat)
    requires Keyed(local)
    ensures RowsTell(es, MergeAll(es, [], rev), Resolve(local, []))
  {
  }

  lemma OutcomeStays(es: Entries, init: seq<DataPoint>, batch: seq<DataPoint>, rev: nat, i: nat, o: MergeResult)
    requires i < |init| <= |batch| && init[i] == batch[i] && init[..i] == batch[..i] && init[..i + 1] == batch[..i + 1]
    requires OutcomeIs(es, init, rev, i, o)
    ensures OutcomeIs(es, batch, rev, i, o)
  {
  }

  lemma LastOutcome(es: Entries, init: seq<DataPoint>, d: DataPoint, rev: nat, o: MergeResult)
    requires var merged := MergeAll(es, init, rev);
      o == MergeResult(if d.identity in merged then Updated else Added, MergeOne(merged, d, rev)[d.identity].dp)
    ensures OutcomeIs(es, init + [d], rev, |init|, o)
  {
    assert (init + [d])[..|init|] == init && (init + [d])[..|init| + 1] == init + [d];
  }

  lemma RowsTellAt(es: Entries, merged: Entries, r: Resolution, k: Identity)
    requires RowsTell(es, merged, r)
    ensures r.Valid() && RowTells(At(es, k), At(merged, k), At(r.added.values, k), At(r.updated.values, k))
  {
  }

  lemma TellingIsValid(es: Entries, merged: Entries, r: Resolution)
    requires RowsTell(es, merged, r)
    ensures r.Valid()
  {
  }

  lemma RowsTellAll(es: Entries, merged: Entries, r: Resolution)
    requires r.Valid() && forall k :: RowTells(At(es, k), At(merged, k), At(r.added.values, k), At(r.updated.values, k))
    ensures RowsTell(es, merged, r)
  {
  }

  lemma ResolveStep(local: Entries, es: Entries, merged: Entries, r: Resolution, d: DataPoint, rev: nat)
    requires Keyed(local) && SamePoints(local, es) && RowsTell(es, merged, r)
    requires d.identity in es ==> es[d.identity].updatedRev < rev
    ensures var r', merged' := ResolveOne(local, r, d), MergeOne(merged, d, rev);
      && RowsTell(es, merged', r')
      && r'.outcomes == r.outcomes + [MergeResult(if d.identity in merged then Updated else Added, merged'[d.identity].dp)]
  {
    var r', merged' := ResolveOne(local, r, d), MergeOne(merged, d, rev);
    hide RowTells, RowsTell, ResolveOne, MergeOne;
    RowsTellAt(es, merged, r, d.identity);
    forall k ensures RowTells(At(es, k), At(merged', k), At(r'.added.values, k), At(r'.updated.values, k)) {
      RowsTellAt(es, merged, r, k);
      if k == d.identity {
        ResolveHere(local, es, merged, r, d, rev);
      } else {
        ResolveElsewhere(local, merged, r, d, rev, k);
      }
    }
    RowsTellAll(es, merged', r');
    ResolveHere(local, es, merged, r, d, rev);
  }

  lemma ResolveHere(local: Entries, es: Entries, merged: Entries, r: Resolution, d: DataPoint, rev: nat)
    requires Keyed(local) && SamePoints(local, es) && r.Valid()
    requires RowTells(At(es, d.identity), At(merged, d.identity), At(r.added.values, d.identity), At(r.updated.values, d.identity))
    requires d.identity in es ==> es[d.identity].updatedRev < rev
    ensures var r', merged', k := ResolveOne(local, r, d), MergeOne(merged, d, rev), d.identity;
      && RowTells(At(es, k), At(merged', k), At(r'.added.values, k), At(r'.updated.values, k))
      && r'.outcomes == r.outcomes + [MergeResult(if k in merged then Updated else Added, merged'[k].dp)]
  {
  }

  lemma ResolveElsewhere(local: Entries, merged: Entries, r: Resolution, d: DataPoint, rev: nat, k: Identity)
    requires Keyed(local) && r.Valid() && k != d.identity
    ensures var r', merged' := ResolveOne(local, r, d), MergeOne(merged, d, rev);
      At(merged', k) == At(merged, k) && At(r'.added.values, k) == At(r.added.values, k)
      && At(r'.updated.values, k) == At(r.updated.values, k)
  {
  }

  // ----- writing through the mirror is writing to the store -----

  lemma RowsOf(rows: Rows, k: Identity)
    requires rows.Valid()
    ensures Distinct(rows.Values())
    ensures forall d :: d in rows.Values() && d.identity == k ==> k in rows.values && d == rows.values[k]
    ensures k in rows.values ==> rows.values[k] in rows.Values()
    ensures rows.Values() == [] <==> rows.values == map[]
  {
    var vs := rows.Values();
    forall i | 0 <= i < |vs| ensures vs[i].identity == rows.order[i] {
      assert rows.order[i] in rows.values;
    }
    if k in rows.values {
      var i :| 0 <= i < |rows.order| && rows.order[i] == k;
      assert vs[i] == rows.values[k];
    }
    if rows.order == [] { assert rows.values.Keys == {}; } else { assert rows.order[0] in rows.values; }
  }

  /** Putting the rows of one kind, seen at one identity. */
  lemma PutRows(es: Entries, rows: Rows, rev: nat, k: Identity)
    requires rows.Valid()
    ensures At(PutAdded(es, rows.Values(), rev), k) == After(At(es, k), At(rows.values, k), None, rev)
    ensures At(PutUpdated(es, rows.Values(), rev), k) == After(At(es, k), None, At(rows.values, k), rev)
  {
    RowsOf(rows, k);
    PutAddedMeaning(es, rows.Values(), rev, k);
    PutUpdatedMeaning(es, rows.Values(), rev, k);
  }

  /** One identity's entry once its row, if it has one, is put at `rev`. */
  function After(e: Option<Entry>, added: Option<DataPoint>, updated: Option<DataPoint>, rev: nat): Option<Entry> {
    if updated.Some? then
      Some(Entry(updated.value, if added.Some? then rev else if e.Some? then e.value.addedRev else 0, rev))
    else if added.Some? then Some(Entry(added.value, rev, rev))
    else e
  }

  /** The merge at one identity, told by its rows. */
  lemma MergeByRows(st: Store, batch: seq<DataPoint>, r: Resolution, k: Identity)
    requires Valid(st) && RowsTell(st.entries, MergeAll(st.entries, batch, st.revision + 1), r)
    ensures var e, added, updated := At(st.entries, k), At(r.added.values, k), At(r.updated.values, k);
      var merged := At(MergeAll(st.entries, batch, st.revision + 1), k);
      && merged == After(e, added, updated, st.revision + 1)
      && (added.Some? ==> e.None? && updated.None?)
      && (updated.Some? ==> e.Some? && merged != e)
  {
    var es, rev := st.entries, st.revision + 1;
    MergeMeaning(es, batch, rev, k);
    var merged := MergeAll(es, batch, rev);
    assert RowTells(At(es, k), At(merged, k), At(r.added.values, k), At(r.updated.values, k));
  }

  /** Applying the rows blindly is merging the batch, and there are no rows exactly when the merge changes nothing. */
  lemma RowsAreMerge(st: Store, batch: seq<DataPoint>, r: Resolution)
    requires Valid(st) && RowsTell(st.entries, MergeAll(st.entries, batch, st.revision + 1), r)
    ensures var rev := st.revision + 1;
      && PutUpdated(PutAdded(st.entries, r.added.Values(), rev), r.updated.Values(), rev) == MergeAll(st.entries, batch, rev)
      && (MergeAll(st.entries, batch, rev) == st.entries <==> r.added.Values() == [] && r.updated.Values() == [])
  {
    hide RowsTell, RowTells, MergeAll, PutAdded, PutUpdated;
    TellingIsValid(st.entries, MergeAll(st.entries, batch, st.revision + 1), r);
    var es, rev := st.entries, st.revision + 1;
    var merged := MergeAll(es, batch, rev);
    var landed := PutAdded(es, r.added.Values(), rev);
    forall k ensures At(PutUpdated(landed, r.updated.Values(), rev), k) == At(merged, k) {
      MergeByRows(st, batch, r, k);
      PutRows(es, r.added, rev, k);
      PutRows(landed, r.updated, rev, k);
    }
    SameMap(PutUpdated(landed, r.updated.Values(), rev), merged);
    NoRows(st, batch, r);
  }

  lemma NoRows(st: Store, batch: seq<DataPoint>, r: Resolution)
    requires Valid(st) && RowsTell(st.entries, MergeAll(st.entries, batch, st.revision + 1), r)
    ensures MergeAll(st.entries, batch, st.revision + 1) == st.entries <==> r.added.Values() == [] && r.updated.Values() == []
  {
    hide MergeAll, RowsTell;
    TellingIsValid(st.entries, MergeAll(st.entries, batch, st.revision + 1), r);
    var merged := MergeAll(st.entries, batch, st.revision + 1);
    if r.added.Values() != [] {
      var k := r.added.order[0];
      MergeByRows(st, batch, r, k);
    } else if r.updated.Values() != [] {
      var k := r.updated.order[0];
      MergeByRows(st, batch, r, k);
    } else {
      forall k ensures At(merged, k) == At(st.entries, k) {
        MergeByRows(st, batch, r, k);
        RowsOf(r.added, k);
        RowsOf(r.updated, k);
      }
      SameMap(merged, st.entries);
    }
  }

  /**
   * One write through the mirror: the store ends exactly as a direct write would leave it, stamps, revision
   * and reply included, and the mirror agrees with it again; a fenced-off write touches neither.
   */
  lemma WriteThroughIsWrite(m: Local, st: Store, batch: seq<DataPoint>, epoch: nat)
    requires Valid(st) && InSync(m, st) && Keyed(m.entries)
    ensures var (m', st', reply) := WriteThrough(m, st, batch, epoch);
      && (st', reply) == Write(st, batch, epoch)
      && InSync(m', st') && Keyed(m'.entries)
      && (reply.StaleEpoch? ==> m' == m && st' == st)
  {
    hide MergeAll, PutAdded, PutUpdated, Resolve, RowsTell, InSync, Apply;
    var r := Resolve(m.entries, batch);
    InSyncSamePoints(m, st);
    ResolveIsMerge(m.entries, st.entries, batch, st.revision + 1);
    RowsAreMerge(st, batch, r);
    if Accepts(st, epoch) {
      var st' := Write(st, batch, epoch).0;
      ApplyKeepsSync(m, st, batch, r, st');
    }
  }

  lemma InSyncSamePoints(m: Local, st: Store)
    requires InSync(m, st)
    ensures SamePoints(m.entries, st.entries) && m.revision == st.revision
  {
    SyncSamePoints(m.entries, st.entries, m.rehydratedAt);
  }

  lemma SyncSamePoints(local: Entries, es: Entries, rehydratedAt: nat)
    requires EntriesAgree(local, es, rehydratedAt)
    ensures SamePoints(local, es)
  {
    forall k | k in es ensures local[k].dp == es[k].dp { assert EntryAgrees(local[k], es[k], rehydratedAt); }
  }

  lemma ApplyKeepsSync(m: Local, st: Store, batch: seq<DataPoint>, r: Resolution, st': Store)
    requires Valid(st) && InSync(m, st) && Keyed(m.entries)
    requires RowsTell(st.entries, MergeAll(st.entries, batch, st.revision + 1), r)
    requires st'.entries == MergeAll(st.entries, batch, st.revision + 1)
    requires st'.revision == if st'.entries == st.entries then st.revision else st.revision + 1
    ensures InSync(Apply(m, r, st'.revision), st') && Keyed(Apply(m, r, st'.revision).entries)
  {
    hide MergeAll, RowsTell, EntriesAgree, EntryAgrees, BaselineOk, BaselineAt;
    var m', rev := Apply(m, r, st'.revision), st.revision + 1;
    TellingIsValid(st.entries, MergeAll(st.entries, batch, st.revision + 1), r);
    NoRows(st, batch, r);
    assert EntriesAgree(m.entries, st.entries, m.rehydratedAt);
    forall k ensures AgreeAt(At(m'.entries, k), At(st'.entries, k), m.rehydratedAt) {
      AgreesAtKey(m.entries, st.entries, m.rehydratedAt, k);
      RowsAt(m, st, batch, r, st', k);
      AgreeAfter(At(m.entries, k), At(st.entries, k), At(r.added.values, k), At(r.updated.values, k), m.rehydratedAt, rev);
    }
    AgreeEverywhere(m'.entries, st'.entries, m.rehydratedAt);
    forall since | since in m'.baselines ensures since < m.rehydratedAt && BaselineOk(m'.baselines[since], st'.entries, since, m.rehydratedAt) {
      var b := m.baselines[since];
      forall k ensures BaselineAt(At(b, k), At(st'.entries, k), since, m.rehydratedAt) {
        BaselineOkAt(b, st.entries, since, m.rehydratedAt, k);
        RowsAt(m, st, batch, r, st', k);
        BaselineAfter(At(b, k), At(st.entries, k), At(r.added.values, k), At(r.updated.values, k), since, m.rehydratedAt, rev);
      }
      BaselineOkAll(b, st'.entries, since, m.rehydratedAt);
    }
  }

  lemma BaselineOkAt(b: map<Identity, MergeKind>, es: Entries, since: nat, rehydratedAt: nat, k: Identity)
    requires BaselineOk(b, es, since, rehydratedAt)
    ensures BaselineAt(At(b, k), At(es, k), since, rehydratedAt)
  {
  }

  lemma BaselineOkAll(b: map<Identity, MergeKind>, es: Entries, since: nat, rehydratedAt: nat)
    requires forall k :: BaselineAt(At(b, k), At(es, k), since, rehydratedAt)
    ensures BaselineOk(b, es, since, rehydratedAt)
  {
  }

  /** Both copies take the same rows at the same revision; with no rows at all neither changes. */
  lemma RowsAt(m: Local, st: Store, batch: seq<DataPoint>, r: Resolution, st': Store, k: Identity)
    requires Valid(st) && RowsTell(st.entries, MergeAll(st.entries, batch, st.revision + 1), r)
    requires st'.entries == MergeAll(st.entries, batch, st.revision + 1)
    requires st'.revision == if st'.entries == st.entries then st.revision else st.revision + 1
    ensures var added, updated, rev := At(r.added.values, k), At(r.updated.values, k), st.revision + 1;
      && At(Apply(m, r, st'.revision).entries, k) == After(At(m.entries, k), added, updated, rev)
      && At(st'.entries, k) == After(At(st.entries, k), added, updated, rev)
      && (added.Some? ==> At(st.entries, k).None? && updated.None?)
      && (updated.Some? ==> At(st.entries, k).Some?)
      && (At(st.entries, k).Some? ==> At(st.entries, k).value.updatedRev < rev)
  {
    hide MergeAll, RowsTell, Apply;
    MergeByRows(st, batch, r, k);
    ApplyAt(m, r, st'.revision, k);
  }

  lemma AgreeAfter(local: Option<Entry>, e: Option<Entry>, added: Option<DataPoint>, updated: Option<DataPoint>,
                   rehydratedAt: nat, rev: nat)
    requires AgreeAt(local, e, rehydratedAt) && rehydratedAt < rev
    requires (added.Some? ==> e.None? && updated.None?) && (updated.Some? ==> e.Some?)
    ensures AgreeAt(After(local, added, updated, rev), After(e, added, updated, rev), rehydratedAt)
  {
  }

  lemma BaselineAfter(kind: Option<MergeKind>, e: Option<Entry>, added: Option<DataPoint>, updated: Option<DataPoint>,
                      since: nat, rehydratedAt: nat, rev: nat)
    requires BaselineAt(kind, e, since, rehydratedAt) && since < rehydratedAt < rev
    requires (added.Some? ==> e.None? && updated.None?) && (updated.Some? ==> e.Some?)
    requires e.Some? ==> e.value.updatedRev < rev
    ensures BaselineAt(kind, After(e, added, updated, rev), since, rehydratedAt)
  {
  }

  lemma ApplyAt(m: Local, r: Resolution, revision: nat, k: Identity)
    ensures At(Apply(m, r, revision).entries, k) ==
      After(At(m.entries, k), At(r.added.values, k), At(r.updated.values, k), revision)
  {
  }

  predicate AgreeAt(local: Option<Entry>, e: Option<Entry>, rehydratedAt: nat) {
    if e.None? then local.None? else local.Some? && EntryAgrees(local.value, e.value, rehydratedAt)
  }

  lemma AgreesAtKey(local: Entries, es: Entries, rehydratedAt: nat, k: Identity)
    requires EntriesAgree(local, es, rehydratedAt)
    ensures AgreeAt(At(local, k), At(es, k), rehydratedAt)
  {
    assert k in local.Keys <==> k in es.Keys;
  }

  lemma AgreeEverywhere(local: Entries, es: Entries, rehydratedAt: nat)
    requires forall k :: AgreeAt(At(local, k), At(es, k), rehydratedAt)
    ensures EntriesAgree(local, es, rehydratedAt)
  {
    hide EntryAgrees;
    forall k ensures k in local.Keys <==> k in es.Keys { assert AgreeAt(At(local, k), At(es, k), rehydratedAt); }
    forall k | k in es ensures EntryAgrees(local[k], es[k], rehydratedAt) { assert AgreeAt(At(local, k), At(es, k), rehydratedAt); }
  }

  // ----- whole runs -----

  /** What a session does through its mirror; `SetMark` stands for the guarded writes that leave the entries alone. */
  datatype Op = WriteBatch(batch: seq<DataPoint>, epoch: nat) | Prime(since: nat) | SetMark(id: string, rev: nat, epoch: nat)

  function RunThrough(m: Local, st: Store, ops: seq<Op>): (after: (Local, Store, seq<Result<nat>>))
    requires Keyed(m.entries)
    ensures Keyed(after.0.entries)
  {
    if ops == [] then (m, st, [])
    else
      var (m1, st1, replies) := RunThrough(m, st, ops[..|ops| - 1]);
      match ops[|ops| - 1]
      case WriteBatch(batch, epoch) =>
        var (m2, st2, reply) := WriteThrough(m1, st1, batch, epoch);
        (m2, st2, replies + [reply])
      case Prime(since) => (Primed(m1, st1, since), st1, replies)
      case SetMark(id, rev, epoch) => (m1, SetWatermark(st1, id, rev, epoch).0, replies)
  }

  /** The same run against the store alone, every batch written directly. */
  function RunDirect(st: Store, ops: seq<Op>): (Store, seq<Result<nat>>) {
    if ops == [] then (st, [])
    else
      var (st1, replies) := RunDirect(st, ops[..|ops| - 1]);
      match ops[|ops| - 1]
      case WriteBatch(batch, epoch) =>
        var (st2, reply) := Write(st1, batch, epoch);
        (st2, replies + [reply])
      case Prime(since) => (st1, replies)
      case SetMark(id, rev, epoch) => (SetWatermark(st1, id, rev, epoch).0, replies)
  }

  /**
   * The mirror refines the store: from any valid store, however long the session, writing through a
   * rehydrated mirror leaves the store, and gives the replies, of writing to it directly, and the mirror
   * answers every read as that store would.
   */
  lemma {:induction false} MirrorRefinesStore(st: Store, ops: seq<Op>, since: nat)
    requires Valid(st)
    ensures var (m', st', replies) := RunThrough(Rehydrated(ViewOf(st.entries), st.revision), st, ops);
      && (st', replies) == RunDirect(st, ops)
      && Valid(st') && InSync(m', st')
      && ViewOf(m'.entries) == ViewOf(st'.entries) && m'.revision == st'.revision
      && (since >= st.revision || Prime(since) in ops ==> ChangeSetOf(m', since) == Some(ChangeSetSince(st', since)))
  {
    var m := Rehydrated(ViewOf(st.entries), st.revision);
    RunKeepsSync(m, st, ops);
    var (m', st', _) := RunThrough(m, st, ops);
    ReadsAgree(m', st', since);
    if Prime(since) in ops { RunKeepsPrimes(m, st, ops, since); }
    RunKeepsPoint(m, st, ops);
  }

  lemma {:induction false} RunKeepsSync(m: Local, st: Store, ops: seq<Op>)
    requires Valid(st) && m == Rehydrated(ViewOf(st.entries), st.revision)
    ensures var (m', st', replies) := RunThrough(m, st, ops);
      (st', replies) == RunDirect(st, ops) && Valid(st') && InSync(m', st')
  {
    assert Keyed(m.entries);
    hide InSync, WriteThrough, Primed, Valid, Write;
    if ops == [] {
      RehydrateSyncs(st);
    } else {
      var init := ops[..|ops| - 1];
      RunKeepsSync(m, st, init);
      var (m1, st1, _) := RunThrough(m, st, init);
      match ops[|ops| - 1]
      case WriteBatch(batch, epoch) =>
        WriteThroughIsWrite(m1, st1, batch, epoch);
        WriteKeepsValid(st1, batch, epoch);
      case Prime(since) => PrimeKeepsSync(m1, st1, since);
      case SetMark(id, rev, epoch) => SetMarkKeepsSync(m1, st1, id, rev, epoch);
    }
  }

  lemma SetMarkKeepsSync(m: Local, st: Store, id: string, rev: nat, epoch: nat)
    requires InSync(m, st) && Valid(st)
    ensures var st' := SetWatermark(st, id, rev, epoch).0; InSync(m, st') && Valid(st')
  {
    hide EntriesAgree, BaselineOk;
  }

  lemma {:induction false} RunKeepsPoint(m: Local, st: Store, ops: seq<Op>)
    requires Keyed(m.entries)
    ensures RunThrough(m, st, ops).0.rehydratedAt == m.rehydratedAt
  {
    if ops != [] { RunKeepsPoint(m, st, ops[..|ops| - 1]); }
  }

  /** A primed baseline is there for good. */
  lemma {:induction false} RunKeepsPrimes(m: Local, st: Store, ops: seq<Op>, since: nat)
    requires Keyed(m.entries) && Prime(since) in ops
    ensures since >= m.rehydratedAt || since in RunThrough(m, st, ops).0.baselines
  {
    var init := ops[..|ops| - 1];
    RunKeepsPoint(m, st, init);
    if Prime(since) in init { RunKeepsPrimes(m, st, init, since); }
  }
}
