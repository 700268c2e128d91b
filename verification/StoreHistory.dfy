/** Change sets are differences of views. */
module StoreHistory {
  import opened Prelude
  import opened DataPoints
  import opened KeyedMerge
  import opened SessionState
  import S = DataPointStore
  import opened DataPointStore
  import M = Mirror
  import R = RedisStore

  /** What is not in `before`, and what was there with an older observation time. */
  ghost predicate IsDifference(change: ChangeSet, before: View, now: View) {
    && change.added == (map k | k in now && k !in before :: now[k])
    && change.updated == (map k | k in now && k in before && before[k].lastRetrieved < now[k].lastRetrieved :: now[k])
    && before + change.added + change.updated == now
  }

  /** Rows worked out against these entries: new identities, and known observations seen again strictly later. */
  ghost predicate Resolved(es: Entries, added: seq<DataPoint>, updated: seq<DataPoint>) {
    && Distinct(added) && Distinct(updated)
    && (forall d :: d in added ==> d.identity !in es)
    && (forall d :: d in updated ==> d.identity in es && Freshened(es[d.identity].dp, d))
  }

  /** A direct write with each identity once, rows resolved against what the store holds, or a call that leaves the entries alone. */
  ghost predicate Sensible(st: Store, call: R.Call) {
    call.ApplyCall? ==> Resolved(st.entries, call.added, call.updated)
  }

  ghost predicate SensibleAll(st: Store, calls: seq<R.Call>) {
    forall i :: 0 <= i < |calls| ==> Sensible(R.RunInMemory(st, calls[..i]).0, calls[i])
  }

  /** A store in which `before` was the view at revision `r`. */
  ghost predicate Remembers(st: Store, before: View, r: nat) {
    S.Valid(st) && r <= st.revision && AgreesAt(st.entries, before, r)
  }

  lemma RemembersItself(st: Store)
    requires S.Valid(st)
    ensures Remembers(st, ViewOf(st.entries), st.revision)
  {
  }

  lemma WriteRemembers(st: Store, batch: seq<DataPoint>, epoch: nat, before: View, r: nat)
    requires Remembers(st, before, r)
    ensures Remembers(Write(st, batch, epoch).0, before, r)
  {
    var rev := st.revision + 1;
    WriteKeepsValid(st, batch, epoch);
    var merged := MergeAll(st.entries, batch, rev);
    forall k ensures MergedTo(st.entries, batch, rev, k, merged) { MergeMeaning(st.entries, batch, rev, k); }
    hide MergeAll;
    MergeAgreesBefore(st.entries, merged, batch, rev, before, r);
  }

  lemma ApplyRemembers(st: Store, added: seq<DataPoint>, updated: seq<DataPoint>, epoch: nat, before: View, r: nat)
    requires Remembers(st, before, r) && Resolved(st.entries, added, updated)
    ensures Remembers(ApplyResolved(st, added, updated, epoch).0, before, r)
  {
    var rev := st.revision + 1;
    var landed := PutAdded(st.entries, added, rev);
    var es := PutUpdated(landed, updated, rev);
    hide PutAdded, PutUpdated;
    forall k ensures LandedAt(st.entries, es, rev, k) {
      PutAddedMeaning(st.entries, added, rev, k);
      PutUpdatedMeaning(landed, updated, rev, k);
      LandsAt(st.entries, landed, es, added, updated, rev, k);
    }
    LandedRemembers(st.entries, es, before, rev, r);
  }

  /** One identity through a resolved batch: untouched, freshened, or new. */
  ghost predicate LandedAt(es: Entries, es': Entries, rev: nat, k: Identity) {
    if k in es then
      k in es' && (es'[k] == es[k]
        || (Freshened(es[k].dp, es'[k].dp) && es'[k].addedRev == es[k].addedRev && es'[k].updatedRev == rev))
    else k in es' ==> es'[k].dp.identity == k && es'[k].addedRev == es'[k].updatedRev == rev
  }

  lemma LandsAt(es: Entries, landed: Entries, es': Entries, added: seq<DataPoint>, updated: seq<DataPoint>, rev: nat, k: Identity)
    requires Resolved(es, added, updated) && landed == PutAdded(es, added, rev) && es' == PutUpdated(landed, updated, rev)
    ensures LandedAt(es, es', rev, k)
  {
    PutAddedMeaning(es, added, rev, k);
    PutUpdatedMeaning(landed, updated, rev, k);
    hide PutAdded, PutUpdated;
    if d :| d in updated && d.identity == k {
      assert k in es;
    } else if d :| d in added && d.identity == k {
      assert k !in es;
    }
  }

  lemma LandedRemembers(es: Entries, es': Entries, before: View, rev: nat, r: nat)
    requires 0 < rev && Keyed(es) && StampsUpTo(es, rev - 1) && AgreesAt(es, before, r) && r < rev
    requires forall k :: LandedAt(es, es', rev, k)
    ensures Keyed(es') && StampsUpTo(es', rev) && AgreesAt(es', before, r)
  {
    forall k | k in es' ensures es'[k].dp.identity == k && es'[k].addedRev <= es'[k].updatedRev <= rev {
      assert LandedAt(es, es', rev, k);
    }
    forall k
      ensures k in before <==> k in es' && es'[k].addedRev <= r
      ensures k in before && es'[k].updatedRev <= r ==> before[k] == es'[k].dp
      ensures k in before && es'[k].updatedRev > r ==> Freshened(before[k], es'[k].dp)
    {
      assert LandedAt(es, es', rev, k);
    }
  }

  lemma CallRemembers(st: Store, call: R.Call, before: View, r: nat)
    requires Remembers(st, before, r) && Sensible(st, call)
    ensures Remembers(R.InMemory(st, call).0, before, r)
  {
    hide Write, ApplyResolved, AgreesAt;
    match call
    case WriteCall(batch, epoch) => WriteRemembers(st, batch, epoch, before, r);
    case ApplyCall(added, updated, epoch) => ApplyRemembers(st, added, updated, epoch, before, r);
    case _ =>
  }

  /** The view after the first `n` calls is remembered by the store after all of them. */
  lemma {:induction false} RunRemembers(st: Store, calls: seq<R.Call>, n: nat)
    requires S.Valid(st) && SensibleAll(st, calls) && n <= |calls|
    ensures var before := R.RunInMemory(st, calls[..n]).0;
      Remembers(R.RunInMemory(st, calls).0, ViewOf(before.entries), before.revision)
  {
    hide Remembers, Sensible, R.InMemory;
    var before := R.RunInMemory(st, calls[..n]).0;
    if calls == [] {
      RemembersItself(st);
    } else {
      var init := calls[..|calls| - 1];
      forall i | 0 <= i < |init| ensures Sensible(R.RunInMemory(st, init[..i]).0, init[i]) {
        assert init[..i] == calls[..i] && Sensible(R.RunInMemory(st, calls[..i]).0, calls[i]);
      }
      var k := if n < |calls| then n else n - 1;
      RunRemembers(st, init, k);
      assert init[..k] == calls[..k];
      var was := R.RunInMemory(st, calls[..k]).0;
      CallRemembers(R.RunInMemory(st, init).0, calls[|calls| - 1], ViewOf(was.entries), was.revision);
      if n == |calls| {
        assert calls[..n] == calls;
        RemembersValid(before, ViewOf(was.entries), was.revision);
        RemembersItself(before);
      }
    }
  }

  lemma RemembersValid(st: Store, before: View, r: nat)
    requires Remembers(st, before, r)
    ensures S.Valid(st)
  {
  }

  lemma ChangesTell(st: Store, before: View, r: nat)
    requires Remembers(st, before, r)
    ensures IsDifference(ChangeSetSince(st, r), before, ViewOf(st.entries))
  {
    SplitIsExact(st.entries, before, r);
  }

  /**
   * Over any calls on any valid store: the change set since the revision the store had after the first `n` of them
   * is the difference between what it held then and what it holds now, so added is exactly what was not there and
   * updated exactly what was there with an older time.
   */
  lemma ChangesAreExact(st: Store, calls: seq<R.Call>, n: nat)
    requires S.Valid(st) && SensibleAll(st, calls) && n <= |calls|
    ensures var before, now := R.RunInMemory(st, calls[..n]).0, R.RunInMemory(st, calls).0;
      S.Valid(now) && IsDifference(ChangeSetSince(now, before.revision), ViewOf(before.entries), ViewOf(now.entries))
  {
    RunRemembers(st, calls, n);
    var before := R.RunInMemory(st, calls[..n]).0;
    ChangesTell(R.RunInMemory(st, calls).0, ViewOf(before.entries), before.revision);
  }

  /** The same of the hashes in Redis, whose views are the stored DataPoints. */
  lemma RedisChangesAreExact(calls: seq<R.Call>, n: nat)
    requires SensibleAll(EMPTY, calls) && n <= |calls| && forall c :: c in calls ==> R.WellKeyed(c)
    ensures var before, now := R.RunRedis(R.BLANK, calls[..n]).0, R.RunRedis(R.BLANK, calls).0;
      IsDifference(R.ChangesSince(now, R.OrZero(before.rev)), before.dp, now.dp)
  {
    hide R.ChangesSince, R.OnRedis, R.InMemory, R.WellKeyed, Sensible, IsDifference;
    var before, now := R.RunRedis(R.BLANK, calls[..n]).0, R.RunRedis(R.BLANK, calls).0;
    R.RedisSimulatesMemory(calls, R.OrZero(before.rev));
    R.RedisSimulatesMemory(calls[..n], 0);
    ChangesAreExact(EMPTY, calls, n);
    ViewIs(before);
    ViewIs(now);
  }

  lemma ViewIs(r: R.Redis)
    ensures ViewOf(R.Meaning(r).entries) == r.dp && R.Meaning(r).revision == R.OrZero(r.rev)
  {
  }

  // ----- through the mirror -----

  /** The rows a mirror sends are resolved, as long as it holds what the store holds. */
  lemma RowsAreResolved(local: Entries, st: Store, batch: seq<DataPoint>)
    requires S.Valid(st) && Keyed(local) && M.SamePoints(local, st.entries)
    ensures var r := M.Resolve(local, batch); Resolved(st.entries, r.added.Values(), r.updated.Values())
  {
    var r, es, rev := M.Resolve(local, batch), st.entries, st.revision + 1;
    var merged := MergeAll(es, batch, rev);
    hide MergeAll, M.Resolve, M.RowsTell, M.SamePoints;
    M.ResolveIsMerge(local, es, batch, rev);
    var added, updated := r.added.Values(), r.updated.Values();
    forall d | d in added ensures d.identity !in es {
      M.RowsOf(r.added, d.identity);
      M.RowsTellAt(es, merged, r, d.identity);
    }
    forall d | d in updated ensures d.identity in es && Freshened(es[d.identity].dp, d) {
      M.RowsOf(r.updated, d.identity);
      M.RowsTellAt(es, merged, r, d.identity);
      MergeMeaning(es, batch, rev, d.identity);
      LatestIsMaximum(batch, d.identity, es[d.identity].dp.lastRetrieved);
    }
    M.RowsOf(r.added, Identity(Class("", {}), ""));
    M.RowsOf(r.updated, Identity(Class("", {}), ""));
  }

  lemma {:induction false} DirectRemembers(st: Store, ops: seq<M.Op>, before: View, r: nat)
    requires Remembers(st, before, r)
    ensures Remembers(M.RunDirect(st, ops).0, before, r)
  {
    if ops != [] {
      DirectRemembers(st, ops[..|ops| - 1], before, r);
      DirectStepRemembers(st, ops, before, r);
    }
  }

  /** The view after the first `n` operations is remembered after all of them. */
  lemma {:induction false} SessionRemembers(st: Store, ops: seq<M.Op>, n: nat)
    requires S.Valid(st) && n <= |ops|
    ensures var before := M.RunDirect(st, ops[..n]).0;
      Remembers(M.RunDirect(st, ops).0, ViewOf(before.entries), before.revision)
  {
    hide Remembers, Write;
    if n == |ops| {
      DirectRemembers(st, ops, ViewOf(st.entries), st.revision) by { RemembersItself(st); }
      assert ops[..n] == ops;
      RemembersValid(M.RunDirect(st, ops).0, ViewOf(st.entries), st.revision);
      RemembersItself(M.RunDirect(st, ops).0);
    } else {
      var init := ops[..|ops| - 1];
      SessionRemembers(st, init, n);
      assert init[..n] == ops[..n];
      var before := M.RunDirect(st, ops[..n]).0;
      DirectStepRemembers(st, ops, ViewOf(before.entries), before.revision);
    }
  }

  lemma DirectStepRemembers(st: Store, ops: seq<M.Op>, before: View, r: nat)
    requires ops != [] && Remembers(M.RunDirect(st, ops[..|ops| - 1]).0, before, r)
    ensures Remembers(M.RunDirect(st, ops).0, before, r)
  {
    hide Write, AgreesAt;
    match ops[|ops| - 1]
    case WriteBatch(batch, epoch) => WriteRemembers(M.RunDirect(st, ops[..|ops| - 1]).0, batch, epoch, before, r);
    case _ =>
  }

  /**
   * The mirror's change sets, whatever the session does through it: since a moment before it was rehydrated, once
   * primed for it, and since any moment of the session, they are the difference between the two views.
   */
  lemma MirrorChangesAreExact(st: Store, calls: seq<R.Call>, n: nat, ops: seq<M.Op>)
    requires S.Valid(st) && SensibleAll(st, calls) && n <= |calls|
    ensures S.Valid(R.RunInMemory(st, calls).0)
    ensures var before, loaded := R.RunInMemory(st, calls[..n]).0, R.RunInMemory(st, calls).0;
      var m := M.RunThrough(M.Rehydrated(ViewOf(loaded.entries), loaded.revision), loaded, ops).0;
      M.Prime(before.revision) in ops || before.revision == loaded.revision ==>
        && M.ChangeSetOf(m, before.revision).Some?
        && IsDifference(M.ChangeSetOf(m, before.revision).value, ViewOf(before.entries), ViewOf(m.entries))
  {
    hide R.InMemory, Sensible, Remembers, IsDifference, M.RunThrough, M.ChangeSetOf, M.InSync, M.Rehydrated;
    var before, loaded := R.RunInMemory(st, calls[..n]).0, R.RunInMemory(st, calls).0;
    RunRemembers(st, calls, n);
    RemembersValid(loaded, ViewOf(before.entries), before.revision);
    DirectRemembers(loaded, ops, ViewOf(before.entries), before.revision);
    M.MirrorRefinesStore(loaded, ops, before.revision);
    ChangesTell(M.RunDirect(loaded, ops).0, ViewOf(before.entries), before.revision);
  }

  lemma SessionChangesAreExact(st: Store, ops: seq<M.Op>, n: nat)
    requires S.Valid(st) && n <= |ops|
    ensures var start := M.Rehydrated(ViewOf(st.entries), st.revision);
      var before, now := M.RunThrough(start, st, ops[..n]).0, M.RunThrough(start, st, ops).0;
      M.ChangeSetOf(now, before.revision).Some?
      && IsDifference(M.ChangeSetOf(now, before.revision).value, ViewOf(before.entries), ViewOf(now.entries))
  {
    hide Remembers, IsDifference, M.RunThrough, M.ChangeSetOf, M.InSync;
    var was := M.RunDirect(st, ops[..n]).0;
    M.MirrorRefinesStore(st, ops[..n], st.revision);
    M.MirrorRefinesStore(st, ops, was.revision);
    SessionRemembers(st, ops, n);
    DirectRemembers(st, ops[..n], ViewOf(st.entries), st.revision) by { RemembersItself(st); }
    assert was.revision >= st.revision by { LaterRevision(was, ViewOf(st.entries), st.revision); }
    ChangesTell(M.RunDirect(st, ops).0, ViewOf(was.entries), was.revision);
  }

  lemma LaterRevision(st: Store, before: View, r: nat)
    requires Remembers(st, before, r)
    ensures r <= st.revision
  {
  }
}
