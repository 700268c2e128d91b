/** The session mirror in its in-place form, over the in-memory store it writes through. */
module StateMirror {
  import opened Prelude
  import opened DataPoints
  import opened KeyedMerge
  import opened DataPointStore
  import MemoryStore
  import opened Mirror

  datatype Reply<T> = Done(value: T) | NotHydrated | NotPrimed | Fenced

  class SessionStateMirror {
    const store: MemoryStore.InMemoryStore
    var entries: Entries
    var baselines: map<nat, map<Identity, MergeKind>>
    var revision: nat
    var rehydratedAt: nat
    var hydrated: bool

    constructor (store: MemoryStore.InMemoryStore)
      ensures this.store == store && !hydrated
    {
      this.store := store;
      entries, baselines, revision, rehydratedAt, hydrated := map[], map[], 0, 0, false;
    }

    function Value(): Local
      reads this
    {
      Local(entries, baselines, revision, rehydratedAt)
    }

    method Rehydrate()
      modifies this
      ensures hydrated && Value() == Rehydrated(ViewOf(store.entries), store.revision)
    {
      var view := ViewOf(store.entries);
      entries := map k | k in view :: Entry(view[k], 0, 0);
      revision, rehydratedAt := store.revision, store.revision;
      baselines := map[];
      hydrated := true;
    }

    method PrimeChangeBaseline(since: nat) returns (r: Reply<()>)
      modifies this`baselines
      ensures if hydrated then r == Done(()) && Value() == Primed(old(Value()), store.Value(), since)
              else r == NotHydrated && baselines == old(baselines)
    {
      if !hydrated {
        return NotHydrated;
      }
      if since >= rehydratedAt || since in baselines {
        return Done(());
      }
      var change := ChangeSetSince(store.Value(), since);
      baselines := baselines[since := Baseline(change)];
      return Done(());
    }

    method ReadChangeSet(since: nat) returns (r: Reply<ChangeSet>)
      ensures r == if !hydrated then NotHydrated
                   else match ChangeSetOf(Value(), since) case None => NotPrimed case Some(change) => Done(change)
    {
      if !hydrated {
        return NotHydrated;
      }
      if since >= rehydratedAt {
        return Done(LocalChangeSet(Value(), since));
      }
      if since !in baselines {
        return NotPrimed;
      }
      return Done(BaselinedChangeSet(Value(), since));
    }

    /** Keyed-merge locally, forward the resolved batch, apply it at the revision the store returned. */
    method Write(batch: seq<DataPoint>, epoch: nat) returns (r: Reply<nat>, outcomes: seq<MergeResult>)
      requires Keyed(entries)
      modifies this, store
      ensures !hydrated ==> r == NotHydrated && Value() == old(Value()) && store.Value() == old(store.Value())
      ensures hydrated ==>
        var (m, st, reply) := WriteThrough(old(Value()), old(store.Value()), batch, epoch);
        && Value() == m && store.Value() == st
        && (reply.StaleEpoch? ==> r == Fenced)
        && (reply.Ok? ==> r == Done(reply.value) && outcomes == Mirror.Resolve(old(entries), batch).outcomes)
      ensures hydrated == old(hydrated)
    {
      if !hydrated {
        return NotHydrated, [];
      }
      var resolution := Resolve(batch);
      var reply := store.ApplyResolved(resolution.added.Values(), resolution.updated.Values(), epoch);
      if reply.StaleEpoch? {
        return Fenced, [];
      }
      Apply(resolution, reply.value);
      return Done(reply.value), resolution.outcomes;
    }

    method Resolve(batch: seq<DataPoint>) returns (r: Resolution)
      requires Keyed(entries)
      ensures r == Mirror.Resolve(entries, batch) && r.Valid()
    {
      var outcomes, added, updated := [], NO_ROWS, NO_ROWS;
      for i := 0 to |batch|
        invariant Resolution(outcomes, added, updated) == Mirror.Resolve(entries, batch[..i])
      {
        var d := batch[i];
        var k := d.identity;
        assert batch[..i + 1][..i] == batch[..i];
        if k in added.values {
          added := added.Put(k, added.values[k].Reobserved(d.lastRetrieved));
          outcomes := outcomes + [MergeResult(Updated, added.values[k])];
        } else if k in updated.values {
          updated := updated.Put(k, updated.values[k].Reobserved(d.lastRetrieved));
          outcomes := outcomes + [MergeResult(Updated, updated.values[k])];
        } else if k !in entries {
          added := added.Put(k, d);
          outcomes := outcomes + [MergeResult(Added, d)];
        } else {
          var merged := entries[k].dp.Reobserved(d.lastRetrieved);
          outcomes := outcomes + [MergeResult(Updated, merged)];
          if d.lastRetrieved > entries[k].dp.lastRetrieved {
            updated := updated.Put(k, merged);
          }
        }
      }
      assert batch[..|batch|] == batch;
      r := Resolution(outcomes, added, updated);
    }

    method Apply(resolution: Resolution, rev: nat)
      requires resolution.Valid()
      modifies this`entries, this`revision
      ensures Value() == Mirror.Apply(old(Value()), resolution, rev)
    {
      var added, updated := resolution.added, resolution.updated;
      for i := 0 to |added.order|
        invariant forall k ::
          At(entries, k) == (if k in added.order[..i] then Some(Entry(added.values[k], rev, rev)) else At(old(entries), k))
      {
        entries := entries[added.order[i] := Entry(added.values[added.order[i]], rev, rev)];
      }
      assert added.order[..|added.order|] == added.order;
      ghost var landed := entries;
      for i := 0 to |updated.order|
        invariant forall k ::
          At(entries, k) ==
          (if k in updated.order[..i] then
             Some(Entry(updated.values[k], if k in landed then landed[k].addedRev else 0, rev))
           else At(landed, k))
      {
        var k := updated.order[i];
        entries := entries[k := Entry(updated.values[k], if k in entries then entries[k].addedRev else 0, rev)];
      }
      assert updated.order[..|updated.order|] == updated.order;
      revision := rev;
      ghost var target := Mirror.Apply(Local(old(entries), baselines, revision, rehydratedAt), resolution, rev).entries;
      forall k ensures At(entries, k) == At(target, k) {
        assert At(landed, k) == if k in added.order then Some(Entry(added.values[k], rev, rev)) else At(old(entries), k);
      }
      SameMap(entries, target);
    }
  }
}
