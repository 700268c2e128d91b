/** The in-memory DataPoint store in its in-place form; each operation is proved to be the one specified. */
module MemoryStore {
  import opened Prelude
  import opened DataPoints
  import opened KeyedMerge
  import opened DataPointStore

  class InMemoryStore {
    var entries: Entries
    var revision: nat
    var maxEpoch: nat
    var watermarks: map<string, nat>
    var effects: map<string, Mark>
    var fingerprint: Option<string>

    constructor ()
      ensures Value() == EMPTY
    {
      entries, revision, maxEpoch, watermarks, effects, fingerprint := map[], 0, 0, map[], map[], None;
    }

    function Value(): Store
      reads this
    {
      Store(entries, revision, maxEpoch, watermarks, effects, fingerprint)
    }

    method GuardEpoch(epoch: nat) returns (accepted: bool)
      modifies this`maxEpoch
      ensures accepted == Accepts(old(Value()), epoch)
      ensures maxEpoch == if accepted then epoch else old(maxEpoch)
    {
      if epoch < maxEpoch {
        return false;
      }
      maxEpoch := epoch;
      return true;
    }

    method Write(batch: seq<DataPoint>, epoch: nat) returns (r: Result<nat>)
      modifies this
      ensures (Value(), r) == DataPointStore.Write(old(Value()), batch, epoch)
    {
      var accepted := GuardEpoch(epoch);
      if !accepted {
        return StaleEpoch;
      }
      var nextRevision, changed := revision + 1, false;
      for i := 0 to |batch|
        invariant entries == MergeAll(old(entries), batch[..i], nextRevision)
        invariant Value() == old(Value()).(entries := entries, maxEpoch := epoch)
        invariant changed <==> entries != old(entries)
      {
        var d := batch[i];
        assert batch[..i + 1][..i] == batch[..i];
        NoOpIffCovered(old(entries), batch[..i], nextRevision);
        NoOpIffCovered(old(entries), batch[..i + 1], nextRevision);
        if d.identity !in entries {
          entries := entries[d.identity := Entry(d, nextRevision, nextRevision)];
          changed := true;
        } else if d.lastRetrieved > entries[d.identity].dp.lastRetrieved {
          var existing := entries[d.identity];
          entries := entries[d.identity := Entry(existing.dp.Reobserved(d.lastRetrieved), existing.addedRev, nextRevision)];
          changed := true;
        }
      }
      assert batch[..|batch|] == batch;
      if changed {
        revision := nextRevision;
      }
      return Ok(revision);
    }

    method ApplyResolved(added: seq<DataPoint>, updated: seq<DataPoint>, epoch: nat) returns (r: Result<nat>)
      modifies this
      ensures (Value(), r) == DataPointStore.ApplyResolved(old(Value()), added, updated, epoch)
    {
      var accepted := GuardEpoch(epoch);
      if !accepted {
        return StaleEpoch;
      }
      if added == [] && updated == [] {
        return Ok(revision);
      }
      var nextRevision := revision + 1;
      for i := 0 to |added|
        invariant Value() == old(Value()).(entries := PutAdded(old(entries), added[..i], nextRevision), maxEpoch := epoch)
      {
        assert added[..i + 1][..i] == added[..i];
        entries := entries[added[i].identity := Entry(added[i], nextRevision, nextRevision)];
      }
      assert added[..|added|] == added;
      ghost var landed := entries;
      for i := 0 to |updated|
        invariant Value() == old(Value()).(entries := PutUpdated(landed, updated[..i], nextRevision), maxEpoch := epoch)
      {
        assert updated[..i + 1][..i] == updated[..i];
        var k := updated[i].identity;
        var addedRev := if k in entries then entries[k].addedRev else 0;
        entries := entries[k := Entry(updated[i], addedRev, nextRevision)];
      }
      assert updated[..|updated|] == updated;
      revision := nextRevision;
      return Ok(nextRevision);
    }

    method SetWatermark(id: string, rev: nat, epoch: nat) returns (r: Result<()>)
      modifies this
      ensures (Value(), r) == DataPointStore.SetWatermark(old(Value()), id, rev, epoch)
    {
      var accepted := GuardEpoch(epoch);
      if !accepted {
        return StaleEpoch;
      }
      watermarks := watermarks[id := rev];
      return Ok(());
    }

    method SetFingerprint(value: string, epoch: nat) returns (r: Result<()>)
      modifies this
      ensures (Value(), r) == DataPointStore.SetFingerprint(old(Value()), value, epoch)
    {
      var accepted := GuardEpoch(epoch);
      if !accepted {
        return StaleEpoch;
      }
      fingerprint := Some(value);
      return Ok(());
    }

    method ClaimEffect(key: string, epoch: nat, reclaimStale: bool) returns (r: Result<Claim>)
      modifies this
      ensures (Value(), r) == DataPointStore.ClaimEffect(old(Value()), key, epoch, reclaimStale)
    {
      var accepted := GuardEpoch(epoch);
      if !accepted {
        return StaleEpoch;
      }
      if key !in effects {
        effects := effects[key := Pending(epoch)];
        return Ok(Acquired);
      }
      if effects[key].Committed? {
        return Ok(AlreadyCommitted);
      }
      if effects[key] == Pending(epoch) {
        return Ok(PendingSameEpoch);
      }
      if reclaimStale {
        effects := effects[key := Pending(epoch)];
        return Ok(Acquired);
      }
      return Ok(PendingStaleEpoch);
    }

    method CommitEffect(key: string, epoch: nat) returns (r: Result<()>)
      modifies this
      ensures (Value(), r) == DataPointStore.CommitEffect(old(Value()), key, epoch)
    {
      var accepted := GuardEpoch(epoch);
      if !accepted {
        return StaleEpoch;
      }
      if key in effects && (effects[key] == Pending(epoch) || effects[key].Committed?) {
        effects := effects[key := Committed];
      }
      return Ok(());
    }

    method RevertEffect(key: string, epoch: nat) returns (r: Result<()>)
      modifies this
      ensures (Value(), r) == DataPointStore.RevertEffect(old(Value()), key, epoch)
    {
      var accepted := GuardEpoch(epoch);
      if !accepted {
        return StaleEpoch;
      }
      if key in effects && effects[key] == Pending(epoch) {
        effects := effects - {key};
      }
      return Ok(());
    }
  }
}
