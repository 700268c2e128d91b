/** The Redis store in its in-place form: each script changes the session's keys where they lie. */
module RedisScripts {
  import opened Prelude
  import opened DataPoints
  import opened DataPointStore
  import opened RedisStore

  class RedisDataPointStore {
    var epochKey: Option<nat>
    var revKey: Option<nat>
    var dp: View
    var added: map<Identity, nat>
    var upd: map<Identity, nat>
    var wm: map<string, nat>
    var fx: map<string, Mark>
    var fingerprint: Option<string>

    constructor ()
      ensures Keys() == BLANK
    {
      epochKey, revKey, dp, added, upd, wm, fx, fingerprint := None, None, map[], map[], map[], map[], map[], None;
    }

    function Keys(): Redis
      reads this
    {
      Redis(epochKey, revKey, dp, added, upd, wm, fx, fingerprint)
    }

    /** The opening lines every script shares. */
    method GuardEpoch(epoch: nat) returns (accepted: bool)
      modifies this`epochKey
      ensures accepted == !Stale(old(Keys()), epoch)
      ensures Keys() == if accepted then Fence(old(Keys()), epoch) else old(Keys())
    {
      var stored := OrZero(epochKey);
      if epoch < stored {
        return false;
      }
      if epoch > stored {
        epochKey := Some(epoch);
      }
      return true;
    }

    method WriteScript(epoch: nat, ts: seq<Triple>) returns (r: Result<nat>)
      modifies this
      ensures (Keys(), r) == RedisStore.WriteScript(old(Keys()), epoch, ts)
    {
      var accepted := GuardEpoch(epoch);
      if !accepted {
        return StaleEpoch;
      }
      if ts == [] {
        return Ok(OrZero(revKey));
      }
      var rev := OrZero(revKey) + 1;
      revKey := Some(rev);
      ghost var start := Keys();
      for i := 0 to |ts|
        invariant Keys() == PutTriples(start, ts[..i], rev)
      {
        assert ts[..i + 1][..i] == ts[..i];
        var t := ts[i];
        dp := dp[t.identity := t.dp];
        upd := upd[t.identity := rev];
        if t.mode.New? {
          added := added[t.identity := rev];
        }
      }
      assert ts[..|ts|] == ts;
      return Ok(rev);
    }

    /** Reads the hash once, judges every observation against it, and applies what is new in one script. */
    method Write(batch: seq<DataPoint>, epoch: nat) returns (r: Result<nat>)
      modifies this
      ensures (Keys(), r) == WriteMerged(old(Keys()), batch, epoch)
    {
      var current, ts := dp, [];
      for i := 0 to |batch|
        invariant ts == Triples(current, batch[..i]) && Keys() == old(Keys())
      {
        var d := batch[i];
        assert batch[..i + 1][..i] == batch[..i];
        if d.identity !in current {
          ts := ts + [Triple(d.identity, New, d)];
        } else if d.lastRetrieved > current[d.identity].lastRetrieved {
          ts := ts + [Triple(d.identity, Reobservation, current[d.identity].Reobserved(d.lastRetrieved))];
        }
      }
      assert batch[..|batch|] == batch;
      r := WriteScript(epoch, ts);
    }

    method ApplyResolved(newRows: seq<DataPoint>, updated: seq<DataPoint>, epoch: nat) returns (r: Result<nat>)
      modifies this
      ensures (Keys(), r) == ApplyTriples(old(Keys()), newRows, updated, epoch)
    {
      var ts: seq<Triple> := [];
      for i := 0 to |newRows|
        invariant |ts| == i && (forall j :: 0 <= j < i ==> ts[j] == Triple(newRows[j].identity, New, newRows[j]))
        invariant Keys() == old(Keys())
      {
        ts := ts + [Triple(newRows[i].identity, New, newRows[i])];
      }
      ghost var first := ts;
      for i := 0 to |updated|
        invariant |ts| == |newRows| + i && ts[..|newRows|] == first
        invariant forall j :: 0 <= j < i ==> ts[|newRows| + j] == Triple(updated[j].identity, Reobservation, updated[j])
        invariant Keys() == old(Keys())
      {
        ts := ts + [Triple(updated[i].identity, Reobservation, updated[i])];
      }
      assert ts == ResolvedTriples(newRows, updated);
      r := WriteScript(epoch, ts);
    }

    method SetWatermark(id: string, revision: nat, epoch: nat) returns (r: Result<()>)
      modifies this
      ensures (Keys(), r) == MarkScript(old(Keys()), epoch, id, revision)
    {
      var accepted := GuardEpoch(epoch);
      if !accepted {
        return StaleEpoch;
      }
      wm := wm[id := revision];
      return Ok(());
    }

    method SetFingerprint(value: string, epoch: nat) returns (r: Result<()>)
      modifies this
      ensures (Keys(), r) == PrintScript(old(Keys()), epoch, value)
    {
      var accepted := GuardEpoch(epoch);
      if !accepted {
        return StaleEpoch;
      }
      fingerprint := Some(value);
      return Ok(());
    }

    method ClaimEffect(key: string, epoch: nat, reclaimStale: bool) returns (r: Result<Claim>)
      modifies this
      ensures (Keys(), r) == ClaimScript(old(Keys()), epoch, key, reclaimStale)
    {
      var accepted := GuardEpoch(epoch);
      if !accepted {
        return StaleEpoch;
      }
      if key !in fx {
        fx := fx[key := Pending(epoch)];
        return Ok(Acquired);
      }
      if fx[key].Committed? {
        return Ok(AlreadyCommitted);
      }
      if fx[key] == Pending(epoch) {
        return Ok(PendingSameEpoch);
      }
      if reclaimStale {
        fx := fx[key := Pending(epoch)];
        return Ok(Acquired);
      }
      return Ok(PendingStaleEpoch);
    }

    method CommitEffect(key: string, epoch: nat) returns (r: Result<()>)
      modifies this
      ensures (Keys(), r) == CommitScript(old(Keys()), epoch, key)
    {
      var accepted := GuardEpoch(epoch);
      if !accepted {
        return StaleEpoch;
      }
      if key in fx && fx[key] == Pending(epoch) {
        fx := fx[key := Committed];
      }
      return Ok(());
    }

    method RevertEffect(key: string, epoch: nat) returns (r: Result<()>)
      modifies this
      ensures (Keys(), r) == RevertScript(old(Keys()), epoch, key)
    {
      var accepted := GuardEpoch(epoch);
      if !accepted {
        return StaleEpoch;
      }
      if key in fx && fx[key] == Pending(epoch) {
        fx := fx - {key};
      }
      return Ok(());
    }
  }
}
