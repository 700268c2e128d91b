/** The claim / body / commit-or-revert gate an operator's side effects go through. */
module EffectGuard {
  import opened Prelude
  import opened DataPointStore
  import MemoryStore
  import opened EffectMarks

  datatype Recovery = Rerun | SkipUnknown

  datatype Entry = RunBody | DoNotRun | Unknown | Fenced

  /** How a guarded attempt ended. */
  datatype Attempt = Ran(failed: bool) | Skipped | Rejected

  class Guard {
    const store: MemoryStore.InMemoryStore
    const operatorId: string
    const epoch: nat

    constructor (store: MemoryStore.InMemoryStore, operatorId: string, epoch: nat)
      ensures this.store == store && this.operatorId == operatorId && this.epoch == epoch
    {
      this.store, this.operatorId, this.epoch := store, operatorId, epoch;
    }

    function Namespaced(key: string): string {
      operatorId + ":" + key
    }

    /** The first claim; a predecessor's unresolved mark is left for recovery to judge. */
    method Enter(key: string) returns (r: Entry)
      modifies store
      ensures store.Value() == Do(old(store.Value()), Claim(Namespaced(key), epoch, false))
      ensures r.RunBody? <==> Acquires(old(store.Value()), Claim(Namespaced(key), epoch, false), Namespaced(key))
      ensures r.Fenced? <==> !Accepts(old(store.Value()), epoch)
      ensures r.Unknown? <==>
        ClaimEffect(old(store.Value()), Namespaced(key), epoch, false).1 == Ok(PendingStaleEpoch)
    {
      var claim := store.ClaimEffect(Namespaced(key), epoch, false);
      match claim
      case StaleEpoch => r := Fenced;
      case Ok(Acquired) => r := RunBody;
      case Ok(PendingStaleEpoch) => r := Unknown;
      case Ok(_) => r := DoNotRun;
    }

    /** Under SKIP the unknown mark is left in place; under RERUN it is claimed again, and may be lost to a race. */
    method Recover(key: string, onUnknown: Recovery) returns (r: Entry)
      modifies store
      ensures onUnknown.SkipUnknown? ==> r == DoNotRun && store.Value() == old(store.Value())
      ensures onUnknown.Rerun? ==>
        && store.Value() == Do(old(store.Value()), Claim(Namespaced(key), epoch, true))
        && (r.RunBody? <==> Acquires(old(store.Value()), Claim(Namespaced(key), epoch, true), Namespaced(key)))
        && (r.Fenced? <==> !Accepts(old(store.Value()), epoch))
      ensures !r.Unknown?
    {
      if onUnknown.SkipUnknown? {
        return DoNotRun;
      }
      var reclaim := store.ClaimEffect(Namespaced(key), epoch, true);
      match reclaim
      case StaleEpoch => r := Fenced;
      case Ok(Acquired) => r := RunBody;
      case Ok(_) => r := DoNotRun;
    }

    /** A failed body reverts, a clean one commits; the store call itself may be lost. */
    method Exit(key: string, failed: bool, lost: bool)
      modifies store
      ensures store.Value() ==
        if lost then old(store.Value())
        else Do(old(store.Value()), if failed then Revert(Namespaced(key), epoch) else Commit(Namespaced(key), epoch))
    {
      if !lost {
        if failed {
          var _ := store.RevertEffect(Namespaced(key), epoch);
        } else {
          var _ := store.CommitEffect(Namespaced(key), epoch);
        }
      }
    }

    /**
     * An attempt nobody interferes with. The body runs iff the key was free, or held by an older epoch and
     * reruns are wanted; it then leaves the key committed, free again for a retry, or, when the final call is
     * lost, pending under this epoch, so that a retry under the same epoch skips it. Otherwise nothing but
     * the fence moves.
     */
    method Once(key: string, onUnknown: Recovery, failed: bool, lost: bool) returns (r: Attempt)
      modifies store
      ensures var st, k, mark := old(store.Value()), Namespaced(key), At(old(store.effects), Namespaced(key));
        var runs := mark.None? || (mark.value.Pending? && mark.value.epoch != epoch && onUnknown.Rerun?);
        && r == (if !Accepts(st, epoch) then Rejected else if runs then Ran(failed) else Skipped)
        && store.Value() == (
             if !Accepts(st, epoch) then st
             else if !runs then st.(maxEpoch := epoch)
             else st.(maxEpoch := epoch,
                      effects := if lost then st.effects[k := Pending(epoch)]
                                 else if failed then st.effects - {k} else st.effects[k := Committed]))
    {
      var entry := Enter(key);
      if entry.Unknown? {
        entry := Recover(key, onUnknown);
      }
      if entry.Fenced? {
        return Rejected;
      }
      if !entry.RunBody? {
        return Skipped;
      }
      Exit(key, failed, lost);
      return Ran(failed);
    }
  }
}
