/** The in-memory DataPoint store of one session: a keyed merge behind an epoch fence. */
module DataPointStore {
  import opened Prelude
  import opened DataPoints
  import opened KeyedMerge

  /** A side-effect mark: in flight, naming the epoch that owns it, or done for good. */
  datatype Mark = Pending(epoch: nat) | Committed

  datatype Claim = Acquired | AlreadyCommitted | PendingSameEpoch | PendingStaleEpoch

  datatype Store = Store(
    entries: Entries,
    revision: nat,
    maxEpoch: nat,
    watermarks: map<string, nat>,
    effects: map<string, Mark>,
    fingerprint: Option<string>)

  const EMPTY := Store(map[], 0, 0, map[], map[], None)

  datatype Result<T> = Ok(value: T) | StaleEpoch

  datatype ChangeSet = ChangeSet(added: View, updated: View)

  ghost predicate Valid(st: Store) {
    Keyed(st.entries) && StampsUpTo(st.entries, st.revision)
  }

  /** Every guarded operation: a stale epoch changes nothing, an accepted one raises the fence to itself. */
  predicate Accepts(st: Store, epoch: nat) {
    epoch >= st.maxEpoch
  }

  function Write(st: Store, batch: seq<DataPoint>, epoch: nat): (Store, Result<nat>) {
    if !Accepts(st, epoch) then (st, StaleEpoch)
    else
      var merged := MergeAll(st.entries, batch, st.revision + 1);
      var revision := if merged == st.entries then st.revision else st.revision + 1;
      (st.(entries := merged, revision := revision, maxEpoch := epoch), Ok(revision))
  }

  function PutAdded(es: Entries, added: seq<DataPoint>, rev: nat): Entries {
    if added == [] then es
    else
      var d := added[|added| - 1];
      PutAdded(es, added[..|added| - 1], rev)[d.identity := Entry(d, rev, rev)]
  }

  /** A merged identity keeps its add stamp; an unknown one lands with none. */
  function PutUpdated(es: Entries, updated: seq<DataPoint>, rev: nat): Entries {
    if updated == [] then es
    else
      var d := updated[|updated| - 1];
      var before := PutUpdated(es, updated[..|updated| - 1], rev);
      before[d.identity := Entry(d, if d.identity in before then before[d.identity].addedRev else 0, rev)]
  }

  function ApplyResolved(st: Store, added: seq<DataPoint>, updated: seq<DataPoint>, epoch: nat): (Store, Result<nat>) {
    if !Accepts(st, epoch) then (st, StaleEpoch)
    else if added == [] && updated == [] then (st.(maxEpoch := epoch), Ok(st.revision))
    else
      var rev := st.revision + 1;
      (st.(entries := PutUpdated(PutAdded(st.entries, added, rev), updated, rev), revision := rev, maxEpoch := epoch), Ok(rev))
  }

  function ChangeSetSince(st: Store, since: nat): ChangeSet {
    ChangeSet(map k | k in st.entries && st.entries[k].addedRev > since :: st.entries[k].dp,
              map k | k in st.entries && st.entries[k].addedRev <= since < st.entries[k].updatedRev :: st.entries[k].dp)
  }

  function SetWatermark(st: Store, id: string, revision: nat, epoch: nat): (Store, Result<()>) {
    if !Accepts(st, epoch) then (st, StaleEpoch)
    else (st.(watermarks := st.watermarks[id := revision], maxEpoch := epoch), Ok(()))
  }

  function SetFingerprint(st: Store, fingerprint: string, epoch: nat): (Store, Result<()>) {
    if !Accepts(st, epoch) then (st, StaleEpoch)
    else (st.(fingerprint := Some(fingerprint), maxEpoch := epoch), Ok(()))
  }

  function ClaimEffect(st: Store, key: string, epoch: nat, reclaimStale: bool): (Store, Result<Claim>) {
    if !Accepts(st, epoch) then (st, StaleEpoch)
    else
      var fenced := st.(maxEpoch := epoch);
      var mine := fenced.(effects := st.effects[key := Pending(epoch)]);
      match At(st.effects, key)
      case None => (mine, Ok(Acquired))
      case Some(mark) =>
        if mark.Committed? then (fenced, Ok(AlreadyCommitted))
        else if mark.epoch == epoch then (fenced, Ok(PendingSameEpoch))
        else if reclaimStale then (mine, Ok(Acquired))
        else (fenced, Ok(PendingStaleEpoch))
  }

  function CommitEffect(st: Store, key: string, epoch: nat): (Store, Result<()>) {
    if !Accepts(st, epoch) then (st, StaleEpoch)
    else
      var own := At(st.effects, key) == Some(Pending(epoch)) || At(st.effects, key) == Some(Committed);
      (st.(effects := if own then st.effects[key := Committed] else st.effects, maxEpoch := epoch), Ok(()))
  }

  function RevertEffect(st: Store, key: string, epoch: nat): (Store, Result<()>) {
    if !Accepts(st, epoch) then (st, StaleEpoch)
    else
      var own := At(st.effects, key) == Some(Pending(epoch));
      (st.(effects := if own then st.effects - {key} else st.effects, maxEpoch := epoch), Ok(()))
  }

  // ----- what the operations mean -----

  lemma WriteKeepsValid(st: Store, batch: seq<DataPoint>, epoch: nat)
    requires Valid(st)
    ensures Valid(Write(st, batch, epoch).0)
  {
    MergeKeepsKeyed(st.entries, batch, st.revision + 1);
    MergeKeepsStamps(st.entries, batch, st.revision + 1);
  }

  /** Distinct identities: the batch a resolved merge consists of. */
  ghost predicate Distinct(ds: seq<DataPoint>) {
    forall i, j :: 0 <= i < j < |ds| ==> ds[i].identity != ds[j].identity
  }

  lemma {:induction false} PutAddedMeaning(es: Entries, added: seq<DataPoint>, rev: nat, k: Identity)
    requires Distinct(added)
    ensures var m := PutAdded(es, added, rev);
      && (k in m <==> k in es || exists d :: d in added && d.identity == k)
      && (forall d :: d in added && d.identity == k ==> m[k] == Entry(d, rev, rev))
      && (k in es && (forall d :: d in added ==> d.identity != k) ==> m[k] == es[k])
  {
    if added != [] {
      var init, last := added[..|added| - 1], added[|added| - 1];
      assert added == init + [last];
      assert Distinct(init);
      PutAddedMeaning(es, init, rev, k);
    }
  }

  lemma {:induction false} PutUpdatedMeaning(es: Entries, updated: seq<DataPoint>, rev: nat, k: Identity)
    requires Distinct(updated)
    ensures var m := PutUpdated(es, updated, rev);
      && (k in m <==> k in es || exists d :: d in updated && d.identity == k)
      && (forall d :: d in updated && d.identity == k ==> m[k] == Entry(d, if k in es then es[k].addedRev else 0, rev))
      && (k in es && (forall d :: d in updated ==> d.identity != k) ==> m[k] == es[k])
  {
    if updated != [] {
      var init, last := updated[..|updated| - 1], updated[|updated| - 1];
      assert updated == init + [last];
      assert Distinct(init);
      PutUpdatedMeaning(es, init, rev, k);
    }
  }
}
