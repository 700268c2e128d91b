/** The Redis DataPoint store: flat hashes changed by atomic scripts, related to the in-memory store. */
module RedisStore {
  import opened Prelude
  import opened DataPoints
  import opened KeyedMerge
  import opened DataPointStore

  /** One session's keys. An absent counter reads as 0; a field name is the identity's canonical form. */
  datatype Redis = Redis(
    epoch: Option<nat>,
    rev: Option<nat>,
    dp: View,
    added: map<Identity, nat>,
    upd: map<Identity, nat>,
    wm: map<string, nat>,
    fx: map<string, Mark>,
    fingerprint: Option<string>)

  const BLANK := Redis(None, None, map[], map[], map[], map[], map[], None)

  datatype Mode = New | Reobservation

  datatype Triple = Triple(identity: Identity, mode: Mode, dp: DataPoint)

  function OrZero(x: Option<nat>): nat {
    match x case None => 0 case Some(n) => n
  }

  /** The add stamps belong to stored DataPoints. */
  ghost predicate Valid(r: Redis) {
    r.added.Keys <= r.dp.Keys
  }

  function EntriesOf(r: Redis): Entries {
    map k | k in r.dp :: Entry(r.dp[k], Count(r.added, k), Count(r.upd, k))
  }

  /** The in-memory store these keys stand for. */
  function Meaning(r: Redis): Store {
    Store(EntriesOf(r), OrZero(r.rev), OrZero(r.epoch), r.wm, r.fx, r.fingerprint)
  }

  // ----- the scripts -----

  predicate Stale(r: Redis, epoch: nat) {
    epoch < OrZero(r.epoch)
  }

  function Fence(r: Redis, epoch: nat): Redis {
    if epoch > OrZero(r.epoch) then r.(epoch := Some(epoch)) else r
  }

  function PutTriple(r: Redis, t: Triple, rev: nat): Redis {
    var r1 := r.(dp := r.dp[t.identity := t.dp], upd := r.upd[t.identity := rev]);
    if t.mode.New? then r1.(added := r1.added[t.identity := rev]) else r1
  }

  function PutTriples(r: Redis, ts: seq<Triple>, rev: nat): Redis {
    if ts == [] then r else PutTriple(PutTriples(r, ts[..|ts| - 1], rev), ts[|ts| - 1], rev)
  }

  function WriteScript(r: Redis, epoch: nat, ts: seq<Triple>): (Redis, Result<nat>) {
    if Stale(r, epoch) then (r, StaleEpoch)
    else if ts == [] then (Fence(r, epoch), Ok(OrZero(r.rev)))
    else
      var rev := OrZero(r.rev) + 1;
      (PutTriples(Fence(r, epoch).(rev := Some(rev)), ts, rev), Ok(rev))
  }

  function MarkScript(r: Redis, epoch: nat, id: string, revision: nat): (Redis, Result<()>) {
    if Stale(r, epoch) then (r, StaleEpoch) else (Fence(r, epoch).(wm := r.wm[id := revision]), Ok(()))
  }

  /** The same guarded field script, on the flow fingerprint. */
  function PrintScript(r: Redis, epoch: nat, value: string): (Redis, Result<()>) {
    if Stale(r, epoch) then (r, StaleEpoch) else (Fence(r, epoch).(fingerprint := Some(value)), Ok(()))
  }

  function ClaimScript(r: Redis, epoch: nat, key: string, reclaimStale: bool): (Redis, Result<Claim>) {
    if Stale(r, epoch) then (r, StaleEpoch)
    else
      var fenced := Fence(r, epoch);
      var mine := fenced.(fx := r.fx[key := Pending(epoch)]);
      if key !in r.fx then (mine, Ok(Acquired))
      else if r.fx[key].Committed? then (fenced, Ok(AlreadyCommitted))
      else if r.fx[key] == Pending(epoch) then (fenced, Ok(PendingSameEpoch))
      else if reclaimStale then (mine, Ok(Acquired))
      else (fenced, Ok(PendingStaleEpoch))
  }

  function CommitScript(r: Redis, epoch: nat, key: string): (Redis, Result<()>) {
    if Stale(r, epoch) then (r, StaleEpoch)
    else
      var fenced := Fence(r, epoch);
      (if At(r.fx, key) == Some(Pending(epoch)) then fenced.(fx := r.fx[key := Committed]) else fenced, Ok(()))
  }

  function RevertScript(r: Redis, epoch: nat, key: string): (Redis, Result<()>) {
    if Stale(r, epoch) then (r, StaleEpoch)
    else
      var fenced := Fence(r, epoch);
      (if At(r.fx, key) == Some(Pending(epoch)) then fenced.(fx := r.fx - {key}) else fenced, Ok(()))
  }

  // ----- the merge around the write script -----

  /** Each observation is judged against the hash as it was read before the batch. */
  function TripleOf(current: View, d: DataPoint): Option<Triple> {
    var k := d.identity;
    if k !in current then Some(Triple(k, New, d))
    else if d.lastRetrieved > current[k].lastRetrieved then Some(Triple(k, Reobservation, current[k].Reobserved(d.lastRetrieved)))
    else None
  }

  function Triples(current: View, batch: seq<DataPoint>): seq<Triple> {
    if batch == [] then []
    else
      var t := TripleOf(current, batch[|batch| - 1]);
      Triples(current, batch[..|batch| - 1]) + if t.Some? then [t.value] else []
  }

  function WriteMerged(r: Redis, batch: seq<DataPoint>, epoch: nat): (Redis, Result<nat>) {
    WriteScript(r, epoch, Triples(r.dp, batch))
  }

  function ResolvedTriples(added: seq<DataPoint>, updated: seq<DataPoint>): seq<Triple> {
    seq(|added|, i requires 0 <= i < |added| => Triple(added[i].identity, New, added[i]))
    + seq(|updated|, i requires 0 <= i < |updated| => Triple(updated[i].identity, Reobservation, updated[i]))
  }

  function ApplyTriples(r: Redis, added: seq<DataPoint>, updated: seq<DataPoint>, epoch: nat): (Redis, Result<nat>) {
    WriteScript(r, epoch, ResolvedTriples(added, updated))
  }

  /** The Redis split: an entry counts as updated when it was not added since, whatever its add stamp. */
  function ChangesSince(r: Redis, since: nat): ChangeSet {
    ChangeSet(map k | k in r.dp && Count(r.added, k) > since :: r.dp[k],
              map k | k in r.dp && Count(r.added, k) <= since && Count(r.upd, k) > since :: r.dp[k])
  }

  // ----- simulation -----

  lemma FenceMeaning(r: Redis, epoch: nat)
    requires !Stale(r, epoch)
    ensures Meaning(Fence(r, epoch)) == Meaning(r).(maxEpoch := epoch)
  {
  }

  lemma FenceFields(r: Redis, epoch: nat)
    ensures var fenced := Fence(r, epoch);
      fenced == r.(epoch := fenced.epoch) && (!Stale(r, epoch) ==> OrZero(fenced.epoch) == epoch)
  {
  }

  lemma {:induction false} PutTriplesKeep(r: Redis, ts: seq<Triple>, rev: nat)
    ensures var r' := PutTriples(r, ts, rev);
      r' == r.(dp := r'.dp, added := r'.added, upd := r'.upd) && (Valid(r) ==> Valid(r'))
  {
    if ts != [] { PutTriplesKeep(r, ts[..|ts| - 1], rev); }
  }

  lemma PutTripleMeaning(r: Redis, t: Triple, rev: nat)
    requires Valid(r)
    ensures EntriesOf(PutTriple(r, t, rev)) == EntriesOf(r)[t.identity :=
      Entry(t.dp, if t.mode.New? then rev else if t.identity in r.dp then EntriesOf(r)[t.identity].addedRev else 0, rev)]
  {
  }

  lemma {:induction false} AddedMeaning(r: Redis, added: seq<DataPoint>, rev: nat)
    requires Valid(r)
    ensures EntriesOf(PutTriples(r, ResolvedTriples(added, []), rev)) == PutAdded(EntriesOf(r), added, rev)
  {
    if added != [] {
      var init, ts := added[..|added| - 1], ResolvedTriples(added, []);
      AddedMeaning(r, init, rev);
      assert ts[..|ts| - 1] == ResolvedTriples(init, []);
      PutTriplesKeep(r, ResolvedTriples(init, []), rev);
      PutTripleMeaning(PutTriples(r, ResolvedTriples(init, []), rev), ts[|ts| - 1], rev);
    }
  }

  lemma {:induction false} UpdatedMeaning(r: Redis, added: seq<DataPoint>, updated: seq<DataPoint>, rev: nat)
    requires Valid(r)
    ensures EntriesOf(PutTriples(r, ResolvedTriples(added, updated), rev)) ==
      PutUpdated(PutAdded(EntriesOf(r), added, rev), updated, rev)
  {
    if updated == [] {
      AddedMeaning(r, added, rev);
    } else {
      var init, ts := updated[..|updated| - 1], ResolvedTriples(added, updated);
      UpdatedMeaning(r, added, init, rev);
      assert ts[..|ts| - 1] == ResolvedTriples(added, init);
      PutTriplesKeep(r, ResolvedTriples(added, init), rev);
      PutTripleMeaning(PutTriples(r, ResolvedTriples(added, init), rev), ts[|ts| - 1], rev);
    }
  }

  /** Applying a resolved batch, whatever it holds, is what the in-memory store does. */
  lemma ApplySimulates(r: Redis, added: seq<DataPoint>, updated: seq<DataPoint>, epoch: nat)
    requires Valid(r)
    ensures var (r', reply) := ApplyTriples(r, added, updated, epoch);
      Valid(r') && (Meaning(r'), reply) == ApplyResolved(Meaning(r), added, updated, epoch)
  {
    hide PutTriples, EntriesOf, PutAdded, PutUpdated;
    if !Stale(r, epoch) && (added != [] || updated != []) {
      var rev := OrZero(r.rev) + 1;
      var r1 := Fence(r, epoch).(rev := Some(rev));
      SameEntries(r, r1);
      UpdatedMeaning(r1, added, updated, rev);
      PutTriplesKeep(r1, ResolvedTriples(added, updated), rev);
    } else if !Stale(r, epoch) {
      FenceMeaning(r, epoch);
    }
  }

  lemma ChangesSimulate(r: Redis, since: nat)
    ensures ChangesSince(r, since) == ChangeSetSince(Meaning(r), since)
  {
    assert ChangesSince(r, since).added == ChangeSetSince(Meaning(r), since).added;
    assert ChangesSince(r, since).updated == ChangeSetSince(Meaning(r), since).updated;
  }

  lemma SameEntries(r: Redis, r1: Redis)
    requires r1.dp == r.dp && r1.added == r.added && r1.upd == r.upd
    ensures EntriesOf(r1) == EntriesOf(r)
  {
  }

  lemma WatermarkSimulates(r: Redis, epoch: nat, id: string, revision: nat)
    ensures var (r', reply) := MarkScript(r, epoch, id, revision);
      (Meaning(r'), reply) == SetWatermark(Meaning(r), id, revision, epoch)
  {
    hide EntriesOf, Fence;
    FenceFields(r, epoch);
    SameEntries(r, MarkScript(r, epoch, id, revision).0);
  }

  lemma PrintSimulates(r: Redis, epoch: nat, value: string)
    ensures var (r', reply) := PrintScript(r, epoch, value);
      (Meaning(r'), reply) == SetFingerprint(Meaning(r), value, epoch)
  {
    hide EntriesOf, Fence;
    FenceFields(r, epoch);
    SameEntries(r, PrintScript(r, epoch, value).0);
  }

  lemma ClaimSimulates(r: Redis, epoch: nat, key: string, reclaimStale: bool)
    ensures var (r', reply) := ClaimScript(r, epoch, key, reclaimStale);
      (Meaning(r'), reply) == ClaimEffect(Meaning(r), key, epoch, reclaimStale)
  {
    hide EntriesOf, Fence;
    FenceFields(r, epoch);
    SameEntries(r, ClaimScript(r, epoch, key, reclaimStale).0);
    var fenced := Fence(r, epoch);
    if !Stale(r, epoch) && key !in r.fx {
      assert ClaimScript(r, epoch, key, reclaimStale) == (fenced.(fx := r.fx[key := Pending(epoch)]), Ok(Acquired));
    }
  }

  lemma CommitSimulates(r: Redis, epoch: nat, key: string)
    ensures var (r', reply) := CommitScript(r, epoch, key); (Meaning(r'), reply) == CommitEffect(Meaning(r), key, epoch)
  {
    hide EntriesOf, Fence;
    FenceFields(r, epoch);
    SameEntries(r, CommitScript(r, epoch, key).0);
    assert At(r.fx, key) == Some(Committed) ==> r.fx[key := Committed] == r.fx;
  }

  lemma RevertSimulates(r: Redis, epoch: nat, key: string)
    ensures var (r', reply) := RevertScript(r, epoch, key); (Meaning(r'), reply) == RevertEffect(Meaning(r), key, epoch)
  {
    hide EntriesOf, Fence;
    FenceFields(r, epoch);
    SameEntries(r, RevertScript(r, epoch, key).0);
  }

  // ----- when the merge around the script agrees with the in-memory merge -----

  /** The value the last observation of `k` that produces a triple leaves in the hash. */
  function LastPut(current: View, batch: seq<DataPoint>, k: Identity): Option<DataPoint> {
    if batch == [] then None
    else
      var d := batch[|batch| - 1];
      var t := TripleOf(current, d);
      if d.identity == k && t.Some? then Some(t.value.dp) else LastPut(current, batch[..|batch| - 1], k)
  }

  lemma {:induction false} TriplesAt(r: Redis, current: View, batch: seq<DataPoint>, rev: nat, k: Identity)
    requires Valid(r) && r.dp == current
    ensures var r', v := PutTriples(r, Triples(current, batch), rev), LastPut(current, batch, k);
      && Valid(r')
      && At(EntriesOf(r'), k) ==
           if v.None? then At(EntriesOf(r), k)
           else Some(Entry(v.value, if k in current then EntriesOf(r)[k].addedRev else rev, rev))
  {
    hide EntriesOf;
    if batch != [] {
      var init, d := batch[..|batch| - 1], batch[|batch| - 1];
      var ts, t := Triples(current, init), TripleOf(current, d);
      TriplesAt(r, current, init, rev, k);
      EntriesKeys(r);
      if t.Some? {
        assert (ts + [t.value])[..|ts|] == ts;
        var r1 := PutTriples(r, ts, rev);
        EntriesKeys(r1);
        PutTripleMeaning(r1, t.value, rev);
      } else {
        assert ts + [] == ts;
      }
    }
  }

  lemma EntriesKeys(r: Redis)
    ensures EntriesOf(r).Keys == r.dp.Keys
    ensures forall k :: k in r.dp ==> EntriesOf(r)[k].dp == r.dp[k]
  {
  }

  /** The last observation that counts leaves in the hash what the in-memory merge would. */
  predicate LastIsLatest(current: View, batch: seq<DataPoint>, k: Identity) {
    var v := LastPut(current, batch, k);
    v.Some? ==>
      v.value == if k in current then current[k].(lastRetrieved := Latest(batch, k, current[k].lastRetrieved))
                 else RetimedFirst(batch, k)
  }

  function RetimedFirst(batch: seq<DataPoint>, k: Identity): DataPoint {
    match FirstOf(batch, k)
    case None => DataPoint(k, "", 0, 0)
    case Some(first) => first.(lastRetrieved := Latest(batch, k, first.lastRetrieved))
  }

  /** Nothing is put for `k` exactly when the batch brings nothing new about it. */
  lemma {:induction false} NothingPut(current: View, batch: seq<DataPoint>, k: Identity)
    ensures k in current ==>
      (LastPut(current, batch, k).None? <==> Latest(batch, k, current[k].lastRetrieved) == current[k].lastRetrieved)
    ensures k in current ==> current[k].lastRetrieved <= Latest(batch, k, current[k].lastRetrieved)
    ensures k !in current ==> (LastPut(current, batch, k).None? <==> FirstOf(batch, k).None?)
  {
    if batch != [] {
      var init, d := batch[..|batch| - 1], batch[|batch| - 1];
      NothingPut(current, init, k);
      FirstOfAppend(init, d, k);
      assert init + [d] == batch;
    }
  }

  lemma AgreesAtIff(r: Redis, batch: seq<DataPoint>, rev: nat, k: Identity)
    requires Valid(r)
    ensures At(EntriesOf(PutTriples(r, Triples(r.dp, batch), rev)), k) == At(MergeAll(EntriesOf(r), batch, rev), k)
      <==> LastIsLatest(r.dp, batch, k)
  {
    hide EntriesOf, PutTriples, Triples, LastPut;
    var es := EntriesOf(r);
    EntriesKeys(r);
    TriplesAt(r, r.dp, batch, rev, k);
    MergeMeaning(es, batch, rev, k);
    NothingPut(r.dp, batch, k);
  }

  /** There is a triple exactly when some identity gets one. */
  lemma {:induction false} NoTriples(current: View, batch: seq<DataPoint>)
    ensures Triples(current, batch) == [] ==> forall k :: LastPut(current, batch, k).None?
    ensures Triples(current, batch) != [] ==> exists k :: LastPut(current, batch, k).Some?
  {
    if batch != [] {
      var init, d := batch[..|batch| - 1], batch[|batch| - 1];
      NoTriples(current, init);
      var t := TripleOf(current, d);
      if t.Some? {
        assert LastPut(current, batch, d.identity).Some?;
      } else if Triples(current, init) != [] {
        var k :| LastPut(current, init, k).Some?;
        assert LastPut(current, batch, k).Some?;
      } else {
        forall k ensures LastPut(current, batch, k).None? { assert LastPut(current, init, k).None?; }
      }
    }
  }

  /** The Redis write allocates a revision exactly when the in-memory merge changes something. */
  lemma SameRevision(r: Redis, batch: seq<DataPoint>, rev: nat)
    requires Valid(r)
    ensures Triples(r.dp, batch) == [] <==> MergeAll(EntriesOf(r), batch, rev) == EntriesOf(r)
  {
    hide EntriesOf, MergeAll, LastPut, Triples;
    var es := EntriesOf(r);
    EntriesKeys(r);
    NoTriples(r.dp, batch);
    if Triples(r.dp, batch) == [] {
      forall d | d in batch ensures Covered(es, d) {
        NothingPut(r.dp, batch, d.identity);
        if d.identity in es { LatestIsMaximum(batch, d.identity, es[d.identity].dp.lastRetrieved); }
        FirstOfAppend(batch, d, d.identity);
      }
    } else {
      var k :| LastPut(r.dp, batch, k).Some?;
      NothingPut(r.dp, batch, k);
      MergeMeaning(es, batch, rev, k);
    }
    NoOpIffCovered(es, batch, rev);
  }

  /** The script gets a triple for this position. */
  predicate Counts(current: View, batch: seq<DataPoint>, k: Identity, i: nat)
    requires i < |batch|
  {
    batch[i].identity == k && (k !in current || batch[i].lastRetrieved > current[k].lastRetrieved)
  }

  /** No later position of the batch gets one for the same identity. */
  ghost predicate LastCounting(current: View, batch: seq<DataPoint>, k: Identity, i: nat)
    requires i < |batch|
  {
    Counts(current, batch, k, i) && forall j :: i < j < |batch| ==> !Counts(current, batch, k, j)
  }

  ghost predicate GreatestTime(batch: seq<DataPoint>, k: Identity, i: nat)
    requires i < |batch|
  {
    forall j :: 0 <= j < |batch| && batch[j].identity == k ==> batch[j].lastRetrieved <= batch[i].lastRetrieved
  }

  ghost predicate IsFirstAt(batch: seq<DataPoint>, k: Identity, j: nat)
    requires j < |batch|
  {
    batch[j].identity == k && forall l :: 0 <= l < j ==> batch[l].identity != k
  }

  /**
   * What a caller can read off a batch, position by position: the last position that counts has the greatest time
   * of its identity; and, for an identity not stored yet, the fields of its first position.
   */
  ghost predicate EndsLatest(current: View, batch: seq<DataPoint>, k: Identity) {
    forall i :: 0 <= i < |batch| && LastCounting(current, batch, k, i) ==>
      && GreatestTime(batch, k, i)
      && (k !in current ==> forall j :: 0 <= j < |batch| && IsFirstAt(batch, k, j) ==>
            batch[i] == batch[j].(lastRetrieved := batch[i].lastRetrieved))
  }

  /** The value a counting position leaves in the hash. */
  function LeftBy(current: View, batch: seq<DataPoint>, k: Identity, i: nat): DataPoint
    requires i < |batch|
  {
    if k in current then current[k].(lastRetrieved := batch[i].lastRetrieved) else batch[i]
  }

  lemma {:induction false} LastPutAt(current: View, batch: seq<DataPoint>, k: Identity)
    ensures var v := LastPut(current, batch, k);
      && (v.None? ==> forall i :: 0 <= i < |batch| ==> !Counts(current, batch, k, i))
      && (v.Some? ==> exists i :: (0 <= i < |batch| && LastCounting(current, batch, k, i)
                                   && v.value == LeftBy(current, batch, k, i)))
  {
    if batch != [] {
      var init, d := batch[..|batch| - 1], batch[|batch| - 1];
      LastPutAt(current, init, k);
      assert forall i :: 0 <= i < |init| ==> (Counts(current, batch, k, i) <==> Counts(current, init, k, i));
      if d.identity == k && TripleOf(current, d).Some? {
        assert LastCounting(current, batch, k, |init|);
      } else if LastPut(current, init, k).Some? {
        var i :| 0 <= i < |init| && LastCounting(current, init, k, i) && LastPut(current, init, k).value == LeftBy(current, init, k, i);
        assert LastCounting(current, batch, k, i) && batch[i] == init[i];
      }
    }
  }

  lemma {:induction false} FirstAt(batch: seq<DataPoint>, k: Identity)
    ensures match FirstOf(batch, k)
      case None => forall j :: 0 <= j < |batch| ==> batch[j].identity != k
      case Some(first) => exists j :: 0 <= j < |batch| && IsFirstAt(batch, k, j) && batch[j] == first
  {
    if batch != [] {
      if batch[0].identity == k {
        assert IsFirstAt(batch, k, 0);
      } else {
        var rest := batch[1..];
        FirstAt(rest, k);
        assert forall j :: 0 < j < |batch| ==> batch[j] == rest[j - 1];
        if FirstOf(rest, k).Some? {
          var j :| 0 <= j < |rest| && IsFirstAt(rest, k, j) && rest[j] == FirstOf(rest, k).value;
          assert IsFirstAt(batch, k, j + 1);
        }
      }
    }
  }

  lemma LatestAt(batch: seq<DataPoint>, k: Identity, before: int, i: nat)
    requires i < |batch| && batch[i].identity == k && before <= batch[i].lastRetrieved
    ensures Latest(batch, k, before) == batch[i].lastRetrieved <==> GreatestTime(batch, k, i)
  {
    LatestIsMaximum(batch, k, before);
    assert batch[i] in batch;
    if GreatestTime(batch, k, i) {
      forall d | d in batch && d.identity == k ensures d.lastRetrieved <= batch[i].lastRetrieved {
        var j :| 0 <= j < |batch| && batch[j] == d;
      }
    }
  }

  lemma OnlyLast(current: View, batch: seq<DataPoint>, k: Identity, i: nat, j: nat)
    requires i < |batch| && j < |batch| && LastCounting(current, batch, k, i) && LastCounting(current, batch, k, j)
    ensures i == j
  {
  }

  /** The condition for agreement, told from the batch's positions alone. */
  lemma LastIsLatestIff(current: View, batch: seq<DataPoint>, k: Identity)
    ensures LastIsLatest(current, batch, k) <==> EndsLatest(current, batch, k)
  {
    hide LastPut, FirstOf, Latest;
    LastPutAt(current, batch, k);
    if LastPut(current, batch, k).Some? {
      var i :| 0 <= i < |batch| && LastCounting(current, batch, k, i) && LastPut(current, batch, k).value == LeftBy(current, batch, k, i);
      forall l | 0 <= l < |batch| && LastCounting(current, batch, k, l) ensures l == i {
        OnlyLast(current, batch, k, i, l);
      }
      if k in current {
        LatestAt(batch, k, current[k].lastRetrieved, i);
      } else {
        FirstAt(batch, k);
        var j :| 0 <= j < |batch| && IsFirstAt(batch, k, j) && Some(batch[j]) == FirstOf(batch, k);
        FirstCountsAll(batch, k, i, j);
      }
    }
  }

  lemma FirstCountsAll(batch: seq<DataPoint>, k: Identity, i: nat, j: nat)
    requires i < |batch| && j < |batch| && batch[i].identity == k && IsFirstAt(batch, k, j) && FirstOf(batch, k) == Some(batch[j])
    ensures batch[i] == RetimedFirst(batch, k) <==>
      GreatestTime(batch, k, i)
      && forall l :: 0 <= l < |batch| && IsFirstAt(batch, k, l) ==> batch[i] == batch[l].(lastRetrieved := batch[i].lastRetrieved)
  {
    hide FirstOf, Latest;
    var first := batch[j];
    LatestIsMaximum(batch, k, first.lastRetrieved);
    assert first in batch && batch[i] in batch;
    if batch[i].lastRetrieved >= first.lastRetrieved { LatestAt(batch, k, first.lastRetrieved, i); }
    forall l | 0 <= l < |batch| && IsFirstAt(batch, k, l) ensures l == j {
    }
  }

  /**
   * The Redis write agrees with the in-memory one if and only if the batch is rejected or, for every identity, the
   * last position that counts has the greatest time, and for a new identity the first position's fields.
   */
  lemma WriteAgreesIff(r: Redis, batch: seq<DataPoint>, epoch: nat)
    requires Valid(r)
    ensures Valid(WriteMerged(r, batch, epoch).0)
    ensures var (r', reply) := WriteMerged(r, batch, epoch);
      (Meaning(r'), reply) == Write(Meaning(r), batch, epoch)
      <==> Stale(r, epoch) || forall k :: EndsLatest(r.dp, batch, k)
  {
    hide EntriesOf, PutTriples, Triples, LastIsLatest, EndsLatest;
    forall k ensures LastIsLatest(r.dp, batch, k) <==> EndsLatest(r.dp, batch, k) { LastIsLatestIff(r.dp, batch, k); }
    if !Stale(r, epoch) {
      var rev := OrZero(r.rev) + 1;
      var ts, r1 := Triples(r.dp, batch), Fence(r, epoch).(rev := Some(rev));
      var put, merged := PutTriples(r1, ts, rev), MergeAll(EntriesOf(r), batch, rev);
      SameEntries(r, r1);
      SameRevision(r, batch, rev);
      PutTriplesKeep(r1, ts, rev);
      PutNothing(r1, rev);
      SameEntries(r, Fence(r, epoch));
      forall k ensures At(EntriesOf(put), k) == At(merged, k) <==> LastIsLatest(r.dp, batch, k) {
        AgreesAtIff(r1, batch, rev, k);
      }
      if forall k :: At(EntriesOf(put), k) == At(merged, k) { SameMap(EntriesOf(put), merged); }
    }
  }

  lemma PutNothing(r: Redis, rev: nat)
    ensures PutTriples(r, [], rev) == r
  {
  }

  /** Distinct identities always agree. */
  lemma {:induction false} DistinctAgrees(current: View, batch: seq<DataPoint>, k: Identity)
    requires Distinct(batch) && forall x :: x in current ==> current[x].identity == x
    ensures LastIsLatest(current, batch, k)
  {
    if batch != [] {
      var init, d := batch[..|batch| - 1], batch[|batch| - 1];
      assert batch == init + [d];
      assert Distinct(init);
      DistinctAgrees(current, init, k);
      FirstOfAppend(init, d, k);
      if d.identity == k {
        assert forall e :: e in init ==> e.identity != k;
        LatestWithout(init, k, if k in current then current[k].lastRetrieved else d.lastRetrieved);
        NothingPut(current, init, k);
      }
    }
  }

  /** A repeated identity can make the two stores part: the later, older observation wins in Redis. */
  lemma RepeatedIdentityDiverges(d: DataPoint)
    ensures var early, late := d.(lastRetrieved := 3), d.(lastRetrieved := 5);
      && EntriesOf(WriteMerged(BLANK, [late, early], 0).0)[d.identity].dp == early
      && Write(EMPTY, [late, early], 0).0.entries[d.identity].dp == late
  {
    var k, early, late := d.identity, d.(lastRetrieved := 3), d.(lastRetrieved := 5);
    var batch := [late, early];
    assert batch[..1] == [late] && [late][..0] == [];
    assert LastPut(map[], batch, k) == Some(early);
    TriplesAt(BLANK.(rev := Some(1)), map[], batch, 1, k);
    MergeMeaning(map[], batch, 1, k);
    assert Latest([late], k, 5) == 5 && Latest(batch, k, 5) == 5;
    assert FirstOf(batch, k) == Some(late);
  }

  // ----- whole runs -----

  datatype Call =
    | WriteCall(batch: seq<DataPoint>, epoch: nat)
    | ApplyCall(added: seq<DataPoint>, updated: seq<DataPoint>, epoch: nat)
    | MarkCall(id: string, revision: nat, epoch: nat)
    | PrintCall(fingerprint: string, epoch: nat)
    | ClaimCall(key: string, reclaimStale: bool, epoch: nat)
    | CommitCall(key: string, epoch: nat)
    | RevertCall(key: string, epoch: nat)

  datatype Reply = Revision(r: Result<nat>) | Claimed(c: Result<Claim>) | Unit(u: Result<()>)

  function OnRedis(r: Redis, call: Call): (Redis, Reply) {
    match call
    case WriteCall(batch, epoch) => var x := WriteMerged(r, batch, epoch); (x.0, Revision(x.1))
    case ApplyCall(added, updated, epoch) => var x := ApplyTriples(r, added, updated, epoch); (x.0, Revision(x.1))
    case MarkCall(id, revision, epoch) => var x := MarkScript(r, epoch, id, revision); (x.0, Unit(x.1))
    case PrintCall(value, epoch) => var x := PrintScript(r, epoch, value); (x.0, Unit(x.1))
    case ClaimCall(key, reclaimStale, epoch) => var x := ClaimScript(r, epoch, key, reclaimStale); (x.0, Claimed(x.1))
    case CommitCall(key, epoch) => var x := CommitScript(r, epoch, key); (x.0, Unit(x.1))
    case RevertCall(key, epoch) => var x := RevertScript(r, epoch, key); (x.0, Unit(x.1))
  }

  function InMemory(st: Store, call: Call): (Store, Reply) {
    match call
    case WriteCall(batch, epoch) => var x := Write(st, batch, epoch); (x.0, Revision(x.1))
    case ApplyCall(added, updated, epoch) => var x := ApplyResolved(st, added, updated, epoch); (x.0, Revision(x.1))
    case MarkCall(id, revision, epoch) => var x := SetWatermark(st, id, revision, epoch); (x.0, Unit(x.1))
    case PrintCall(value, epoch) => var x := SetFingerprint(st, value, epoch); (x.0, Unit(x.1))
    case ClaimCall(key, reclaimStale, epoch) => var x := ClaimEffect(st, key, epoch, reclaimStale); (x.0, Claimed(x.1))
    case CommitCall(key, epoch) => var x := CommitEffect(st, key, epoch); (x.0, Unit(x.1))
    case RevertCall(key, epoch) => var x := RevertEffect(st, key, epoch); (x.0, Unit(x.1))
  }

  function RunRedis(r: Redis, calls: seq<Call>): (Redis, seq<Reply>) {
    if calls == [] then (r, [])
    else
      var (r1, replies) := RunRedis(r, calls[..|calls| - 1]);
      var (r2, reply) := OnRedis(r1, calls[|calls| - 1]);
      (r2, replies + [reply])
  }

  function RunInMemory(st: Store, calls: seq<Call>): (Store, seq<Reply>) {
    if calls == [] then (st, [])
    else
      var (st1, replies) := RunInMemory(st, calls[..|calls| - 1]);
      var (st2, reply) := InMemory(st1, calls[|calls| - 1]);
      (st2, replies + [reply])
  }

  ghost predicate WellKeyed(call: Call) {
    call.WriteCall? ==> Distinct(call.batch)
  }

  ghost predicate Sound(r: Redis) {
    Valid(r) && forall k :: k in r.dp ==> r.dp[k].identity == k
  }

  /**
   * Redis simulates the in-memory store: over any sequence of calls whose direct writes hold each identity at
   * most once, both give the same replies, rejections included, and end in the same state, so that every
   * change set read from the hashes is the one the in-memory store gives.
   */
  lemma {:induction false} RedisSimulatesMemory(calls: seq<Call>, since: nat)
    requires forall c :: c in calls ==> WellKeyed(c)
    ensures var (r, replies) := RunRedis(BLANK, calls);
      && (Meaning(r), replies) == RunInMemory(EMPTY, calls)
      && ChangesSince(r, since) == ChangeSetSince(RunInMemory(EMPTY, calls).0, since)
      && Sound(r)
  {
    hide OnRedis, InMemory, Sound, Meaning, WellKeyed;
    var (r, _) := RunRedis(BLANK, calls);
    ChangesSimulate(r, since);
    if calls == [] {
      BlankIsEmpty();
    } else {
      RedisSimulatesMemory(calls[..|calls| - 1], since);
      CallSimulates(RunRedis(BLANK, calls[..|calls| - 1]).0, calls[|calls| - 1]);
    }
  }

  lemma CallSimulates(r: Redis, call: Call)
    requires Sound(r) && WellKeyed(call)
    ensures var (r', reply) := OnRedis(r, call); Sound(r') && (Meaning(r'), reply) == InMemory(Meaning(r), call)
  {
    hide Meaning, WriteMerged, ApplyTriples, Write, ApplyResolved, SetWatermark, ClaimEffect, CommitEffect, RevertEffect;
    hide SetFingerprint, PrintScript, MarkScript, ClaimScript, CommitScript, RevertScript, Sound, Valid;
    match call
    case WriteCall(batch, epoch) => WriteCallSimulates(r, batch, epoch);
    case ApplyCall(added, updated, epoch) =>
      ApplyCallSimulates(r, added, updated, epoch);
    case MarkCall(id, revision, epoch) =>
      WatermarkSimulates(r, epoch, id, revision);
      MarkSound(r, epoch, id, revision);
    case PrintCall(value, epoch) =>
      PrintSimulates(r, epoch, value);
      PrintSound(r, epoch, value);
    case ClaimCall(key, reclaimStale, epoch) =>
      ClaimSimulates(r, epoch, key, reclaimStale);
      ClaimSound(r, epoch, key, reclaimStale);
    case CommitCall(key, epoch) =>
      CommitSimulates(r, epoch, key);
      CommitSound(r, epoch, key);
    case RevertCall(key, epoch) =>
      RevertSimulates(r, epoch, key);
      RevertSound(r, epoch, key);
  }

  lemma MarkSound(r: Redis, epoch: nat, id: string, revision: nat)
    requires Sound(r)
    ensures Sound(MarkScript(r, epoch, id, revision).0)
  {
  }

  lemma PrintSound(r: Redis, epoch: nat, value: string)
    requires Sound(r)
    ensures Sound(PrintScript(r, epoch, value).0)
  {
  }

  lemma ClaimSound(r: Redis, epoch: nat, key: string, reclaimStale: bool)
    requires Sound(r)
    ensures Sound(ClaimScript(r, epoch, key, reclaimStale).0)
  {
  }

  lemma CommitSound(r: Redis, epoch: nat, key: string)
    requires Sound(r)
    ensures Sound(CommitScript(r, epoch, key).0)
  {
  }

  lemma RevertSound(r: Redis, epoch: nat, key: string)
    requires Sound(r)
    ensures Sound(RevertScript(r, epoch, key).0)
  {
  }

  lemma BlankIsEmpty()
    ensures Sound(BLANK) && Meaning(BLANK) == EMPTY
  {
  }

  lemma ApplyCallSimulates(r: Redis, added: seq<DataPoint>, updated: seq<DataPoint>, epoch: nat)
    requires Sound(r)
    ensures var (r', reply) := ApplyTriples(r, added, updated, epoch);
      Sound(r') && (Meaning(r'), reply) == ApplyResolved(Meaning(r), added, updated, epoch)
  {
    hide Meaning, ApplyResolved, WriteScript;
    ApplySimulates(r, added, updated, epoch);
    WriteKeepsSound(r, ResolvedTriples(added, updated), epoch);
  }

  lemma WriteCallSimulates(r: Redis, batch: seq<DataPoint>, epoch: nat)
    requires Sound(r) && Distinct(batch)
    ensures var (r', reply) := WriteMerged(r, batch, epoch); Sound(r') && (Meaning(r'), reply) == Write(Meaning(r), batch, epoch)
  {
    hide Meaning, Write, LastIsLatest, WriteScript, Triples;
    WriteAgreesIff(r, batch, epoch);
    forall k ensures EndsLatest(r.dp, batch, k) {
      DistinctAgrees(r.dp, batch, k);
      LastIsLatestIff(r.dp, batch, k);
    }
    TriplesKeyed(r.dp, batch);
    WriteKeepsSound(r, Triples(r.dp, batch), epoch);
  }

  lemma {:induction false} TriplesKeyed(current: View, batch: seq<DataPoint>)
    requires forall k :: k in current ==> current[k].identity == k
    ensures forall t :: t in Triples(current, batch) ==> t.dp.identity == t.identity
  {
    if batch != [] { TriplesKeyed(current, batch[..|batch| - 1]); }
  }

  lemma WriteKeepsSound(r: Redis, ts: seq<Triple>, epoch: nat)
    requires Sound(r) && forall t :: t in ts ==> t.dp.identity == t.identity
    ensures Sound(WriteScript(r, epoch, ts).0)
  {
    if !Stale(r, epoch) && ts != [] {
      PutKeepsSound(Fence(r, epoch).(rev := Some(OrZero(r.rev) + 1)), ts, OrZero(r.rev) + 1);
    }
  }

  lemma {:induction false} PutKeepsSound(r: Redis, ts: seq<Triple>, rev: nat)
    requires Sound(r) && forall t :: t in ts ==> t.dp.identity == t.identity
    ensures Sound(PutTriples(r, ts, rev))
  {
    if ts != [] {
      PutKeepsSound(r, ts[..|ts| - 1], rev);
      assert ts[|ts| - 1] in ts;
    }
  }
}
