/** The lite session's DataPoint set, revisions and watermarks, and what an operator's delta means. */
module SessionState {
  import opened Prelude
  import opened DataPoints
  import opened KeyedMerge

  datatype Session = Session(entries: Entries, revision: nat, watermarks: map<string, nat>)

  datatype Delta = Delta(added: View, updated: View, newCaps: set<string>, isFirst: bool)

  function Merge(s: Session, batch: seq<DataPoint>): Session {
    var merged := MergeAll(s.entries, batch, s.revision + 1);
    if merged == s.entries then s else s.(entries := merged, revision := s.revision + 1)
  }

  function DeltaFor(s: Session, id: string, previousCaps: set<string>, availableCaps: set<string>): Delta {
    var newCaps := availableCaps - previousCaps;
    if id !in s.watermarks then Delta(ViewOf(s.entries), map[], newCaps, true)
    else
      var w := s.watermarks[id];
      Delta(map k | k in s.entries && s.entries[k].addedRev > w :: s.entries[k].dp,
            map k | k in s.entries && s.entries[k].addedRev <= w < s.entries[k].updatedRev :: s.entries[k].dp,
            newCaps, false)
  }

  /** `views[r]` is the view the session showed at revision `r`; the stamps must tell exactly that story. */
  ghost predicate TellsHistory(s: Session, views: seq<View>) {
    && |views| == s.revision + 1
    && views[s.revision] == ViewOf(s.entries)
    && (forall k :: k in s.entries ==> 1 <= s.entries[k].addedRev <= s.entries[k].updatedRev <= s.revision)
    && (forall r :: 0 <= r <= s.revision ==> AgreesAt(s.entries, views[r], r))
  }

  ghost predicate AgreesAt(es: Entries, view: View, r: nat) {
    && (forall k :: k in view <==> k in es && es[k].addedRev <= r)
    && (forall k :: k in view && es[k].updatedRev <= r ==> view[k] == es[k].dp)
    && (forall k :: k in view && es[k].updatedRev > r ==> Freshened(view[k], es[k].dp))
  }

  /** The same observation, seen again strictly later. */
  ghost predicate Freshened(before: DataPoint, after: DataPoint) {
    before.lastRetrieved < after.lastRetrieved && after == before.(lastRetrieved := after.lastRetrieved)
  }

  function Extend(views: seq<View>, before: Session, after: Session): seq<View> {
    if after.revision == before.revision then views else views + [ViewOf(after.entries)]
  }

  lemma EmptyTellsHistory()
    ensures TellsHistory(Session(map[], 0, map[]), [map[]])
  {
  }

  lemma MergeTellsHistory(s: Session, views: seq<View>, batch: seq<DataPoint>)
    requires TellsHistory(s, views)
    ensures TellsHistory(Merge(s, batch), Extend(views, s, Merge(s, batch)))
  {
    var s', rev := Merge(s, batch), s.revision + 1;
    var views' := Extend(views, s, s');
    forall k ensures MergedTo(s.entries, batch, rev, k, MergeAll(s.entries, batch, rev)) {
      MergeMeaning(s.entries, batch, rev, k);
    }
    MergeAgreesBefore(s.entries, MergeAll(s.entries, batch, rev), batch, rev, views[0], 0);
    if s' != s {
      forall r | 0 <= r <= rev ensures AgreesAt(s'.entries, views'[r], r) {
        if r < rev {
          assert views'[r] == views[r];
          MergeAgreesBefore(s.entries, s'.entries, batch, rev, views[r], r);
        }
      }
    }
  }

  lemma MergeAgreesBefore(es: Entries, es': Entries, batch: seq<DataPoint>, rev: nat, view: View, r: nat)
    requires r < rev && AgreesAt(es, view, r)
    requires forall k :: k in es ==> es[k].addedRev <= es[k].updatedRev < rev
    requires forall k :: MergedTo(es, batch, rev, k, es')
    ensures AgreesAt(es', view, r)
    ensures forall k :: k in es' ==> es'[k].addedRev <= es'[k].updatedRev <= rev
    ensures forall k :: k in es ==> k in es' && es'[k].addedRev == es[k].addedRev
    ensures forall k :: k in es' && k !in es ==> es'[k].addedRev == rev
  {
    forall k | k in es
      ensures k in es' && es'[k].addedRev == es[k].addedRev
      ensures es[k].dp.lastRetrieved <= es'[k].dp.lastRetrieved
      ensures es'[k].dp == es[k].dp.(lastRetrieved := es'[k].dp.lastRetrieved)
      ensures es'[k].updatedRev == if es'[k].dp == es[k].dp then es[k].updatedRev else rev
    {
      assert MergedTo(es, batch, rev, k, es');
      LatestIsMaximum(batch, k, es[k].dp.lastRetrieved);
    }
    forall k | k in es' ensures k !in es ==> es'[k].addedRev == es'[k].updatedRev == rev {
      assert MergedTo(es, batch, rev, k, es');
    }
  }

  /**
   * Delta exactness: against the view at the operator's watermark, `added` is what that view did not hold,
   * `updated` is what it held with an older time, and the two laid over that view give the current one.
   */
  lemma DeltaIsExact(s: Session, views: seq<View>, id: string, previousCaps: set<string>, availableCaps: set<string>)
    requires TellsHistory(s, views) && id in s.watermarks && s.watermarks[id] <= s.revision
    ensures var delta, now, seen := DeltaFor(s, id, previousCaps, availableCaps), ViewOf(s.entries), views[s.watermarks[id]];
      && delta.added == (map k | k in now && k !in seen :: now[k])
      && delta.updated == (map k | k in now && k in seen && seen[k].lastRetrieved < now[k].lastRetrieved :: now[k])
      && seen + delta.added + delta.updated == now
  {
    var w := s.watermarks[id];
    assert AgreesAt(s.entries, views[w], w);
    hide TellsHistory;
    SplitIsExact(s.entries, views[w], w);
  }

  lemma SplitIsExact(es: Entries, seen: View, w: nat)
    requires AgreesAt(es, seen, w)
    ensures var now := ViewOf(es);
      var added := map k | k in es && es[k].addedRev > w :: es[k].dp;
      var updated := map k | k in es && es[k].addedRev <= w < es[k].updatedRev :: es[k].dp;
      && added == (map k | k in now && k !in seen :: now[k])
      && updated == (map k | k in now && k in seen && seen[k].lastRetrieved < now[k].lastRetrieved :: now[k])
      && seen + added + updated == now
  {
  }

  /** The in-place form. */
  class SessionStore {
    var entries: Entries
    var revision: nat
    var watermarks: map<string, nat>

    constructor ()
      ensures Value() == Session(map[], 0, map[])
    {
      entries, revision, watermarks := map[], 0, map[];
    }

    function Value(): Session
      reads this
    {
      Session(entries, revision, watermarks)
    }

    method MergeBatch(batch: seq<DataPoint>) returns (changed: bool)
      modifies this
      ensures Value() == Merge(old(Value()), batch)
      ensures changed <==> exists d :: d in batch && !Covered(old(entries), d)
    {
      var nextRevision := revision + 1;
      changed := false;
      for i := 0 to |batch|
        invariant entries == MergeAll(old(entries), batch[..i], nextRevision)
        invariant revision == old(revision) && watermarks == old(watermarks)
        invariant changed <==> entries != old(entries)
      {
        var d := batch[i];
        assert batch[..i + 1][..i] == batch[..i];
        NoOpIffCovered(old(entries), batch[..i], nextRevision);
        NoOpIffCovered(old(entries), batch[..i + 1], nextRevision);
        if d.identity !in entries {
          entries := entries[d.identity := Entry(d, nextRevision, nextRevision)];
          changed := true;
        } else if d.lastRetrieved > entries[d.identity].dp.lastRetrieved {
          var existing := entries[d.identity];
          entries := entries[d.identity := Entry(existing.dp.Reobserved(d.lastRetrieved), existing.addedRev, nextRevision)];
          changed := true;
        }
      }
      assert batch[..|batch|] == batch;
      NoOpIffCovered(old(entries), batch, nextRevision);
      if changed {
        revision := nextRevision;
      }
    }

    method AdvanceWatermark(id: string, rev: nat)
      modifies this`watermarks
      ensures Value() == old(Value()).(watermarks := old(watermarks)[id := rev])
    {
      watermarks := watermarks[id := rev];
    }
  }
}
