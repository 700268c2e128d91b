/** The store's fence, told by the calls alone. */
module StoreFence {
  import opened Prelude
  import opened DataPoints
  import opened KeyedMerge
  import opened DataPointStore
  import opened RedisStore

  function EpochOf(call: Call): nat {
    match call
    case WriteCall(_, epoch) => epoch
    case ApplyCall(_, _, epoch) => epoch
    case MarkCall(_, _, epoch) => epoch
    case PrintCall(_, epoch) => epoch
    case ClaimCall(_, _, epoch) => epoch
    case CommitCall(_, epoch) => epoch
    case RevertCall(_, epoch) => epoch
  }

  predicate Rejected(reply: Reply) {
    match reply
    case Revision(r) => r.StaleEpoch?
    case Claimed(c) => c.StaleEpoch?
    case Unit(u) => u.StaleEpoch?
  }

  /** The fence stands at the highest epoch that ever called. */
  ghost predicate Highest(fence: nat, calls: seq<Call>) {
    && (forall c :: c in calls ==> EpochOf(c) <= fence)
    && (fence == 0 || exists c :: c in calls && EpochOf(c) == fence)
  }

  lemma CallFenced(st: Store, call: Call)
    ensures var (st', reply) := InMemory(st, call);
      && (Rejected(reply) <==> EpochOf(call) < st.maxEpoch)
      && st'.maxEpoch == Max(st.maxEpoch, EpochOf(call))
      && (Rejected(reply) ==> st' == st)
  {
    hide MergeAll, PutAdded, PutUpdated;
  }

  lemma {:induction false} FenceIsHighest(calls: seq<Call>)
    ensures Highest(RunInMemory(EMPTY, calls).0.maxEpoch, calls) && |RunInMemory(EMPTY, calls).1| == |calls|
  {
    hide InMemory;
    if calls != [] {
      var init, last := calls[..|calls| - 1], calls[|calls| - 1];
      assert calls == init + [last];
      FenceIsHighest(init);
      CallFenced(RunInMemory(EMPTY, init).0, last);
    }
  }

  /**
   * Whatever calls came before, of whatever kind: a call is rejected exactly when one of them had a higher epoch, and
   * a rejected call changes nothing. Redis replies the same.
   */
  lemma RejectedIffSuperseded(calls: seq<Call>, call: Call)
    ensures var st := RunInMemory(EMPTY, calls).0; var (st', reply) := InMemory(st, call);
      && (Rejected(reply) <==> exists c :: c in calls && EpochOf(c) > EpochOf(call))
      && (Rejected(reply) ==> st' == st)
    ensures (forall c :: c in calls + [call] ==> WellKeyed(c)) ==>
      (Rejected(OnRedis(RunRedis(BLANK, calls).0, call).1) <==> exists c :: c in calls && EpochOf(c) > EpochOf(call))
  {
    hide InMemory, OnRedis, Meaning, Sound, WellKeyed, Rejected;
    FenceIsHighest(calls);
    CallFenced(RunInMemory(EMPTY, calls).0, call);
    if forall c :: c in calls + [call] ==> WellKeyed(c) {
      assert call in calls + [call];
      forall c | c in calls ensures WellKeyed(c) { assert c in calls + [call]; }
      RedisSimulatesMemory(calls, 0);
      CallSimulates(RunRedis(BLANK, calls).0, call);
    }
  }

  /** The `i`-th call had the highest epoch so far, so it was accepted. */
  ghost predicate Counts(calls: seq<Call>, i: nat)
    requires i < |calls|
  {
    forall j :: 0 <= j < i ==> EpochOf(calls[j]) <= EpochOf(calls[i])
  }

  /** What each accepted call wrote under a watermark's name. */
  ghost function MarksOf(calls: seq<Call>, id: string): seq<Option<nat>> {
    seq(|calls|, i requires 0 <= i < |calls| =>
      if calls[i].MarkCall? && calls[i].id == id && Counts(calls, i) then Some(calls[i].revision) else None)
  }

  /** ... and as the fingerprint. */
  ghost function PrintsOf(calls: seq<Call>): seq<Option<string>> {
    seq(|calls|, i requires 0 <= i < |calls| =>
      if calls[i].PrintCall? && Counts(calls, i) then Some(calls[i].fingerprint) else None)
  }

  /** The last value written, none if none was. */
  ghost predicate IsLast<T>(written: seq<Option<T>>, value: Option<T>) {
    || (value.None? && forall i :: 0 <= i < |written| ==> written[i].None?)
    || (value.Some? && exists i :: 0 <= i < |written| && written[i] == value && forall j :: i < j < |written| ==> written[j].None?)
  }

  lemma LastNext<T>(written: seq<Option<T>>, value: Option<T>, next: Option<T>)
    requires IsLast(written, value)
    ensures IsLast(written + [next], if next.Some? then next else value)
  {
    var more := written + [next];
    if next.Some? {
      assert more[|written|] == next;
    } else if value.Some? {
      var i :| 0 <= i < |written| && written[i] == value && forall j :: i < j < |written| ==> written[j].None?;
      assert more[i] == value;
    }
  }

  lemma CallWrites(st: Store, call: Call, id: string)
    ensures var st' := InMemory(st, call).0; var accepted := EpochOf(call) >= st.maxEpoch;
      && At(st'.watermarks, id) ==
           (if accepted && call.MarkCall? && call.id == id then Some(call.revision) else At(st.watermarks, id))
      && st'.fingerprint == if accepted && call.PrintCall? then Some(call.fingerprint) else st.fingerprint
  {
    hide MergeAll, PutAdded, PutUpdated;
  }

  /** After any calls, each watermark and the fingerprint are what the last accepted call that wrote them wrote. */
  lemma {:induction false} FieldsAreLastWritten(calls: seq<Call>, id: string)
    ensures var st := RunInMemory(EMPTY, calls).0;
      IsLast(MarksOf(calls, id), At(st.watermarks, id)) && IsLast(PrintsOf(calls), st.fingerprint)
  {
    hide InMemory, IsLast;
    if calls == [] {
      NothingWritten(id);
    } else {
      var init, last := calls[..|calls| - 1], calls[|calls| - 1];
      assert calls == init + [last];
      FieldsAreLastWritten(init, id);
      FenceIsHighest(init);
      var st := RunInMemory(EMPTY, init).0;
      CallWrites(st, last, id);
      CountsByFence(init, last, st.maxEpoch);
      assert forall i :: 0 <= i < |init| ==> (Counts(init, i) <==> Counts(calls, i));
      assert MarksOf(calls, id) == MarksOf(init, id) + [MarksOf(calls, id)[|init|]];
      assert PrintsOf(calls) == PrintsOf(init) + [PrintsOf(calls)[|init|]];
      LastNext(MarksOf(init, id), At(st.watermarks, id), MarksOf(calls, id)[|init|]);
      LastNext(PrintsOf(init), st.fingerprint, PrintsOf(calls)[|init|]);
    }
  }

  lemma NothingWritten(id: string)
    ensures IsLast(MarksOf([], id), None) && IsLast(PrintsOf([]), None)
  {
  }

  lemma CountsByFence(calls: seq<Call>, call: Call, fence: nat)
    requires Highest(fence, calls)
    ensures Counts(calls + [call], |calls|) <==> EpochOf(call) >= fence
  {
    var more := calls + [call];
    assert forall j :: 0 <= j < |calls| ==> more[j] == calls[j] && calls[j] in calls;
    if fence > 0 {
      var c :| c in calls && EpochOf(c) == fence;
      var j :| 0 <= j < |calls| && calls[j] == c;
      assert more[j] == c;
    }
  }
}
