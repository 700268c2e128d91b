/**
 * Several pods competing for one session: the lock mints epochs, the store's fence admits them, and each pod
 * works through its own mirror. Every step is one atomic stretch between awaits; a pod may stall anywhere.
 */
module FencedPods {
  import opened Prelude
  import opened DataPoints
  import opened KeyedMerge
  import S = DataPointStore
  import opened DataPointStore
  import L = SessionLock
  import opened Mirror

  datatype Pod =
    | Idle
    | Holding(epoch: nat)                                                   // granted, nothing read yet
    | Reading(epoch: nat, view: View)                                       // rehydrating: snapshot read, revision not
    | Live(epoch: nat, mirror: Local)
    | Sending(epoch: nat, mirror: Local, batch: seq<DataPoint>, resolved: Resolution)   // resolved, not yet applied

  datatype World = World(
    lock: L.Lock,
    now: real,
    store: Store,
    pods: map<string, Pod>,
    minted: seq<nat>,        // every epoch granted
    accepted: seq<nat>,      // the epoch of every guarded store operation accepted
    completed: seq<nat>)     // the epoch of every accepted completion
  {
    function At(p: string): Pod {
      if p in pods then pods[p] else Idle
    }

    function Set(p: string, pod: Pod): World {
      this.(pods := pods[p := pod])
    }

    /** The outcome of a guarded store operation. */
    function Guarded<T>(after: (Store, Result<T>), epoch: nat): World {
      this.(store := after.0, accepted := if after.1.Ok? then accepted + [epoch] else accepted)
    }
  }

  datatype Step =
    | Tick(elapsed: real)
    | Acquire(p: string, ttl: real)
    | Renew(p: string, ttl: real)
    | Release(p: string)
    | Fence(p: string, fingerprint: string)            // a guarded write before anything is read
    | ReadSnapshot(p: string)
    | ReadRevision(p: string)
    | PrimeBaseline(p: string, since: nat)
    | Send(p: string, batch: seq<DataPoint>)
    | Deliver(p: string)
    | AdvanceMark(p: string, id: string, rev: nat)     // a guarded write that leaves the entries alone
    | Complete(p: string)
    | Crash(p: string)

  /** A pod reads only once the store's fence has reached its epoch. */
  ghost predicate Enabled(w: World, step: Step) {
    match step
    case Tick(elapsed) => elapsed >= 0.0
    case Acquire(p, _) => w.At(p).Idle?
    case Renew(p, _) => !w.At(p).Idle?
    case Release(p) => !w.At(p).Idle?
    case Fence(p, _) => w.At(p).Holding?
    case ReadSnapshot(p) => w.At(p).Holding? && w.store.maxEpoch >= w.At(p).epoch
    case ReadRevision(p) => w.At(p).Reading?
    case PrimeBaseline(p, _) => w.At(p).Live?
    case Send(p, _) => w.At(p).Live? && Keyed(w.At(p).mirror.entries)
    case Deliver(p) => w.At(p).Sending? && w.At(p).resolved.Valid()
    case AdvanceMark(p, _, _) => w.At(p).Live?
    case Complete(p) => !w.At(p).Idle?
    case Crash(p) => true
  }

  function Next(w: World, step: Step): World
    requires Enabled(w, step)
  {
    match step
    case Tick(elapsed) => w.(now := w.now + elapsed)
    case Acquire(p, ttl) =>
      var (lock, grant) := L.Acquire(w.lock, w.now, ttl);
      if grant.LockHeld? then w
      else w.(lock := lock, minted := w.minted + [grant.epoch]).Set(p, Holding(grant.epoch))
    case Renew(p, ttl) => w.(lock := L.Renew(w.lock, w.At(p).epoch, w.now, ttl).0)
    case Release(p) => w.(lock := L.Release(w.lock, w.At(p).epoch)).Set(p, Idle)
    case Fence(p, fingerprint) => w.Guarded(SetFingerprint(w.store, fingerprint, w.At(p).epoch), w.At(p).epoch)
    case ReadSnapshot(p) => w.Set(p, Reading(w.At(p).epoch, ViewOf(w.store.entries)))
    case ReadRevision(p) => w.Set(p, Live(w.At(p).epoch, Rehydrated(w.At(p).view, w.store.revision)))
    case PrimeBaseline(p, since) => w.Set(p, Live(w.At(p).epoch, Primed(w.At(p).mirror, w.store, since)))
    case Send(p, batch) =>
      w.Set(p, Sending(w.At(p).epoch, w.At(p).mirror, batch, Resolve(w.At(p).mirror.entries, batch)))
    case Deliver(p) => DeliverTo(w, p)
    case AdvanceMark(p, id, rev) => w.Guarded(SetWatermark(w.store, id, rev, w.At(p).epoch), w.At(p).epoch)
    case Complete(p) =>
      var (lock, reply) := L.MarkComplete(w.lock, w.At(p).epoch);
      w.(lock := lock, completed := if reply.Ok? then w.completed + [w.At(p).epoch] else w.completed)
    case Crash(p) => w.Set(p, Idle)
  }

  /** A fenced-off pod stops; an accepted one applies its rows at the revision the store returned. */
  function DeliverTo(w: World, p: string): World
    requires w.At(p).Sending? && w.At(p).resolved.Valid()
  {
    var pod := w.At(p);
    var after := ApplyResolved(w.store, pod.resolved.added.Values(), pod.resolved.updated.Values(), pod.epoch);
    var w1 := w.Guarded(after, pod.epoch);
    match after.1
    case StaleEpoch => w1.Set(p, Idle)
    case Ok(revision) => w1.Set(p, Live(pod.epoch, Mirror.Apply(pod.mirror, pod.resolved, revision)))
  }

  const START := World(L.FREE, 0.0, EMPTY, map[], [], [], [])

  ghost predicate StepsTo(v: World, step: Step, w: World) {
    Enabled(v, step) && w == Next(v, step)
  }

  ghost predicate IsRun(steps: seq<Step>, trace: seq<World>) {
    && |trace| == |steps| + 1 && trace[0] == START
    && forall i :: 0 <= i < |steps| ==> StepsTo(trace[i], steps[i], trace[i + 1])
  }

  // ----- the invariant -----

  /** A pod that has read is in step with the store for as long as the fence stands at its epoch. */
  ghost predicate PodOk(pod: Pod, st: Store, counter: nat) {
    match pod
    case Idle => true
    case Holding(epoch) => epoch <= counter
    case Reading(epoch, view) =>
      && epoch <= counter && epoch <= st.maxEpoch && (forall k :: k in view ==> view[k].identity == k)
      && (epoch == st.maxEpoch ==> view == ViewOf(st.entries))
    case Live(epoch, mirror) =>
      epoch <= counter && epoch <= st.maxEpoch && Keyed(mirror.entries) && (epoch == st.maxEpoch ==> InSync(mirror, st))
    case Sending(epoch, mirror, batch, resolved) =>
      && epoch <= counter && epoch <= st.maxEpoch && Keyed(mirror.entries) && (epoch == st.maxEpoch ==> InSync(mirror, st))
      && resolved == Resolve(mirror.entries, batch)
  }

  ghost predicate Increasing(xs: seq<nat>) {
    forall i, j :: 0 <= i < j < |xs| ==> xs[i] < xs[j]
  }

  ghost predicate Nondecreasing(xs: seq<nat>, last: nat) {
    && (forall i, j :: 0 <= i < j < |xs| ==> xs[i] <= xs[j])
    && (forall i :: 0 <= i < |xs| ==> xs[i] <= last)
  }

  ghost predicate PodsOk(w: World) {
    forall p :: PodOk(w.At(p), w.store, w.lock.counter)
  }

  ghost predicate EpochsDiffer(w: World) {
    forall p, q :: p != q && !w.At(p).Idle? && !w.At(q).Idle? ==> w.At(p).epoch != w.At(q).epoch
  }

  ghost predicate LogsOk(w: World) {
    && Increasing(w.minted) && (forall i :: 0 <= i < |w.minted| ==> w.minted[i] <= w.lock.counter)
    && (if w.minted == [] then w.lock.counter == 0 else w.minted[|w.minted| - 1] == w.lock.counter)
    && Nondecreasing(w.accepted, w.store.maxEpoch) && w.store.maxEpoch <= w.lock.counter
  }

  ghost predicate Inv(w: World) {
    S.Valid(w.store) && L.Valid(w.lock) && PodsOk(w) && EpochsDiffer(w) && LogsOk(w)
  }

  /** A guarded operation by one pod leaves the others in step: their epochs differ from the one accepted. */
  lemma OthersOk(w: World, st: Store, p: string, q: string)
    requires Inv(w) && p != q && !w.At(p).Idle?
    requires w.At(p).epoch >= w.store.maxEpoch && st.maxEpoch == w.At(p).epoch
    ensures PodOk(w.At(q), st, w.lock.counter)
  {
    hide InSync;
    assert PodOk(w.At(q), w.store, w.lock.counter);
  }

  lemma SameEntriesInSync(m: Local, st: Store, st': Store)
    requires InSync(m, st) && st'.entries == st.entries && st'.revision == st.revision
    ensures InSync(m, st')
  {
    hide EntriesAgree, BaselineOk;
  }

  /** A guarded write that leaves the entries alone. */
  lemma QuietWriteKeepsInv(w: World, p: string, st: Store)
    requires Inv(w) && (w.At(p).Holding? || w.At(p).Live?)
    requires w.At(p).epoch >= w.store.maxEpoch
    requires st.entries == w.store.entries && st.revision == w.store.revision && st.maxEpoch == w.At(p).epoch
    ensures Inv(w.(store := st, accepted := w.accepted + [w.At(p).epoch]))
  {
    hide InSync;
    var w' := w.(store := st, accepted := w.accepted + [w.At(p).epoch]);
    assert PodOk(w.At(p), w.store, w.lock.counter);
    assert forall q :: w'.At(q) == w.At(q);
    forall q ensures PodOk(w'.At(q), st, w.lock.counter) {
      if q == p {
        if w.At(p).Live? { SameEntriesInSync(w.At(p).mirror, w.store, st); }
      } else {
        OthersOk(w, st, p, q);
      }
    }
    assert S.Valid(st);
  }

  /** Changing one pod to one that is in step, under the same epoch or none. */
  lemma PodStepKeepsInv(w: World, p: string, pod: Pod)
    requires Inv(w) && PodOk(pod, w.store, w.lock.counter)
    requires pod.Idle? || (!w.At(p).Idle? && pod.epoch == w.At(p).epoch)
    ensures Inv(w.Set(p, pod))
  {
    hide PodOk;
    var w' := w.Set(p, pod);
    forall q ensures PodOk(w'.At(q), w.store, w.lock.counter) {
      assert w'.At(q) == if q == p then pod else w.At(q);
    }
    forall q, r | q != r && !w'.At(q).Idle? && !w'.At(r).Idle? ensures w'.At(q).epoch != w'.At(r).epoch {
      assert w'.At(q) == if q == p then pod else w.At(q);
      assert w'.At(r) == if r == p then pod else w.At(r);
    }
  }

  lemma AcquireKeepsInv(w: World, p: string, ttl: real)
    requires Inv(w) && w.At(p).Idle?
    ensures Inv(Next(w, Acquire(p, ttl)))
  {
    hide InSync;
    var w' := Next(w, Acquire(p, ttl));
    if w' != w {
      var epoch := w.lock.counter + 1;
      forall q ensures PodOk(w'.At(q), w.store, epoch) && (q != p ==> w'.At(q) == w.At(q)) {
        assert PodOk(w.At(q), w.store, w.lock.counter);
      }
      forall q, r | q != r && !w'.At(q).Idle? && !w'.At(r).Idle? ensures w'.At(q).epoch != w'.At(r).epoch {
        assert PodOk(w.At(q), w.store, w.lock.counter) && PodOk(w.At(r), w.store, w.lock.counter);
      }
    }
  }

  /**
   * The heart of the protocol: a batch resolved against the mirror, delivered after any delay and accepted,
   * lands as if it had been merged directly into what the store held at that moment.
   */
  lemma DeliverIsWrite(w: World, p: string)
    requires Inv(w) && w.At(p).Sending? && w.At(p).epoch >= w.store.maxEpoch
    ensures w.At(p).resolved.Valid()
    ensures var pod, w' := w.At(p), DeliverTo(w, p);
      && w'.store == Write(w.store, pod.batch, pod.epoch).0 && S.Valid(w'.store)
      && w'.At(p).Live? && w'.At(p).epoch == pod.epoch == w'.store.maxEpoch
      && InSync(w'.At(p).mirror, w'.store) && Keyed(w'.At(p).mirror.entries)
  {
    hide InSync, Write, Resolve, S.Valid;
    var pod := w.At(p);
    assert PodOk(pod, w.store, w.lock.counter);
    WriteThroughIsWrite(pod.mirror, w.store, pod.batch, pod.epoch);
    WriteKeepsValid(w.store, pod.batch, pod.epoch);
  }

  lemma DeliverShape(w: World, p: string)
    requires w.At(p).Sending? && w.At(p).resolved.Valid() && DeliverTo(w, p).At(p).Live? && Accepts(w.store, w.At(p).epoch)
    ensures var pod, w' := w.At(p), DeliverTo(w, p);
      w' == w.(store := w'.store, accepted := w.accepted + [pod.epoch]).Set(p, Live(pod.epoch, w'.At(p).mirror))
  {
    hide Mirror.Apply, PutAdded, PutUpdated;
  }

  /** An accepted delivery: the sender is in step with the new store, and everyone else is out of its way. */
  lemma AcceptKeepsInv(w: World, p: string, mirror: Local, st: Store)
    requires Inv(w) && w.At(p).Sending? && w.At(p).epoch >= w.store.maxEpoch
    requires S.Valid(st) && st.maxEpoch == w.At(p).epoch && InSync(mirror, st) && Keyed(mirror.entries)
    ensures Inv(w.(store := st, accepted := w.accepted + [w.At(p).epoch]).Set(p, Live(w.At(p).epoch, mirror)))
  {
    hide InSync, S.Valid;
    var w' := w.(store := st, accepted := w.accepted + [w.At(p).epoch]).Set(p, Live(w.At(p).epoch, mirror));
    assert PodOk(w.At(p), w.store, w.lock.counter);
    forall q ensures w'.At(q) == if q == p then Live(w.At(p).epoch, mirror) else w.At(q) {
    }
    forall q ensures PodOk(w'.At(q), st, w.lock.counter) {
      if q != p { OthersOk(w, st, p, q); }
    }
    hide PodOk;
    assert EpochsDiffer(w');
  }

  lemma DeliverKeepsInv(w: World, p: string)
    requires Inv(w) && w.At(p).Sending? && w.At(p).resolved.Valid()
    ensures Inv(DeliverTo(w, p))
  {
    hide InSync, Write, Resolve, S.Valid;
    var pod, w' := w.At(p), DeliverTo(w, p);
    assert PodOk(pod, w.store, w.lock.counter);
    if Accepts(w.store, pod.epoch) {
      DeliverIsWrite(w, p);
      DeliverShape(w, p);
      AcceptKeepsInv(w, p, w'.At(p).mirror, w'.store);
    } else {
      PodStepKeepsInv(w, p, Idle);
    }
  }

  lemma StepKeepsInv(w: World, step: Step)
    requires Inv(w) && Enabled(w, step)
    ensures Inv(Next(w, step))
  {
    if step.Acquire? {
      AcquireKeepsInv(w, step.p, step.ttl);
    } else if step.Tick? || step.Renew? || step.Release? || step.Complete? {
      LockStepKeepsInv(w, step);
    } else if step.Deliver? {
      hide Inv, DeliverTo;
      DeliverKeepsInv(w, step.p);
    } else if step.Fence? || step.AdvanceMark? {
      hide Inv;
      if Accepts(w.store, w.At(step.p).epoch) { QuietWriteKeepsInv(w, step.p, Next(w, step).store); }
    } else {
      PodStepKeeps(w, step);
    }
  }

  lemma LockStepKeepsInv(w: World, step: Step)
    requires Inv(w) && Enabled(w, step) && (step.Tick? || step.Renew? || step.Release? || step.Complete?)
    ensures Inv(Next(w, step))
  {
    hide PodOk, S.Valid, EpochsDiffer, LogsOk;
    if step.Release? {
      var w1 := w.(lock := L.Release(w.lock, w.At(step.p).epoch));
      SameButLock(w, w1);
      IdleOk(w1.store, w1.lock.counter);
      PodStepKeepsInv(w1, step.p, Idle);
    } else {
      SameButLock(w, Next(w, step));
    }
  }

  lemma PodStepKeeps(w: World, step: Step)
    requires Inv(w) && Enabled(w, step)
    requires step.ReadSnapshot? || step.ReadRevision? || step.PrimeBaseline? || step.Send? || step.Crash?
    ensures Inv(Next(w, step))
  {
    hide InSync, Resolve, Primed, EpochsDiffer, LogsOk, Keyed;
    var p := step.p;
    var pod := Next(w, step).At(p);
    assert PodOk(w.At(p), w.store, w.lock.counter);
    if step.ReadSnapshot? {
      SnapshotKeyed(w.store);
    } else if step.ReadRevision? {
      RehydratedOk(w.At(p).view, w.store);
    } else if step.PrimeBaseline? {
      PrimedEntries(w.At(p).mirror, w.store, step.since);
      if w.At(p).epoch == w.store.maxEpoch { PrimeKeepsSync(w.At(p).mirror, w.store, step.since); }
    }
    PodStepKeepsInv(w, p, pod);
  }

  lemma IdleOk(st: Store, counter: nat)
    ensures PodOk(Idle, st, counter)
  {
  }

  lemma SnapshotKeyed(st: Store)
    requires S.Valid(st)
    ensures forall k :: k in ViewOf(st.entries) ==> ViewOf(st.entries)[k].identity == k
  {
  }

  lemma PrimedEntries(m: Local, st: Store, since: nat)
    ensures Primed(m, st, since).entries == m.entries
  {
  }

  lemma SameButLock(w: World, w': World)
    requires Inv(w) && L.Valid(w'.lock) && w'.lock.counter == w.lock.counter
    requires w'.store == w.store && w'.pods == w.pods && w'.minted == w.minted && w'.accepted == w.accepted
    ensures Inv(w')
  {
    hide PodOk;
    forall q ensures w'.At(q) == w.At(q) {
      assert PodOk(w.At(q), w.store, w.lock.counter);
    }
  }

  lemma RehydratedOk(view: View, st: Store)
    requires S.Valid(st)
    ensures view == ViewOf(st.entries) ==> InSync(Rehydrated(view, st.revision), st)
    ensures Keyed(Rehydrated(view, st.revision).entries) <== forall k :: k in view ==> view[k].identity == k
  {
    if view == ViewOf(st.entries) { RehydrateSyncs(st); }
  }
}
