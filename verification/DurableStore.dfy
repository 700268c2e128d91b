/** Durable outputs under optimistic concurrency, and the read-then-write helpers that race on them. */
module DurableStore {
  import opened Prelude

  datatype Status = InProgress | Final

  datatype Document = Document(content: string, version: nat, status: Status)

  datatype Key = Key(table: string, id: string)

  datatype Durable = Durable(documents: map<Key, Document>, maxEpoch: map<Key, nat>)

  datatype Reply = Written(version: nat) | Current(version: nat) | Conflict | StaleEpoch

  function VersionAt(d: Durable, key: Key): nat {
    match At(d.documents, key) case None => 0 case Some(doc) => doc.version
  }

  /** The fence is raised even when the version then conflicts. */
  function Upsert(d: Durable, key: Key, content: string, expected: nat, epoch: nat, status: Status): (Durable, Reply) {
    if epoch < Count(d.maxEpoch, key) then (d, StaleEpoch)
    else
      var fenced := d.(maxEpoch := d.maxEpoch[key := epoch]);
      var version := VersionAt(d, key);
      if version != expected then (fenced, Conflict)
      else (fenced.(documents := d.documents[key := Document(content, version + 1, status)]), Written(version + 1))
  }

  /** An interim refresh of an output that is already final writes nothing. */
  predicate StandsDown(d: Durable, key: Key, isFinal: bool) {
    !isFinal && key in d.documents && d.documents[key].status.Final?
  }

  // ----- helpers racing: each reads, then writes later, guarded by the version it read -----

  /** A helper between its read and its write; `seen` is the document it read. */
  datatype Helper = Helper(key: Key, content: string, isFinal: bool, epoch: nat, seen: Option<Document>)

  datatype World = World(
    durable: Durable,
    helpers: map<string, Helper>,
    accepted: map<Key, nat>)          // how many upserts of each key were accepted

  datatype Step =
    | Read(pid: string, key: Key, content: string, isFinal: bool, epoch: nat)
    | Write(pid: string)
    | Fence(key: Key, epoch: nat)     // any other guarded write of the output: a set-add
    | Stop(pid: string)

  predicate Enabled(w: World, step: Step) {
    match step
    case Read(pid, _, _, _, _) => pid !in w.helpers
    case Write(pid) => pid in w.helpers
    case Fence(key, epoch) => true
    case Stop(pid) => pid in w.helpers
  }

  function Expected(h: Helper): nat {
    match h.seen case None => 0 case Some(doc) => doc.version
  }

  function Next(w: World, step: Step): World
    requires Enabled(w, step)
  {
    match step
    case Read(pid, key, content, isFinal, epoch) =>
      if StandsDown(w.durable, key, isFinal) then w
      else w.(helpers := w.helpers[pid := Helper(key, content, isFinal, epoch, At(w.durable.documents, key))])
    case Write(pid) =>
      var h := w.helpers[pid];
      var (durable, reply) := Upsert(w.durable, h.key, h.content, Expected(h), h.epoch, if h.isFinal then Final else InProgress);
      World(durable, w.helpers - {pid}, if reply.Written? then w.accepted[h.key := Count(w.accepted, h.key) + 1] else w.accepted)
    case Fence(key, epoch) =>
      if epoch < Count(w.durable.maxEpoch, key) then w
      else w.(durable := w.durable.(maxEpoch := w.durable.maxEpoch[key := epoch]))
    case Stop(pid) => w.(helpers := w.helpers - {pid})
  }

  const START := World(Durable(map[], map[]), map[], map[])

  ghost predicate StepsTo(v: World, step: Step, w: World) {
    Enabled(v, step) && w == Next(v, step)
  }

  ghost predicate IsRun(steps: seq<Step>, trace: seq<World>) {
    && |trace| == |steps| + 1 && trace[0] == START
    && forall i :: 0 <= i < |steps| ==> StepsTo(trace[i], steps[i], trace[i + 1])
  }

  /** What a helper read is what is still there, or an older version of it; an interim helper never read a final one. */
  ghost predicate HelperOk(h: Helper, d: Durable) {
    && (h.seen.Some? ==> h.key in d.documents)
    && Expected(h) <= VersionAt(d, h.key)
    && (Expected(h) == VersionAt(d, h.key) ==> h.seen == At(d.documents, h.key))
    && (!h.isFinal && h.seen.Some? ==> !h.seen.value.status.Final?)
  }

  ghost predicate Inv(w: World) {
    && (forall p :: p in w.helpers ==> HelperOk(w.helpers[p], w.durable))
    && (forall key :: VersionAt(w.durable, key) == Count(w.accepted, key))
    && (forall key :: key in w.durable.documents ==> w.durable.documents[key].version >= 1)
  }

  lemma StepKeepsInv(w: World, step: Step)
    requires Inv(w) && Enabled(w, step)
    ensures Inv(Next(w, step))
    ensures forall key :: Advances(At(w.durable.documents, key), At(Next(w, step).durable.documents, key))
  {
    var w' := Next(w, step);
    forall key ensures VersionAt(w'.durable, key) == Count(w'.accepted, key) {
      assert VersionAt(w.durable, key) == Count(w.accepted, key);
    }
  }

  /** One step replaces a document by its next version or leaves it, and never takes a final one back. */
  predicate Advances(before: Option<Document>, after: Option<Document>) {
    before == after
    || (after.Some? && after.value.version == (if before.Some? then before.value.version else 0) + 1
        && (before.Some? && before.value.status.Final? ==> after.value.status.Final?))
  }

  lemma {:induction false} RunKeepsInv(steps: seq<Step>, trace: seq<World>, n: nat)
    requires IsRun(steps, trace) && n < |trace|
    ensures Inv(trace[n])
  {
    hide Next;
    if n == 0 {
      assert Inv(START);
    } else {
      RunKeepsInv(steps, trace, n - 1);
      assert StepsTo(trace[n - 1], steps[n - 1], trace[n]);
      StepKeepsInv(trace[n - 1], steps[n - 1]);
    }
  }

  /**
   * Final is terminal: over any interleaving of the reads and writes of any number of helpers, an output once
   * final stays final, its version never goes back, and the version is the number of accepted upserts.
   */
  lemma {:induction false} FinalIsTerminal(steps: seq<Step>, trace: seq<World>, m: nat, n: nat, key: Key)
    requires IsRun(steps, trace) && m <= n < |trace|
    ensures VersionAt(trace[m].durable, key) <= VersionAt(trace[n].durable, key) == Count(trace[n].accepted, key)
    ensures key in trace[m].durable.documents && trace[m].durable.documents[key].status.Final? ==>
      key in trace[n].durable.documents && trace[n].durable.documents[key].status.Final?
  {
    hide Next, Inv;
    RunKeepsInv(steps, trace, n);
    VersionCounts(trace[n], key);
    if m < n {
      FinalIsTerminal(steps, trace, m, n - 1, key);
      RunKeepsInv(steps, trace, n - 1);
      assert StepsTo(trace[n - 1], steps[n - 1], trace[n]);
      StepKeepsInv(trace[n - 1], steps[n - 1]);
      assert Advances(At(trace[n - 1].durable.documents, key), At(trace[n].durable.documents, key));
    }
  }

  /**
   * No update is lost: a write is accepted exactly when the document is still the one its helper read and no higher
   * epoch has written there, and it is then the next version.
   */
  lemma AcceptedSawCurrent(steps: seq<Step>, trace: seq<World>, n: nat)
    requires IsRun(steps, trace) && n < |steps| && steps[n].Write?
    ensures var w, pid := trace[n], steps[n].pid;
      && pid in w.helpers
      && var h, now := w.helpers[pid], w.durable;
         var accepted := h.seen == At(now.documents, h.key) && (h.key in now.maxEpoch ==> now.maxEpoch[h.key] <= h.epoch);
         && (trace[n + 1].accepted != w.accepted <==> accepted)
         && trace[n + 1].durable.documents ==
              if !accepted then now.documents
              else now.documents[h.key := Document(h.content, if h.seen.Some? then h.seen.value.version + 1 else 1,
                                                   if h.isFinal then Final else InProgress)]
  {
    RunKeepsInv(steps, trace, n);
    assert StepsTo(trace[n], steps[n], trace[n + 1]);
    var w, h := trace[n], trace[n].helpers[steps[n].pid];
    assert HelperOk(h, w.durable);
    assert w.accepted[h.key := Count(w.accepted, h.key) + 1] != w.accepted by {
      assert Count(w.accepted[h.key := Count(w.accepted, h.key) + 1], h.key) == Count(w.accepted, h.key) + 1;
    }
  }

  /** In every run a helper goes on to write exactly when it is the final one or what it read is not final. */
  lemma ReadsUnlessFinal(steps: seq<Step>, trace: seq<World>, n: nat)
    requires IsRun(steps, trace) && n < |steps| && steps[n].Read?
    ensures var step, w, now := steps[n], trace[n], trace[n].durable.documents;
      if !step.isFinal && step.key in now && now[step.key].status.Final? then trace[n + 1] == w
      else trace[n + 1] == w.(helpers := w.helpers[step.pid :=
             Helper(step.key, step.content, step.isFinal, step.epoch, At(now, step.key))])
  {
    assert StepsTo(trace[n], steps[n], trace[n + 1]);
  }

  lemma VersionCounts(w: World, key: Key)
    requires Inv(w)
    ensures VersionAt(w.durable, key) == Count(w.accepted, key)
  {
  }

  /** The store and a helper in their in-place form. */
  class InMemoryDurableStore {
    var documents: map<Key, Document>
    var maxEpoch: map<Key, nat>

    constructor ()
      ensures Value() == START.durable
    {
      documents, maxEpoch := map[], map[];
    }

    function Value(): Durable
      reads this
    {
      Durable(documents, maxEpoch)
    }

    method GuardEpoch(key: Key, epoch: nat) returns (accepted: bool)
      modifies this`maxEpoch
      ensures accepted == (epoch >= Count(old(maxEpoch), key))
      ensures maxEpoch == if accepted then old(maxEpoch)[key := epoch] else old(maxEpoch)
    {
      if epoch < Count(maxEpoch, key) {
        return false;
      }
      maxEpoch := maxEpoch[key := epoch];
      return true;
    }

    method GuardedUpsert(key: Key, content: string, expected: nat, epoch: nat, status: Status) returns (r: Reply)
      modifies this
      ensures (Value(), r) == Upsert(old(Value()), key, content, expected, epoch, status)
    {
      var accepted := GuardEpoch(key, epoch);
      if !accepted {
        return StaleEpoch;
      }
      var version := if key in documents then documents[key].version else 0;
      if version != expected {
        return Conflict;
      }
      documents := documents[key := Document(content, version + 1, status)];
      return Written(version + 1);
    }
  }

  class AggregationHelpers {
    const durable: InMemoryDurableStore
    const epoch: nat
    const isFinal: bool

    constructor (durable: InMemoryDurableStore, epoch: nat, isFinal: bool)
      ensures this.durable == durable && this.epoch == epoch && this.isFinal == isFinal
    {
      this.durable, this.epoch, this.isFinal := durable, epoch, isFinal;
    }

    /**
     * Read, then write what was read's next version. Undisturbed between the two it never conflicts: it stands
     * down on a final output, is refused by the fence, or writes with its own status.
     */
    method UpsertNow(key: Key, content: string) returns (r: Reply)
      modifies durable
      ensures var before := old(durable.documents);
        if !isFinal && key in before && before[key].status.Final? then
          durable.Value() == old(durable.Value()) && r == Current(before[key].version)
        else if key in old(durable.maxEpoch) && epoch < old(durable.maxEpoch)[key] then
          r.StaleEpoch? && durable.Value() == old(durable.Value())
        else
          var version := if key in before then before[key].version + 1 else 1;
          && r == Written(version)
          && durable.documents == before[key := Document(content, version, if isFinal then Final else InProgress)]
    {
      var existing := At(durable.documents, key);
      var expected := if existing.None? then 0 else existing.value.version;
      if !isFinal && existing.Some? && existing.value.status.Final? {
        return Current(existing.value.version);
      }
      r := durable.GuardedUpsert(key, content, expected, epoch, if isFinal then Final else InProgress);
    }
  }
}
