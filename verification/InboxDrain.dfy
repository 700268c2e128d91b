/** Draining the inbox into the session: what becomes of every entry, whatever fails along the way. */
module InboxDrain {
  import opened Prelude
  import opened DataPoints
  import opened KeyedMerge
  import opened DataPointStore
  import opened Inbox
  import MemoryStore
  import MemoryInbox

  /** What happens at one await: producers append, a successor may raise the fences, and the step may fail. */
  datatype Moment = Moment(arrivals: seq<Payload>, takeover: nat, crash: bool, fails: bool)

  const QUIET := Moment([], 0, false, false)

  datatype Outcome = Returned | Crashed | Fenced | Raised

  /** What the drain can see and change: the inbox's messages and records, and the store's entries; `refused` are the entries whose own store call failed. */
  datatype Snap = Snap(messages: seq<Message>, quarantined: seq<Record>, acked: set<nat>, entries: Entries, refused: set<nat>)

  /** The delivery a message gets when it is next handed over. */
  function NextDelivery(m: Message): Delivered
    requires Parses(m)
  {
    DeliveryOf(m.(claimed := true, deliveryCount := m.deliveryCount + 1))
  }

  predicate Waiting(s: Snap, e: Delivered) {
    var m := Lookup(s.messages, e.id);
    m.Some? && m.value.claimed && m.value.id == e.id && Parses(m.value) && DeliveryOf(m.value) == e
  }

  /** Merged into the store, then acked. */
  predicate Applied(s: Snap, e: Delivered) {
    e.Entry? && e.id in s.acked && Covered(s.entries, e.dp)
  }

  /** Out of delivery with a record: malformed bytes at once, a failing entry only at the delivery cap. */
  predicate SetAside(s: Snap, e: Delivered, cap: nat) {
    (e.Entry? ==> e.deliveryCount >= cap)
    && exists q :: q in s.quarantined && q.id == e.id && q.deliveryCount == e.deliveryCount && (e.Poison? ==> q.reason == e.error)
  }

  /** Still claimed, to be delivered again, below the cap. */
  predicate Retrying(s: Snap, e: Delivered, cap: nat) {
    e.Entry? && Waiting(s, e) && e.deliveryCount < cap
  }

  /** Applied, unless it is malformed or its own store call failed. */
  predicate Settled(s: Snap, e: Delivered, cap: nat) {
    || Applied(s, e)
    || (e.Poison? && SetAside(s, e, cap))
    || (e.id in s.refused && (SetAside(s, e, cap) || Retrying(s, e, cap)))
  }

  /** Only the touched entries' messages may go; records, acks and merged data only grow. */
  ghost predicate Moves(s: Snap, s': Snap, touched: set<nat>) {
    && (forall x: nat :: x !in touched && Lookup(s.messages, x).Some? ==> Lookup(s'.messages, x) == Lookup(s.messages, x))
    && (forall q :: q in s.quarantined ==> q in s'.quarantined)
    && s.acked <= s'.acked && s.refused <= s'.refused
    && (forall d :: Covered(s.entries, d) ==> Covered(s'.entries, d))
  }

  lemma MovesKeeps(s: Snap, s': Snap, touched: set<nat>, e: Delivered, cap: nat)
    requires Moves(s, s', touched) && e.id !in touched
    ensures Waiting(s, e) ==> Waiting(s', e)
    ensures Settled(s, e, cap) ==> Settled(s', e, cap)
  {
  }

  lemma SetAsideStays(s: Snap, s': Snap, touched: set<nat>, e: Delivered, cap: nat)
    requires Moves(s, s', touched) && SetAside(s, e, cap)
    ensures SetAside(s', e, cap)
  {
  }

  lemma SetAsideSettles(s: Snap, e: Delivered, cap: nat)
    requires SetAside(s, e, cap) && e.Poison?
    ensures Settled(s, e, cap)
  {
  }

  lemma MovesNothing(s: Snap, touched: set<nat>)
    ensures Moves(s, s, touched)
  {
  }

  lemma MovesThen(s: Snap, m: Snap, s': Snap, a: set<nat>, b: set<nat>)
    requires Moves(s, m, a) && Moves(m, s', b)
    ensures Moves(s, s', a + b)
  {
    forall x: nat | x !in a + b && Lookup(s.messages, x).Some? ensures Lookup(s'.messages, x) == Lookup(s.messages, x) {
      assert Lookup(m.messages, x) == Lookup(s.messages, x);
    }
  }

  /** Whatever was acked had been merged. */
  ghost predicate AckedAreMerged(acked: set<nat>, appended: seq<Payload>, es: Entries) {
    forall id :: id in acked ==> id < |appended| && appended[id].Good? && Covered(es, appended[id].dp)
  }

  datatype BatchWrite = BatchWrite(batch: seq<DataPoint>, epoch: nat)

  function WriteEach(st: Store, writes: seq<BatchWrite>): Store {
    if writes == [] then st
    else Write(WriteEach(st, writes[..|writes| - 1]), writes[|writes| - 1].batch, writes[|writes| - 1].epoch).0
  }

  /**
   * Redelivery is idempotent: once a batch was merged, then after any later writes, by anyone, writing any part
   * of it again, in any order, leaves the entries and the revision alone.
   */
  lemma RedeliveryIsNoOp(st: Store, first: BatchWrite, later: seq<BatchWrite>, again: BatchWrite)
    requires Accepts(st, first.epoch) && forall d :: d in again.batch ==> d in first.batch
    ensures var now := WriteEach(Write(st, first.batch, first.epoch).0, later);
      Accepts(now, again.epoch) ==> Write(now, again.batch, again.epoch) == (now.(maxEpoch := again.epoch), Ok(now.revision))
  {
    var merged := Write(st, first.batch, first.epoch).0;
    var now := WriteEach(merged, later);
    forall d | d in again.batch ensures Covered(now.entries, d) {
      MergeCovers(st.entries, first.batch, st.revision + 1, d);
      StaysCovered(merged, later, d);
    }
    NoOpIffCovered(now.entries, again.batch, now.revision + 1);
  }

  lemma {:induction false} StaysCovered(st: Store, writes: seq<BatchWrite>, d: DataPoint)
    requires Covered(st.entries, d)
    ensures Covered(WriteEach(st, writes).entries, d)
  {
    if writes != [] {
      var before, last := WriteEach(st, writes[..|writes| - 1]), writes[|writes| - 1];
      StaysCovered(st, writes[..|writes| - 1], d);
      CoveredStays(before.entries, last.batch, before.revision + 1, d);
    }
  }

  // ----- what handing everything over gives -----

  predicate From(ms: seq<Message>, claimed: bool, d: Delivered) {
    exists m :: m in ms && m.claimed == claimed && Parses(m) && d == NextDelivery(m)
  }

  predicate AllParse(ms: seq<Message>, claimed: bool) {
    forall m :: m in ms && m.claimed == claimed ==> Parses(m)
  }

  /** Each delivery comes from a message handed over, and each such message is delivered. */
  lemma {:induction false} DeliveriesAre(ms: seq<Message>, claimed: bool)
    requires AllParse(ms, claimed)
    ensures forall d :: d in Deliveries(ms, claimed) ==> From(ms, claimed, d)
    ensures forall m :: m in ms && m.claimed == claimed ==> NextDelivery(m) in Deliveries(ms, claimed)
  {
    if ms != [] {
      var init, last := ms[..|ms| - 1], ms[|ms| - 1];
      assert ms == init + [last];
      assert AllParse(init, claimed);
      DeliveriesAre(init, claimed);
      DeliveriesNext(init, last, claimed);
      forall d | d in Deliveries(init, claimed) ensures From(ms, claimed, d) {
        var m :| m in init && m.claimed == claimed && Parses(m) && d == NextDelivery(m);
        assert m in ms;
      }
      assert last in ms;
    }
  }

  /** Deliveries keep the append order. */
  lemma {:induction false} DeliveriesInOrder(ms: seq<Message>, claimed: bool)
    requires Ordered(ms) && AllParse(ms, claimed)
    ensures Increasing(Deliveries(ms, claimed))
  {
    if ms == [] {
      return;
    }
    hide Deliveries, From;
    var init, last := ms[..|ms| - 1], ms[|ms| - 1];
    assert ms == init + [last];
    assert AllParse(init, claimed);
    DeliveriesInOrder(init, claimed);
    DeliveriesNext(init, last, claimed);
    DeliveriesAre(init, claimed);
    var es := Deliveries(init, claimed);
    forall e | e in es ensures e.id < last.id {
      assert From(init, claimed, e);
      FromEarlier(ms, claimed, e);
    }
  }

  lemma FromEarlier(ms: seq<Message>, claimed: bool, e: Delivered)
    requires Ordered(ms) && ms != [] && From(ms[..|ms| - 1], claimed, e)
    ensures e.id < ms[|ms| - 1].id
  {
    var init := ms[..|ms| - 1];
    var m :| m in init && m.claimed == claimed && Parses(m) && e == NextDelivery(m);
    var j :| 0 <= j < |init| && init[j] == m;
    assert ms[j].id < ms[|ms| - 1].id;
  }

  /** Reclaiming, new arrivals, consuming: the messages once all are handed over. */
  ghost predicate Drained(before: seq<Message>, between: seq<Message>, s: Snap) {
    && Ordered(before) && Ordered(between) && AllParse(before, true) && AllParse(between, false)
    && HandAll(before, true) <= between && s.messages == HandAll(between, false)
  }

  /** Every entry delivered is waiting. */
  lemma DrainedWait(before: seq<Message>, between: seq<Message>, s: Snap)
    requires Drained(before, between, s)
    ensures forall e :: e in Deliveries(before, true) + Deliveries(between, false) ==> Waiting(s, e)
  {
    DeliveriesAre(before, true);
    DeliveriesAre(between, false);
    hide Deliveries, Waiting, From;
    forall e | e in Deliveries(before, true) ensures Waiting(s, e) { ReclaimedIs(before, between, s, e); }
    forall e | e in Deliveries(between, false) ensures Waiting(s, e) { ConsumedIs(between, s, e); }
  }

  /** No entry is delivered twice. */
  lemma DrainedOnce(before: seq<Message>, between: seq<Message>, s: Snap)
    requires Drained(before, between, s)
    ensures var es := Deliveries(before, true) + Deliveries(between, false);
      forall i, j :: 0 <= i < j < |es| ==> es[i].id != es[j].id
  {
    hide Deliveries, Waiting, From, HandAll, Held, Increasing;
    var ds, cs := Deliveries(before, true), Deliveries(between, false);
    DeliveriesAre(before, true);
    DeliveriesAre(between, false);
    forall d, c | d in ds && c in cs ensures d.id != c.id {
      ReclaimedIs(before, between, s, d);
      ConsumedIs(between, s, c);
      HeldOnce(between, d.id, c.id);
    }
    DeliveriesInOrder(before, true);
    DeliveriesInOrder(between, false);
    assert Increasing(ds) && Increasing(cs);
    ConcatOnce(ds, cs);
  }

  predicate Increasing(ds: seq<Delivered>) {
    forall i, j :: 0 <= i < j < |ds| ==> ds[i].id < ds[j].id
  }

  lemma ConcatOnce(ds: seq<Delivered>, cs: seq<Delivered>)
    requires Increasing(ds) && Increasing(cs)
    requires forall d, c :: d in ds && c in cs ==> d.id != c.id
    ensures forall i, j :: 0 <= i < j < |ds + cs| ==> (ds + cs)[i].id != (ds + cs)[j].id
  {
    var es := ds + cs;
    forall i, j | 0 <= i < j < |es| ensures es[i].id != es[j].id {
      if i < |ds| <= j { assert ds[i] in ds && cs[j - |ds|] in cs; }
    }
  }

  /** Every message that was there is delivered. */
  lemma DrainedAll(before: seq<Message>, between: seq<Message>, s: Snap)
    requires Drained(before, between, s)
    ensures forall m :: m in before ==> Parses(m) && NextDelivery(m) in Deliveries(before, true) + Deliveries(between, false)
  {
    DeliveriesAre(before, true);
    DeliveriesAre(between, false);
    hide Deliveries;
    forall m | m in before ensures Parses(m) && NextDelivery(m) in Deliveries(before, true) + Deliveries(between, false) {
      AllDelivered(before, between, m);
    }
  }

  /** The messages after `n` drains that dispose of none of them: each hands over the claimed, then the rest. */
  function Rounds(ms: seq<Message>, n: nat): seq<Message> {
    if n == 0 then ms else HandAll(HandAll(Rounds(ms, n - 1), true), false)
  }

  /** An entry's delivery count is how often it was delivered: each drain hands every message over exactly once. */
  lemma {:induction false} CountsDeliveries(ms: seq<Message>, n: nat, i: nat)
    requires i < |ms|
    ensures |Rounds(ms, n)| == |ms|
    ensures var m := Rounds(ms, n)[i];
      && m.id == ms[i].id && m.payload == ms[i].payload && (n > 0 ==> m.claimed)
      && m.deliveryCount == ms[i].deliveryCount + n
  {
    if n > 0 { CountsDeliveries(ms, n - 1, i); }
  }

  predicate Held(ms: seq<Message>, id: nat, claimed: bool) {
    exists m :: m in ms && m.claimed == claimed && m.id == id
  }

  lemma HeldOnce(ms: seq<Message>, a: nat, b: nat)
    requires Ordered(ms) && Held(ms, a, true) && Held(ms, b, false)
    ensures a != b
  {
    var m :| m in ms && m.claimed && m.id == a;
    var n :| n in ms && !n.claimed && n.id == b;
    var i, j :| 0 <= i < |ms| && 0 <= j < |ms| && ms[i] == m && ms[j] == n;
    assert i < j || j < i;
  }

  lemma ReclaimedIs(before: seq<Message>, between: seq<Message>, s: Snap, e: Delivered)
    requires Ordered(between) && HandAll(before, true) <= between && s.messages == HandAll(between, false)
    requires From(before, true, e)
    ensures Waiting(s, e) && Held(between, e.id, true)
  {
    hide Waiting, Lookup;
    var m :| m in before && m.claimed && Parses(m) && e == NextDelivery(m);
    var i :| 0 <= i < |before| && before[i] == m;
    assert between[i] == HandAll(before, true)[i] == Hand(m, true) && between[i] in between;
    HandedIsWaiting(between, s, i, e);
  }

  lemma ConsumedIs(between: seq<Message>, s: Snap, e: Delivered)
    requires Ordered(between) && s.messages == HandAll(between, false) && From(between, false, e)
    ensures Waiting(s, e) && Held(between, e.id, false)
  {
    hide Waiting, Lookup;
    var m :| m in between && !m.claimed && Parses(m) && e == NextDelivery(m);
    var i :| 0 <= i < |between| && between[i] == m;
    HandedIsWaiting(between, s, i, e);
  }

  lemma AllDelivered(before: seq<Message>, between: seq<Message>, m: Message)
    requires AllParse(before, true) && AllParse(between, false) && HandAll(before, true) <= between && m in before
    requires forall x :: x in before && x.claimed == true ==> NextDelivery(x) in Deliveries(before, true)
    requires forall x :: x in between && x.claimed == false ==> NextDelivery(x) in Deliveries(between, false)
    ensures Parses(m) && NextDelivery(m) in Deliveries(before, true) + Deliveries(between, false)
  {
    hide Deliveries;
    if !m.claimed {
      var i :| 0 <= i < |before| && before[i] == m;
      assert between[i] == HandAll(before, true)[i] == m && m in between;
    }
  }

  lemma HandedIsWaiting(between: seq<Message>, s: Snap, i: nat, e: Delivered)
    requires Ordered(between) && s.messages == HandAll(between, false) && i < |between|
    requires Parses(between[i]) && e == DeliveryOf(Hand(between[i], false)) && Hand(between[i], false).claimed
    ensures Waiting(s, e)
  {
    LookupHanded(between, false, 0, e.id);
    LookupIs(between, e.id);
    assert between[i] in between;
  }

  lemma AppendKeeps(ms: seq<Message>, m: Message)
    requires Ordered(ms + [m])
    ensures forall x: nat :: Lookup(ms, x).Some? ==> Lookup(ms + [m], x) == Lookup(ms, x)
  {
    assert Ordered(ms) by {
      forall i, j | 0 <= i < j < |ms| ensures ms[i].id < ms[j].id { assert (ms + [m])[i].id < (ms + [m])[j].id; }
    }
    forall x: nat | Lookup(ms, x).Some? ensures Lookup(ms + [m], x) == Lookup(ms, x) {
      LookupAppend(ms, m, x);
      LookupIs(ms, x);
      var i :| 0 <= i < |ms| && ms[i] == Lookup(ms, x).value;
      assert (ms + [m])[i].id < (ms + [m])[|ms|].id;
    }
  }

  lemma StillOrdered(ms: seq<Message>, quarantined: seq<Record>, appended: seq<Payload>, acked: set<nat>)
    requires Conserved(ms, quarantined, appended, acked)
    ensures Ordered(ms)
  {
  }

  lemma WriteKeepsCovered(es: Entries, batch: seq<DataPoint>, rev: nat)
    ensures forall d :: Covered(es, d) ==> Covered(MergeAll(es, batch, rev), d)
    ensures forall d :: d in batch ==> Covered(MergeAll(es, batch, rev), d)
  {
    forall d | Covered(es, d) ensures Covered(MergeAll(es, batch, rev), d) { CoveredStays(es, batch, rev, d); }
    forall d | d in batch ensures Covered(MergeAll(es, batch, rev), d) { MergeCovers(es, batch, rev, d); }
  }

  lemma MovesMore(s: Snap, s': Snap, touched: set<nat>)
    requires Moves(s, s', {})
    ensures Moves(s, s', touched)
  {
  }

  lemma PayloadOf(s: Snap, e: Delivered, appended: seq<Payload>)
    requires Conserved(s.messages, s.quarantined, appended, s.acked) && Waiting(s, e) && e.Entry?
    ensures e.id < |appended| && appended[e.id] == Good(e.dp)
  {
    LookupIs(s.messages, e.id);
  }

  predicate NoRepeats(es: seq<Delivered>) {
    forall i, j :: 0 <= i < j < |es| ==> es[i].id != es[j].id
  }

  function Ids(es: seq<Delivered>): set<nat> {
    set e | e in es :: e.id
  }

  /** The first `i` entries are settled, the rest still wait. */
  predicate SettledUpTo(s: Snap, es: seq<Delivered>, cap: nat, i: nat) {
    forall j :: 0 <= j < |es| ==> if j < i then Settled(s, es[j], cap) else Waiting(s, es[j])
  }

  /** Malformed entries among the first `i` are set aside; the rest still wait. */
  predicate PoisonUpTo(s: Snap, es: seq<Delivered>, cap: nat, i: nat) {
    forall j :: 0 <= j < |es| ==> if j < i && es[j].Poison? then SetAside(s, es[j], cap) else Waiting(s, es[j])
  }

  lemma SettleNext(s: Snap, s': Snap, es: seq<Delivered>, cap: nat, i: nat)
    requires NoRepeats(es) && i < |es| && SettledUpTo(s, es, cap, i)
    requires Moves(s, s', {es[i].id}) && Settled(s', es[i], cap)
    ensures SettledUpTo(s', es, cap, i + 1)
  {
    hide Moves, Settled, Waiting;
    forall j | 0 <= j < |es| ensures if j < i + 1 then Settled(s', es[j], cap) else Waiting(s', es[j]) {
      if j != i { MovesKeeps(s, s', {es[i].id}, es[j], cap); }
    }
  }

  lemma PoisonNext(s: Snap, s': Snap, es: seq<Delivered>, cap: nat, i: nat)
    requires NoRepeats(es) && i < |es| && PoisonUpTo(s, es, cap, i)
    requires Moves(s, s', {es[i].id}) && (if es[i].Poison? then SetAside(s', es[i], cap) else Waiting(s', es[i]))
    ensures PoisonUpTo(s', es, cap, i + 1)
  {
    hide Settled, Waiting, SetAside;
    forall j | 0 <= j < |es| ensures if j < i + 1 && es[j].Poison? then SetAside(s', es[j], cap) else Waiting(s', es[j]) {
      if j != i {
        MovesKeeps(s, s', {es[i].id}, es[j], cap);
        if j < i && es[j].Poison? { SetAsideStays(s, s', {es[i].id}, es[j], cap); }
      }
    }
  }

  /** The well-formed entries, in order. */
  function ValidOf(es: seq<Delivered>): (vs: seq<Delivered>)
    ensures forall e :: e in vs <==> e in es && e.Entry?
  {
    if es == [] then []
    else
      var earlier := ValidOf(es[..|es| - 1]);
      assert es == es[..|es| - 1] + [es[|es| - 1]];
      if es[|es| - 1].Entry? then earlier + [es[|es| - 1]] else earlier
  }

  lemma {:induction false} ValidDistinct(es: seq<Delivered>)
    requires NoRepeats(es)
    ensures NoRepeats(ValidOf(es))
  {
    if es != [] {
      var init := es[..|es| - 1];
      ValidDistinct(init);
      forall e | e in ValidOf(init) ensures e.id != es[|es| - 1].id {
        var i :| 0 <= i < |init| && init[i] == e;
        assert es[i].id != es[|es| - 1].id;
      }
    }
  }

  function PointsOf(es: seq<Delivered>): seq<DataPoint>
    requires forall e :: e in es ==> e.Entry?
  {
    seq(|es|, i requires 0 <= i < |es| => es[i].dp)
  }

  class Drain {
    const inbox: MemoryInbox.InMemoryInbox
    const store: MemoryStore.InMemoryStore
    const epoch: nat
    const cap: nat                 // how often an entry is delivered before a failing one is set aside
    var script: seq<Moment>        // what the awaits ahead bring
    ghost var last: Moment         // what the last await brought
    ghost var refused: set<nat>    // entries whose own store call failed

    constructor (inbox: MemoryInbox.InMemoryInbox, store: MemoryStore.InMemoryStore, epoch: nat, cap: nat, script: seq<Moment>)
      ensures this.inbox == inbox && this.store == store && this.epoch == epoch && this.cap == cap && this.script == script
    {
      this.inbox, this.store, this.epoch, this.cap, this.script := inbox, store, epoch, cap, script;
      last, refused := QUIET, {};
    }

    ghost predicate Valid()
      reads this, inbox, store
    {
      inbox.Valid() && AckedAreMerged(inbox.acked, inbox.appended, store.entries)
    }

    ghost function Now(): Snap
      reads this, inbox, store
    {
      Snap(inbox.messages, inbox.quarantined, inbox.acked, store.entries, refused)
    }

    /** Nothing ahead crashes, fails or supersedes the epoch. */
    ghost predicate CalmAhead()
      reads this, inbox, store
    {
      && (forall m :: m in script ==> !m.crash && !m.fails && m.takeover <= epoch)
      && inbox.maxEpoch <= epoch && store.maxEpoch <= epoch
    }

    /** ... and nothing just did. */
    ghost predicate Calm()
      reads this, inbox, store
    {
      CalmAhead() && !last.crash && !last.fails
    }

    /** What the outcome says of the last await: only a crash crashes, only a failure raises, only a fence fences off. */
    ghost predicate Told(r: Outcome)
      reads this, inbox, store
    {
      && (r.Crashed? <==> last.crash)
      && (r.Raised? ==> last.fails)
      && (r.Fenced? ==> last.fails || epoch < inbox.maxEpoch || epoch < store.maxEpoch)
    }

    /** An await, for the store call of `ids` if any: producers append and a successor may take over, whatever the caller was doing. */
    method Pause(ghost ids: set<nat>) returns (m: Moment)
      requires Valid()
      modifies this`script, this`last, this`refused, inbox`messages, inbox`nextId, inbox`appended, inbox`maxEpoch, store`maxEpoch
      ensures Valid() && inbox.acked == old(inbox.acked) && inbox.quarantined == old(inbox.quarantined)
      ensures old(inbox.messages) <= inbox.messages && Moves(old(Now()), Now(), {})
      ensures m == last && m == (if old(script) == [] then QUIET else old(script)[0])
      ensures script == if old(script) == [] then [] else old(script)[1..]
      ensures refused == old(refused) + if m.fails && !m.crash then ids else {}
      ensures Arrived(inbox.messages[|old(inbox.messages)|..], m.arrivals)
      ensures inbox.maxEpoch == Max(old(inbox.maxEpoch), m.takeover) && store.maxEpoch == Max(old(store.maxEpoch), m.takeover)
      ensures old(CalmAhead()) ==> Calm()
    {
      m := if script == [] then QUIET else script[0];
      Arrive(m.arrivals);
      script := if script == [] then [] else script[1..];
      last, refused := m, refused + if m.fails && !m.crash then ids else {};
      var _ := inbox.GuardEpoch(m.takeover);
      var _ := store.GuardEpoch(m.takeover);
    }

    method Arrive(arrivals: seq<Payload>)
      requires Valid()
      modifies inbox`messages, inbox`nextId, inbox`appended
      ensures Valid() && old(inbox.messages) <= inbox.messages && Moves(old(Now()), Now(), {})
      ensures Arrived(inbox.messages[|old(inbox.messages)|..], arrivals)
    {
      hide Conserved, Lookup;
      for i := 0 to |arrivals|
        invariant inbox.Valid() && old(inbox.messages) <= inbox.messages && old(inbox.appended) <= inbox.appended
        invariant Arrived(inbox.messages[|old(inbox.messages)|..], arrivals[..i])
        invariant forall x: nat :: Lookup(old(inbox.messages), x).Some? ==> Lookup(inbox.messages, x) == Lookup(old(inbox.messages), x)
      {
        ghost var before := inbox.messages;
        var id := inbox.Append(arrivals[i]);
        StillOrdered(inbox.messages, inbox.quarantined, inbox.appended, inbox.acked);
        AppendKeeps(before, inbox.messages[|before|]);
        assert inbox.messages[|old(inbox.messages)|..] == before[|old(inbox.messages)|..] + [inbox.messages[|before|]];
      }
      assert arrivals[..|arrivals|] == arrivals;
    }

    /** One entry out of delivery, with its record and its audit entry; a call that fails ends the drain. */
    method SetEntryAside(e: Delivered, reason: string) returns (r: Outcome)
      requires !last.crash
      requires Valid() && Waiting(Now(), e) && (e.Entry? ==> e.deliveryCount >= cap) && (e.Poison? ==> reason == e.error)
      modifies this`script, this`last, this`refused, inbox, store`maxEpoch
      ensures Valid() && Moves(old(Now()), Now(), {e.id})
      ensures r.Returned? ==> SetAside(Now(), e, cap)
      ensures Told(r) && refused == old(refused) && (old(Calm()) ==> Calm())
    {
      hide Conserved, Lookup;
      ghost var start := Now();
      var moment := Pause({});
      ghost var s := Now();
      MovesMore(start, s, {e.id});
      MovesKeeps(start, s, {}, e, cap);
      if moment.crash {
        return Crashed;
      }
      if moment.fails {
        return Raised;
      }
      var reply := inbox.Quarantine(e.id, reason, epoch);
      ghost var m := Now();
      MovesThen(start, s, m, {}, {e.id});
      assert {} + {e.id} == {e.id};
      if reply.StaleEpoch? {
        return Fenced;
      }
      assert inbox.quarantined[|s.quarantined|] in inbox.quarantined;
      moment := Pause({});
      MovesThen(start, m, Now(), {e.id}, {});
      return if moment.crash then Crashed else if moment.fails then Raised else Returned;
    }

    /** The durable apply; only a store failure or a fence is told apart, bookkeeping failures are absorbed. */
    method ApplyPoints(batch: seq<DataPoint>, ghost ids: set<nat>) returns (r: Outcome)
      requires Valid()
      modifies this`script, this`last, this`refused, inbox`messages, inbox`nextId, inbox`appended, inbox`maxEpoch, store
      ensures Valid() && Moves(old(Now()), Now(), {})
      ensures r.Returned? ==> forall d :: d in batch ==> Covered(store.entries, d)
      ensures r.Raised? ==> store.entries == old(store.entries) && store.revision == old(store.revision)
      ensures store.entries == old(store.entries) || store.entries == MergeAll(old(store.entries), batch, old(store.revision) + 1)
      ensures r.Returned? ==> store.entries == MergeAll(old(store.entries), batch, old(store.revision) + 1)
      ensures refused == old(refused) + if r.Raised? then ids else {}
      ensures r.Raised? <==> old(script) != [] && old(script)[0].fails && !old(script)[0].crash
      ensures Told(r) && (old(Calm()) ==> Calm())
    {
      hide Conserved, Lookup;
      ghost var s := Now();
      var moment := Pause(ids);
      if moment.crash {
        return Crashed;
      }
      if moment.fails {
        return Raised;
      }
      ghost var m, es, rev := Now(), store.entries, store.revision + 1;
      var reply := store.Write(batch, epoch);
      if reply.StaleEpoch? {
        return Fenced;
      }
      WriteKeepsCovered(es, batch, rev);
      MovesThen(s, m, Now(), {}, {});
      ghost var n := Now();
      moment := Pause({});
      MovesThen(s, n, Now(), {}, {});
      return if moment.crash then Crashed else if moment.fails then Fenced else Returned;
    }

    /** Acks an entry whose data is merged; an ack that fails without being fenced off ends the drain. */
    method AckApplied(e: Delivered) returns (r: Outcome)
      requires !last.crash
      requires Valid() && Waiting(Now(), e) && e.Entry? && Covered(store.entries, e.dp)
      modifies this`script, this`last, this`refused, inbox, store`maxEpoch
      ensures Valid() && Moves(old(Now()), Now(), {e.id})
      ensures r.Returned? ==> Applied(Now(), e)
      ensures Told(r) && refused == old(refused) && (old(Calm()) ==> Calm())
    {
      hide Conserved, Lookup;
      ghost var start := Now();
      var moment := Pause({});
      ghost var s := Now();
      MovesMore(start, s, {e.id});
      MovesKeeps(start, s, {}, e, cap);
      if moment.crash {
        return Crashed;
      }
      if moment.fails {
        return Raised;
      }
      PayloadOf(s, e, inbox.appended);
      var reply := inbox.Ack(e.id, epoch);
      ghost var m := Now();
      MovesThen(start, s, m, {}, {e.id});
      assert {} + {e.id} == {e.id};
      if reply.StaleEpoch? {
        return Fenced;
      }
      moment := Pause({});
      MovesThen(start, m, Now(), {e.id}, {});
      return if moment.crash then Crashed else if moment.fails then Raised else Returned;
    }

    /** One entry on its own: merged and acked, or kept for another delivery, or set aside at the cap. */
    method ApplyEntry(e: Delivered) returns (r: Outcome)
      requires !last.crash
      requires Valid() && Waiting(Now(), e) && e.Entry?
      modifies this`script, this`last, this`refused, inbox, store
      ensures Valid() && Moves(old(Now()), Now(), {e.id})
      ensures r.Returned? ==> Settled(Now(), e, cap)
      ensures Told(r) && (old(Calm()) ==> Calm() && refused == old(refused))
    {
      hide Conserved, Lookup, Moves;
      ghost var s := Now();
      var applied := ApplyPoints([e.dp], {e.id});
      ghost var m := Now();
      MovesKeeps(s, m, {}, e, cap);
      if applied.Crashed? || applied.Fenced? {
        MovesMore(s, m, {e.id});
        return applied;
      }
      if applied.Raised? {
        if e.deliveryCount >= cap {
          r := SetEntryAside(e, "store failure");
          MovesThen(s, m, Now(), {}, {e.id});
          assert {} + {e.id} == {e.id};
          return;
        }
        MovesMore(s, m, {e.id});
        return Returned;
      }
      assert e.dp in [e.dp];
      r := AckApplied(e);
      MovesThen(s, m, Now(), {}, {e.id});
      assert {} + {e.id} == {e.id};
    }

    method SetPoisonAside(es: seq<Delivered>) returns (r: Outcome)
      requires !last.crash
      requires Valid() && NoRepeats(es) && PoisonUpTo(Now(), es, cap, 0)
      modifies this`script, this`last, this`refused, inbox, store`maxEpoch
      ensures Valid()
      ensures r.Returned? ==> PoisonUpTo(Now(), es, cap, |es|)
      ensures Told(r) && (old(Calm()) ==> Calm() && refused == old(refused))
    {
      hide Conserved, Lookup, Moves, Waiting, SetAside, AckedAreMerged;
      for i := 0 to |es|
        invariant Valid() && PoisonUpTo(Now(), es, cap, i)
        invariant !last.crash && (old(Calm()) ==> Calm() && refused == old(refused))
      {
        ghost var s := Now();
        if es[i].Poison? {
          r := SetEntryAside(es[i], es[i].error);
          if !r.Returned? {
            return;
          }
        } else {
          MovesNothing(s, {es[i].id});
        }
        PoisonNext(s, Now(), es, cap, i);
      }
      return Returned;
    }

    method ApplyEach(es: seq<Delivered>) returns (r: Outcome)
      requires !last.crash
      requires Valid() && NoRepeats(es) && SettledUpTo(Now(), es, cap, 0) && forall e :: e in es ==> e.Entry?
      modifies this`script, this`last, this`refused, inbox, store
      ensures Valid() && Moves(old(Now()), Now(), Ids(es))
      ensures r.Returned? ==> SettledUpTo(Now(), es, cap, |es|)
      ensures Told(r) && (old(Calm()) ==> Calm() && refused == old(refused))
    {
      hide Conserved, Lookup, Moves, Waiting, SetAside, Settled, AckedAreMerged;
      ghost var start := Now();
      MovesNothing(start, Ids(es));
      for i := 0 to |es|
        invariant Valid() && SettledUpTo(Now(), es, cap, i) && Moves(start, Now(), Ids(es))
        invariant !last.crash && (old(Calm()) ==> Calm() && refused == old(refused))
      {
        ghost var s := Now();
        assert es[i] in es && es[i].id in Ids(es);
        r := ApplyEntry(es[i]);
        MovesThen(start, s, Now(), Ids(es), {es[i].id});
        assert Ids(es) + {es[i].id} == Ids(es);
        if !r.Returned? {
          return;
        }
        SettleNext(s, Now(), es, cap, i);
      }
      return Returned;
    }

    /** After the batch landed: each entry acked on its own. */
    method AckEach(es: seq<Delivered>) returns (r: Outcome)
      requires !last.crash
      requires Valid() && NoRepeats(es) && SettledUpTo(Now(), es, cap, 0)
      requires forall e :: e in es ==> e.Entry? && Covered(store.entries, e.dp)
      modifies this`script, this`last, this`refused, inbox, store`maxEpoch
      ensures Valid() && Moves(old(Now()), Now(), Ids(es))
      ensures r.Returned? ==> SettledUpTo(Now(), es, cap, |es|)
      ensures Told(r) && (old(Calm()) ==> Calm() && refused == old(refused))
    {
      hide Conserved, Lookup, Moves, Waiting, SetAside, AckedAreMerged;
      ghost var start := Now();
      MovesNothing(start, Ids(es));
      for i := 0 to |es|
        invariant Valid() && SettledUpTo(Now(), es, cap, i) && Moves(start, Now(), Ids(es))
        invariant !last.crash && (old(Calm()) ==> Calm() && refused == old(refused))
      {
        ghost var s := Now();
        assert es[i] in es && es[i].id in Ids(es);
        r := AckApplied(es[i]);
        MovesThen(start, s, Now(), Ids(es), {es[i].id});
        assert Ids(es) + {es[i].id} == Ids(es);
        if !r.Returned? {
          return;
        }
        SettleNext(s, Now(), es, cap, i);
      }
      return Returned;
    }

    /** The valid entries: one write for the whole batch, each on its own if that write fails. */
    method ApplyValid(es: seq<Delivered>) returns (r: Outcome)
      requires !last.crash
      requires Valid() && NoRepeats(es) && SettledUpTo(Now(), es, cap, 0) && forall e :: e in es ==> e.Entry?
      modifies this`script, this`last, this`refused, inbox, store
      ensures Valid() && Moves(old(Now()), Now(), Ids(es))
      ensures r.Returned? ==> SettledUpTo(Now(), es, cap, |es|)
      ensures Told(r) && (old(Calm()) ==> Calm() && refused == old(refused))
    {
      hide Conserved, Lookup, Moves, Waiting, SetAside, Settled, AckedAreMerged;
      if |es| <= 1 {
        r := ApplyEach(es);
        return;
      }
      ghost var s := Now();
      r := ApplyPoints(PointsOf(es), {});
      ghost var m := Now();
      MovesMore(s, m, Ids(es));
      forall j | 0 <= j < |es| ensures Waiting(m, es[j]) { MovesKeeps(s, m, {}, es[j], cap); }
      if r.Raised? {
        r := ApplyEach(es);
        MovesThen(s, m, Now(), Ids(es), Ids(es));
      } else if r.Returned? {
        forall e | e in es ensures Covered(store.entries, e.dp) {
          var i :| 0 <= i < |es| && es[i] == e;
          assert PointsOf(es)[i] in PointsOf(es);
        }
        r := AckEach(es);
        MovesThen(s, m, Now(), Ids(es), Ids(es));
      }
      assert Ids(es) + Ids(es) == Ids(es);
    }

    /**
     * Reclaim, consume, set malformed entries aside, apply the rest. However it ends, what was acked had been
     * merged and nothing is lost; when it returns, every entry that was in the inbox at its start was merged
     * and acked, or is malformed and was set aside with a record, or its own store call failed: it is then still
     * claimed below the cap, and set aside at it. With nothing going wrong it returns, with every well-formed
     * entry merged and acked, exactly when all there is to deliver parses.
     */
    method DrainInbox() returns (r: Outcome)
      requires Valid()
      modifies this`script, this`last, this`refused, inbox, store
      ensures Valid()
      ensures r.Returned? ==>
        forall m :: m in old(inbox.messages) ==> Parses(m) && Settled(Now(), NextDelivery(m), cap)
      ensures old(CalmAhead()) ==>
        && refused == {}
        && (r.Returned? <==> (forall m :: m in old(inbox.messages) ==> Parses(m)) && AllGood(old(script)))
      ensures old(CalmAhead()) && r.Returned? ==>
        forall m :: m in old(inbox.messages) && m.payload.Good? ==> Applied(Now(), NextDelivery(m))
    {
      hide Conserved, Lookup, Moves, Waiting, SetAside, AckedAreMerged, Deliveries, Drained, AllGood;
      last, refused := QUIET, {};
      ghost var before := inbox.messages;
      var gathered, entries, between := Gather();
      if !gathered.Returned? {
        return gathered;
      }
      r := Dispose(entries, before, between);
    }

    /** Everything there is to deliver: what was claimed before, then what is new. */
    method Gather() returns (r: Outcome, entries: seq<Delivered>, ghost between: seq<Message>)
      requires !last.crash
      requires Valid()
      modifies this`script, this`last, this`refused, inbox, store`maxEpoch
      ensures Valid() && refused == old(refused) && (old(Calm()) ==> Calm())
      ensures r.Returned? ==>
        && Drained(old(inbox.messages), between, Now()) && !last.crash
        && entries == Deliveries(old(inbox.messages), true) + Deliveries(between, false)
      ensures old(Calm()) ==>
        (r.Returned? <==> (forall m :: m in old(inbox.messages) ==> Parses(m)) && AllGood(old(script)))
    {
      hide Conserved, Lookup, Moves, AckedAreMerged, Deliveries;
      ghost var before := inbox.messages;
      StillOrdered(before, inbox.quarantined, inbox.appended, inbox.acked);
      assert before[..|before|] == before;
      between := before;
      var reclaimed, raised, _ := inbox.Reclaim();
      if raised {
        return Raised, [], between;
      }
      ghost var claimed := inbox.messages;
      assert claimed == HandAll(before, true) && |claimed| == |before|;
      var moment := Pause({});
      between := inbox.messages;
      if moment.crash {
        return Crashed, [], between;
      }
      if moment.fails {
        return Raised, [], between;
      }
      NewOnesParse(before, between, moment.arrivals);
      StillOrdered(between, inbox.quarantined, inbox.appended, inbox.acked);
      var consumed, refusal, _ := inbox.Consume(None);
      assert between[..|between|] == between;
      if refusal {
        return Raised, [], between;
      }
      return Returned, reclaimed + consumed, between;
    }

    method Dispose(entries: seq<Delivered>, ghost before: seq<Message>, ghost between: seq<Message>) returns (r: Outcome)
      requires !last.crash
      requires Valid() && Drained(before, between, Now())
      requires entries == Deliveries(before, true) + Deliveries(between, false)
      modifies this`script, this`last, this`refused, inbox, store
      ensures Valid()
      ensures r.Returned? ==> forall m :: m in before ==> Parses(m) && Settled(Now(), NextDelivery(m), cap)
      ensures Told(r) && (old(Calm()) ==> Calm() && refused == old(refused))
    {
      hide Conserved, Lookup, Moves, Waiting, SetAside, Settled, AckedAreMerged;
      DrainedWait(before, between, Now());
      DrainedOnce(before, between, Now());
      DrainedAll(before, between, Now());
      hide Deliveries, Drained;
      ghost var s := Now();
      var moment := Pause({});
      forall j | 0 <= j < |entries| ensures Waiting(Now(), entries[j]) {
        assert entries[j] in entries;
        MovesKeeps(s, Now(), {}, entries[j], cap);
      }
      if moment.crash {
        return Crashed;
      }
      r := SetPoisonAside(entries);
      if !r.Returned? {
        return;
      }
      var valid := ValidOf(entries);
      ValidDistinct(entries);
      forall j | 0 <= j < |valid| ensures Waiting(Now(), valid[j]) {
        assert valid[j] in valid;
        var i :| 0 <= i < |entries| && entries[i] == valid[j];
      }
      ghost var m := Now();
      r := ApplyValid(valid);
      forall e | r.Returned? && e in entries ensures Settled(Now(), e, cap) {
        var i :| 0 <= i < |entries| && entries[i] == e;
        if e.Poison? {
          PoisonUntouched(entries, valid, e);
          SetAsideSettles(m, e, cap);
          MovesKeeps(m, Now(), Ids(valid), e, cap);
        } else {
          var j :| 0 <= j < |valid| && valid[j] == e;
        }
      }
    }
  }

  /** Nothing that arrives at the next await is refused by the parser. */
  predicate AllGood(script: seq<Moment>) {
    script != [] ==> forall p :: p in script[0].arrivals ==> !p.Unparseable?
  }

  /** The messages that stand for new arrivals. */
  predicate Arrived(news: seq<Message>, arrivals: seq<Payload>) {
    |news| == |arrivals| && forall i :: 0 <= i < |news| ==> news[i].payload == arrivals[i] && !news[i].claimed
  }

  /** What is unclaimed once the claimed were handed over: what was unclaimed before, and the arrivals. */
  lemma NewOnesParse(before: seq<Message>, between: seq<Message>, arrivals: seq<Payload>)
    requires HandAll(before, true) <= between && Arrived(between[|before|..], arrivals)
    ensures (forall m :: m in between && !m.claimed ==> Parses(m)) <==>
      (forall m :: m in before && !m.claimed ==> Parses(m)) && (forall p :: p in arrivals ==> !p.Unparseable?)
  {
    var news := between[|before|..];
    assert between == HandAll(before, true) + news;
    if forall m :: m in between && !m.claimed ==> Parses(m) {
      forall m | m in before && !m.claimed ensures Parses(m) {
        var i :| 0 <= i < |before| && before[i] == m;
        assert between[i] == HandAll(before, true)[i] == m && between[i] in between;
      }
      forall p | p in arrivals ensures !p.Unparseable? {
        var i :| 0 <= i < |arrivals| && arrivals[i] == p;
        assert news[i] in between;
      }
    }
    if (forall m :: m in before && !m.claimed ==> Parses(m)) && (forall p :: p in arrivals ==> !p.Unparseable?) {
      forall m | m in between && !m.claimed ensures Parses(m) {
        if m in news {
          var i :| 0 <= i < |news| && news[i] == m;
          assert arrivals[i] in arrivals;
        } else {
          var i :| 0 <= i < |before| && HandAll(before, true)[i] == m;
          assert m == Hand(before[i], true) && before[i] in before;
        }
      }
    }
  }

  lemma PoisonUntouched(es: seq<Delivered>, valid: seq<Delivered>, e: Delivered)
    requires NoRepeats(es) && valid == ValidOf(es) && e in es && e.Poison?
    ensures e.id !in Ids(valid)
  {
    forall v | v in valid ensures v.id != e.id {
      var i, j :| 0 <= i < |es| && 0 <= j < |es| && es[i] == e && es[j] == v;
    }
  }
}
