/** The in-memory inbox: ordered messages, claimed on delivery, removed by ack or quarantine. */
module Inbox {
  import opened Prelude
  import opened DataPoints
  import opened DataPointStore

  /** What the wire form turns out to be: a DataPoint, bytes that do not decode, or data the parser refuses. */
  datatype Payload = Good(dp: DataPoint) | Malformed(error: string) | Unparseable(error: string)

  datatype Message = Message(id: nat, payload: Payload, deliveryCount: nat, claimed: bool)

  datatype Delivered = Entry(id: nat, dp: DataPoint, deliveryCount: nat) | Poison(id: nat, error: string, deliveryCount: nat)

  datatype Record = Record(id: nat, reason: string, deliveryCount: nat, payload: Payload)

  /** What handing a message over does to it; `claimed` says which messages are being handed over. */
  function Hand(m: Message, claimed: bool): Message {
    if m.claimed == claimed then m.(claimed := true, deliveryCount := m.deliveryCount + 1) else m
  }

  function HandAll(ms: seq<Message>, claimed: bool): seq<Message> {
    seq(|ms|, i requires 0 <= i < |ms| => Hand(ms[i], claimed))
  }

  /** The first `n` messages handed over, the rest untouched. */
  function Handed(ms: seq<Message>, n: nat, claimed: bool): seq<Message>
    requires n <= |ms|
  {
    HandAll(ms[..n], claimed) + ms[n..]
  }

  predicate Parses(m: Message) {
    !m.payload.Unparseable?
  }

  function DeliveryOf(m: Message): Delivered
    requires Parses(m)
  {
    match m.payload
    case Good(dp) => Entry(m.id, dp, m.deliveryCount)
    case Malformed(error) => Poison(m.id, error, m.deliveryCount)
  }

  /** The deliveries of the messages handed over, in message order. */
  function Deliveries(ms: seq<Message>, claimed: bool): seq<Delivered>
    requires forall m :: m in ms && m.claimed == claimed ==> Parses(m)
  {
    if ms == [] then []
    else
      var last := ms[|ms| - 1];
      var earlier := Deliveries(ms[..|ms| - 1], claimed);
      assert last in ms;
      assert last.claimed == claimed ==> Parses(last);
      assert last.claimed == claimed ==> Hand(last, claimed).payload == last.payload;
      if last.claimed == claimed then earlier + [DeliveryOf(Hand(last, claimed))] else earlier
  }

  function Lookup(ms: seq<Message>, id: nat): Option<Message> {
    if ms == [] then None
    else if ms[|ms| - 1].id == id then Some(ms[|ms| - 1])
    else Lookup(ms[..|ms| - 1], id)
  }

  predicate Ordered(ms: seq<Message>) {
    forall i, j :: 0 <= i < j < |ms| ==> ms[i].id < ms[j].id
  }

  /** Everything ever appended is pending, acked or quarantined, exactly one of them, and pending order is append order. */
  ghost predicate Conserved(ms: seq<Message>, quarantined: seq<Record>, appended: seq<Payload>, acked: set<nat>) {
    && Ordered(ms)
    && (forall i, j :: 0 <= i < j < |quarantined| ==> quarantined[i].id != quarantined[j].id)
    && (forall m :: m in ms ==> m.id < |appended| && m.payload == appended[m.id])
    && (forall q :: q in quarantined ==> q.id < |appended| && q.payload == appended[q.id])
    && (forall id :: id in acked ==> id < |appended|)
    && (forall id: nat :: id < |appended| ==> Place(ms, quarantined, acked, id))
  }

  ghost predicate Place(ms: seq<Message>, quarantined: seq<Record>, acked: set<nat>, id: nat) {
    var pending, disposed := Lookup(ms, id).Some?, exists q :: q in quarantined && q.id == id;
    (pending && !disposed && id !in acked) || (!pending && disposed && id !in acked) || (!pending && !disposed && id in acked)
  }

  lemma {:induction false} LookupIs(ms: seq<Message>, id: nat)
    requires Ordered(ms)
    ensures Lookup(ms, id).Some? ==> Lookup(ms, id).value in ms && Lookup(ms, id).value.id == id
    ensures forall m :: m in ms && m.id == id ==> Lookup(ms, id) == Some(m)
  {
    if ms != [] {
      var init := ms[..|ms| - 1];
      assert ms == init + [ms[|ms| - 1]];
      LookupIs(init, id);
    }
  }

  lemma {:induction false} LookupAppend(ms: seq<Message>, m: Message, id: nat)
    ensures Lookup(ms + [m], id) == if m.id == id then Some(m) else Lookup(ms, id)
  {
    assert (ms + [m])[..|ms|] == ms;
  }

  lemma {:induction false} LookupHanded(ms: seq<Message>, claimed: bool, n: nat, id: nat)
    requires n <= |ms| && Ordered(ms)
    ensures Ordered(Handed(ms, n, claimed))
    ensures Lookup(HandAll(ms, claimed), id) ==
      match Lookup(ms, id) case None => None case Some(m) => Some(Hand(m, claimed))
    ensures Ordered(HandAll(ms, claimed))
  {
    if ms != [] {
      var init := ms[..|ms| - 1];
      LookupHanded(init, claimed, 0, id);
      assert HandAll(ms, claimed)[..|ms| - 1] == HandAll(init, claimed);
    }
  }

  lemma RestMembers(ms: seq<Message>, i: nat)
    requires i < |ms| && Ordered(ms)
    ensures Ordered(ms[..i] + ms[i + 1..])
    ensures forall m :: m in ms[..i] + ms[i + 1..] <==> m in ms && m.id != ms[i].id
  {
    var rest := ms[..i] + ms[i + 1..];
    assert forall a :: 0 <= a < |rest| ==> rest[a] == if a < i then ms[a] else ms[a + 1];
    assert forall a :: 0 <= a < |ms| && a != i ==> ms[a] == (if a < i then rest[a] else rest[a - 1]) && ms[a] in rest;
  }

  lemma LookupRemoved(ms: seq<Message>, i: nat, id: nat)
    requires i < |ms| && Ordered(ms)
    ensures Ordered(ms[..i] + ms[i + 1..])
    ensures Lookup(ms[..i] + ms[i + 1..], id) == if id == ms[i].id then None else Lookup(ms, id)
  {
    RestMembers(ms, i);
    LookupIs(ms, id);
    LookupIs(ms[..i] + ms[i + 1..], id);
  }

  /** Handing messages over moves none of them. */
  lemma SameIds(ms: seq<Message>, ms': seq<Message>, quarantined: seq<Record>, appended: seq<Payload>, acked: set<nat>)
    requires Conserved(ms, quarantined, appended, acked) && |ms'| == |ms|
    requires forall i :: 0 <= i < |ms| ==> ms'[i].id == ms[i].id && ms'[i].payload == ms[i].payload
    ensures Conserved(ms', quarantined, appended, acked)
  {
    forall id: nat | id < |appended| ensures Place(ms', quarantined, acked, id) {
      assert Place(ms, quarantined, acked, id);
      LookupIs(ms, id);
      LookupIs(ms', id);
      if Lookup(ms, id).Some? {
        var i :| 0 <= i < |ms| && ms[i] == Lookup(ms, id).value;
        assert ms'[i] in ms';
      }
      if Lookup(ms', id).Some? {
        var i :| 0 <= i < |ms'| && ms'[i] == Lookup(ms', id).value;
        assert ms[i] in ms;
      }
    }
  }

  lemma AppendConserves(ms: seq<Message>, quarantined: seq<Record>, appended: seq<Payload>, acked: set<nat>, payload: Payload)
    requires Conserved(ms, quarantined, appended, acked)
    ensures Conserved(ms + [Message(|appended|, payload, 0, false)], quarantined, appended + [payload], acked)
  {
    var m := Message(|appended|, payload, 0, false);
    var more := ms + [m];
    assert forall i :: 0 <= i < |ms| ==> ms[i] in ms;
    assert Ordered(more);
    forall id: nat | id < |appended| + 1 ensures Place(more, quarantined, acked, id) {
      LookupAppend(ms, m, id);
      LookupIs(ms, id);
      if id < |appended| { assert Place(ms, quarantined, acked, id); }
    }
  }

  /** Taking one message out of delivery, to the acked or to the quarantined. */
  lemma RemoveConserves(ms: seq<Message>, quarantined: seq<Record>, appended: seq<Payload>, acked: set<nat>, i: nat, reason: string)
    requires Conserved(ms, quarantined, appended, acked) && i < |ms|
    ensures Conserved(ms[..i] + ms[i + 1..], quarantined, appended, acked + {ms[i].id})
    ensures Conserved(ms[..i] + ms[i + 1..], quarantined + [Record(ms[i].id, reason, ms[i].deliveryCount, ms[i].payload)], appended, acked)
  {
    var rest, record := ms[..i] + ms[i + 1..], Record(ms[i].id, reason, ms[i].deliveryCount, ms[i].payload);
    RestMembers(ms, i);
    LookupIs(ms, ms[i].id);
    assert Place(ms, quarantined, acked, ms[i].id);
    forall id: nat | id < |appended|
      ensures Place(rest, quarantined, acked + {ms[i].id}, id)
      ensures Place(rest, quarantined + [record], acked, id)
    {
      assert Place(ms, quarantined, acked, id);
      LookupRemoved(ms, i, id);
      assert forall q :: q in quarantined + [record] <==> q in quarantined || q == record;
      assert record in quarantined + [record];
    }
  }

  lemma NothingHanded(ms: seq<Message>, claimed: bool)
    ensures Deliveries(ms[..0], claimed) == [] && Deliveries([], claimed) == [] && Handed(ms, 0, claimed) == ms
  {
  }

  lemma HandedNext(ms: seq<Message>, n: nat, claimed: bool)
    requires n < |ms|
    ensures |Handed(ms, n, claimed)| == |ms| && Handed(ms, n, claimed)[n] == ms[n]
    ensures Handed(ms, n + 1, claimed) == Handed(ms, n, claimed)[n := Hand(ms[n], claimed)]
    ensures ms[..n + 1] == ms[..n] + [ms[n]]
  {
  }

  lemma HandedConserves(ms: seq<Message>, n: nat, claimed: bool, quarantined: seq<Record>, appended: seq<Payload>, acked: set<nat>)
    requires Conserved(ms, quarantined, appended, acked) && n <= |ms|
    ensures Conserved(Handed(ms, n, claimed), quarantined, appended, acked)
  {
    hide Conserved;
    SameIds(ms, Handed(ms, n, claimed), quarantined, appended, acked);
  }

  lemma DeliveriesNext(ms: seq<Message>, m: Message, claimed: bool)
    requires forall x :: x in ms && x.claimed == claimed ==> Parses(x)
    requires m.claimed == claimed ==> Parses(m)
    ensures forall x :: x in ms + [m] && x.claimed == claimed ==> Parses(x)
    ensures Deliveries(ms + [m], claimed) ==
      Deliveries(ms, claimed) + if m.claimed == claimed then [DeliveryOf(Hand(m, claimed))] else []
  {
    assert (ms + [m])[..|ms|] == ms;
  }
}
