/** The in-memory inbox in its in-place form. */
module MemoryInbox {
  import opened Prelude
  import opened DataPoints
  import opened DataPointStore
  import opened Inbox

  class InMemoryInbox {
    var messages: seq<Message>
    var quarantined: seq<Record>
    var maxEpoch: nat
    var nextId: nat                  // stands for the fresh identifier each append draws
    ghost var appended: seq<Payload>
    ghost var acked: set<nat>

    ghost predicate Valid()
      reads this
    {
      nextId == |appended| && Conserved(messages, quarantined, appended, acked)
    }

    constructor ()
      ensures Valid() && messages == [] && quarantined == [] && appended == [] && acked == {}
    {
      messages, quarantined, maxEpoch, nextId, appended, acked := [], [], 0, 0, [], {};
    }

    method Append(payload: Payload) returns (id: nat)
      requires Valid()
      modifies this`messages, this`nextId, this`appended
      ensures Valid() && id == |old(appended)| && appended == old(appended) + [payload]
      ensures messages == old(messages) + [Message(id, payload, 0, false)]
    {
      AppendConserves(messages, quarantined, appended, acked, payload);
      id := nextId;
      messages := messages + [Message(id, payload, 0, false)];
      nextId, appended := nextId + 1, appended + [payload];
    }

    /** Claims undelivered messages in append order, up to a limit; a payload the parser refuses raises. */
    method Consume(maxEntries: Option<int>) returns (delivered: seq<Delivered>, raised: bool, ghost upTo: nat)
      requires Valid()
      modifies this`messages
      ensures Valid() && upTo <= |old(messages)| && messages == Handed(old(messages), upTo, false)
      ensures !raised ==>
        && (forall m :: m in old(messages)[..upTo] && !m.claimed ==> Parses(m))
        && delivered == Deliveries(old(messages)[..upTo], false)
        && (upTo < |old(messages)| ==> maxEntries.Some? && maxEntries.value <= |delivered|)
      ensures raised ==> exists m :: m in old(messages) && !m.claimed && !Parses(m)
    {
      hide Deliveries, Conserved, Handed;
      delivered, raised, upTo := [], false, 0;
      ghost var start := messages;
      NothingHanded(start, false);
      if maxEntries.Some? && maxEntries.value <= 0 {
        return;
      }
      var i := 0;
      while i < |messages| && (maxEntries.None? || |delivered| < maxEntries.value)
        invariant 0 <= i <= |start| == |messages| && upTo == i
        invariant messages == Handed(start, i, false)
        invariant forall m :: m in start[..i] && !m.claimed ==> Parses(m)
        invariant delivered == Deliveries(start[..i], false)
      {
        HandedNext(start, i, false);
        HandedConserves(start, i + 1, false, quarantined, appended, acked);
        var m := messages[i];
        upTo := i + 1;
        if !m.claimed {
          m := m.(claimed := true, deliveryCount := m.deliveryCount + 1);
          messages := messages[i := m];
          if m.payload.Unparseable? {
            assert start[i] in start && !Parses(start[i]);
            raised := true;
            return;
          }
          delivered := delivered + [DeliveryOf(m)];
        }
        DeliveriesNext(start[..i], start[i], false);
        i := i + 1;
      }
      HandedConserves(start, i, false, quarantined, appended, acked);
    }

    /** Re-presents every claimed message, counting the delivery. */
    method Reclaim() returns (delivered: seq<Delivered>, raised: bool, ghost upTo: nat)
      requires Valid()
      modifies this`messages
      ensures Valid() && upTo <= |old(messages)| && messages == Handed(old(messages), upTo, true)
      ensures !raised ==>
        && upTo == |old(messages)|
        && (forall m :: m in old(messages) && m.claimed ==> Parses(m))
        && delivered == Deliveries(old(messages), true)
      ensures raised ==> exists m :: m in old(messages) && m.claimed && !Parses(m)
    {
      hide Deliveries, Conserved, Handed;
      delivered, raised, upTo := [], false, 0;
      ghost var start := messages;
      NothingHanded(start, true);
      for i := 0 to |messages|
        invariant |messages| == |start| && upTo == i
        invariant messages == Handed(start, i, true)
        invariant forall m :: m in start[..i] && m.claimed ==> Parses(m)
        invariant delivered == Deliveries(start[..i], true)
      {
        HandedNext(start, i, true);
        HandedConserves(start, i + 1, true, quarantined, appended, acked);
        var m := messages[i];
        upTo := i + 1;
        if m.claimed {
          m := m.(deliveryCount := m.deliveryCount + 1);
          messages := messages[i := m];
          if m.payload.Unparseable? {
            assert start[i] in start && !Parses(start[i]);
            raised := true;
            return;
          }
          delivered := delivered + [DeliveryOf(m)];
        }
        DeliveriesNext(start[..i], start[i], true);
      }
      assert start[..|start|] == start;
      HandedConserves(start, |start|, true, quarantined, appended, acked);
    }

    method GuardEpoch(epoch: nat) returns (accepted: bool)
      modifies this`maxEpoch
      ensures accepted == (epoch >= old(maxEpoch))
      ensures maxEpoch == if accepted then epoch else old(maxEpoch)
    {
      if epoch < maxEpoch {
        return false;
      }
      maxEpoch := epoch;
      return true;
    }

    method IndexOf(id: nat) returns (index: Option<nat>)
      requires Ordered(messages)
      ensures index.Some? ==> index.value < |messages| && messages[index.value].id == id
      ensures index.None? ==> Lookup(messages, id).None?
      ensures index.Some? ==> Lookup(messages, id) == Some(messages[index.value])
    {
      LookupIs(messages, id);
      for i := 0 to |messages|
        invariant forall j :: 0 <= j < i ==> messages[j].id != id
      {
        if messages[i].id == id {
          assert messages[i] in messages;
          return Some(i);
        }
      }
      return None;
    }

    /** Removes a claimed message; on an unclaimed or unknown one it does nothing. */
    method Ack(id: nat, epoch: nat) returns (r: Result<()>)
      requires Valid()
      modifies this`messages, this`maxEpoch, this`acked
      ensures Valid() && maxEpoch == Max(old(maxEpoch), epoch)
      ensures r.StaleEpoch? <==> epoch < old(maxEpoch)
      ensures r.StaleEpoch? ==> messages == old(messages) && acked == old(acked)
      ensures r.Ok? ==>
        var was := Lookup(old(messages), id);
        var removed := was.Some? && was.value.claimed;
        && acked == (if removed then old(acked) + {id} else old(acked))
        && forall x :: Lookup(messages, x) == if x == id && removed then None else Lookup(old(messages), x)
    {
      var accepted := GuardEpoch(epoch);
      if !accepted {
        return StaleEpoch;
      }
      var index := IndexOf(id);
      if index.Some? && messages[index.value].claimed {
        var i := index.value;
        forall x ensures Lookup(messages[..i] + messages[i + 1..], x) == if x == id then None else Lookup(messages, x) {
          if x >= 0 { LookupRemoved(messages, i, x); }
        }
        RemoveConserves(messages, quarantined, appended, acked, i, "");
        messages, acked := messages[..i] + messages[i + 1..], acked + {id};
      }
      return Ok(());
    }

    /** Takes a claimed message out of delivery for good, keeping a record of it. */
    method Quarantine(id: nat, reason: string, epoch: nat) returns (r: Result<()>)
      requires Valid()
      modifies this`messages, this`maxEpoch, this`quarantined
      ensures Valid() && maxEpoch == Max(old(maxEpoch), epoch)
      ensures r.StaleEpoch? <==> epoch < old(maxEpoch)
      ensures r.StaleEpoch? ==> messages == old(messages) && quarantined == old(quarantined)
      ensures r.Ok? ==>
        var was := Lookup(old(messages), id);
        var removed := was.Some? && was.value.claimed;
        && quarantined == (if removed then old(quarantined) + [Record(id, reason, was.value.deliveryCount, was.value.payload)]
                           else old(quarantined))
        && forall x :: Lookup(messages, x) == if x == id && removed then None else Lookup(old(messages), x)
    {
      var accepted := GuardEpoch(epoch);
      if !accepted {
        return StaleEpoch;
      }
      var index := IndexOf(id);
      if index.Some? && messages[index.value].claimed {
        var i := index.value;
        forall x ensures Lookup(messages[..i] + messages[i + 1..], x) == if x == id then None else Lookup(messages, x) {
          if x >= 0 { LookupRemoved(messages, i, x); }
        }
        RemoveConserves(messages, quarantined, appended, acked, i, reason);
        quarantined := quarantined + [Record(id, reason, messages[i].deliveryCount, messages[i].payload)];
        messages := messages[..i] + messages[i + 1..];
      }
      return Ok(());
    }
  }
}
