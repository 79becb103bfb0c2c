/** The hub as the source keeps it: history and channels updated in place, with the loop that offers
    each event to every subscriber, and a stream joining the snapshot to its channel. */
module EventHubStore {
  import E = EventHub

  /** A buffered channel of 32 slots. */
  class Channel {
    var buffer: seq<E.Event>
    var closed: bool

    ghost predicate Valid()
      reads this
    {
      |buffer| <= E.SLOTS && !closed
    }

    constructor ()
      ensures Valid() && buffer == []
    {
      buffer, closed := [], false;
    }

    /** A send in a `select` with a default: the event goes last if a slot is free, and is dropped,
        leaving what waits as it was, if none is. */
    method Offer(e: E.Event)
      requires Valid()
      modifies this`buffer
      ensures Valid()
      ensures |old(buffer)| < 32 ==> buffer == old(buffer) + [e]
      ensures |old(buffer)| == 32 ==> buffer == old(buffer)
    {
      if |buffer| < E.SLOTS {
        buffer := buffer + [e];
      }
    }

    method Receive() returns (e: E.Event)
      requires buffer != []
      modifies this`buffer
      ensures [e] + buffer == old(buffer)
    {
      e := buffer[0];
      buffer := buffer[1..];
    }
  }

  lemma AllOffered(before: map<nat, seq<E.Event>>, after: map<nat, seq<E.Event>>, e: E.Event)
    requires before.Keys == after.Keys
    requires forall id :: id in before ==> after[id] == E.Offer(before[id], e)
    ensures after == E.OfferEach(before, e)
  {
  }

  lemma QueueAdded(before: map<nat, seq<E.Event>>, after: map<nat, seq<E.Event>>, id: nat)
    requires after.Keys == before.Keys + {id} && after[id] == []
    requires forall other :: other in before && other != id ==> after[other] == before[other]
    ensures after == before[id := []]
  {
  }

  class EventHub {
    var nextId: nat
    var history: seq<E.Event>
    var subs: map<nat, Channel>

    /** Subscribers hold distinct open channels under ids already given out. */
    ghost predicate Valid()
      reads this, subs.Values
    {
      && (forall id :: id in subs ==> id < nextId && subs[id] in subs.Values && subs[id].Valid())
      && (forall a, b :: a in subs && b in subs && subs[a] == subs[b] ==> a == b)
    }

    ghost function View(): E.Hub
      reads this, subs.Values
    {
      E.Hub(history, nextId, Queues())
    }

    ghost function Queues(): map<nat, seq<E.Event>>
      reads this`subs, subs.Values
    {
      map id | id in subs :: subs[id].buffer
    }

    constructor ()
      ensures Valid() && View() == E.NEW_HUB && subs == map[]
    {
      nextId, history, subs := 0, [], map[];
    }

    method OfferAll(e: E.Event)
      requires Valid()
      modifies subs.Values`buffer
      ensures Valid()
      ensures forall id :: id in subs ==> subs[id].buffer == E.Offer(old(subs[id].buffer), e)
    {
      var left := subs.Keys;
      while left != {}
        invariant left <= subs.Keys && Valid()
        invariant forall id :: id in left ==> subs[id].buffer == old(subs[id].buffer)
        invariant forall id :: id in subs && id !in left ==> subs[id].buffer == E.Offer(old(subs[id].buffer), e)
      {
        var id :| id in left;
        assert subs[id] in subs.Values;
        subs[id].Offer(e);
        left := left - {id};
      }
    }

    method Publish(e: E.Event)
      requires Valid()
      modifies this`history, subs.Values`buffer
      ensures Valid() && View() == E.Publish(old(View()), e)
    {
      ghost var before := Queues();
      history := history + [e];
      if |history| > E.HISTORY {
        history := history[|history| - E.HISTORY..];
      }
      OfferAll(e);
      AllOffered(before, Queues(), e);
    }

    method Subscribe() returns (id: nat, channel: Channel)
      requires Valid()
      modifies this`nextId, this`subs
      ensures Valid() && (View(), id) == E.Subscribe(old(View()))
      ensures fresh(channel) && subs == old(subs)[id := channel] && channel.buffer == []
    {
      id := nextId;
      nextId := nextId + 1;
      channel := new Channel();
      subs := subs[id := channel];
      QueueAdded(old(Queues()), Queues(), id);
    }

    method Unsubscribe(id: nat)
      requires Valid()
      modifies this`subs, subs.Values
      ensures Valid() && View() == E.Unsubscribe(old(View()), id)
      ensures id in old(subs) ==> old(subs)[id].closed
    {
      if id in subs {
        var channel := subs[id];
        subs := subs - {id};
        channel.closed := true;
      }
    }

    method History() returns (snapshot: seq<E.Event>)
      ensures snapshot == history
    {
      snapshot := history;
    }
  }

  /** A stream up to the first point where it waits: it subscribes, then sends the snapshot one event at a time. */
  method SendHistory(hub: EventHub) returns (id: nat, channel: Channel, sent: seq<E.Event>)
    requires hub.Valid()
    modifies hub`nextId, hub`subs
    ensures hub.Valid() && (hub.View(), id) == E.Subscribe(old(hub.View()))
    ensures id in hub.subs && hub.subs[id] == channel && channel.buffer == []
    ensures sent == hub.history
  {
    id, channel := hub.Subscribe();
    var snapshot := hub.History();
    sent := [];
    var i := 0;
    while i < |snapshot|
      invariant 0 <= i <= |snapshot| && sent == snapshot[..i]
    {
      sent := sent + [snapshot[i]];
      i := i + 1;
    }
  }

  /** The receive loop, until the channel is empty again. */
  method Follow(channel: Channel, already: seq<E.Event>) returns (sent: seq<E.Event>)
    modifies channel`buffer
    ensures channel.buffer == [] && sent == already + old(channel.buffer)
  {
    sent := already;
    while |channel.buffer| > 0
      invariant sent + channel.buffer == already + old(channel.buffer)
      decreases |channel.buffer|
    {
      ghost var before := channel.buffer;
      var e := channel.Receive();
      assert sent + before == (sent + [e]) + channel.buffer;
      sent := sent + [e];
    }
  }
}
