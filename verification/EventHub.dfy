/** The event hub and the streams fed by it, as interleaved steps. Each step is one section under the
    hub's mutex, one send to the client, or one receive from a channel. */
module EventHub {

  const HISTORY: nat := 128
  const SLOTS: nat := 32

  datatype Event = Event(id: int, eventType: string, payload: string, createdAt: string)

  datatype Hub = Hub(history: seq<Event>, nextId: nat, queues: map<nat, seq<Event>>)

  const NEW_HUB: Hub := Hub([], 0, map[])

  /** The last 128. */
  function Trim(history: seq<Event>): seq<Event> {
    if |history| > HISTORY then history[|history| - HISTORY..] else history
  }

  /** A send that does not block: a full queue drops the event. */
  function Offer(queue: seq<Event>, e: Event): seq<Event> {
    if |queue| < SLOTS then queue + [e] else queue
  }

  function OfferEach(queues: map<nat, seq<Event>>, e: Event): map<nat, seq<Event>> {
    map id | id in queues :: Offer(queues[id], e)
  }

  function Publish(h: Hub, e: Event): Hub {
    h.(history := Trim(h.history + [e]), queues := OfferEach(h.queues, e))
  }

  function Subscribe(h: Hub): (Hub, nat) {
    (h.(nextId := h.nextId + 1, queues := h.queues[h.nextId := []]), h.nextId)
  }

  function Unsubscribe(h: Hub, id: nat): Hub {
    h.(queues := h.queues - {id})
  }

  // ----- streams -----

  /** Where a stream is: subscribed; sending its snapshot, `done` of it sent; or over. Once the
      snapshot is sent the stream follows its channel. */
  datatype Stage = Subscribed | Sending(snapshot: seq<Event>, done: nat) | Closed

  /** What happened to the events published since a stream subscribed, as positions in the log. */
  datatype Trace = Trace(start: nat, snapAt: nat, received: seq<nat>, queued: seq<nat>, lost: seq<nat>)

  datatype Stream = Stream(id: nat, stage: Stage, sent: seq<Event>, trace: Trace)

  datatype System = System(hub: Hub, log: seq<Event>, streams: seq<Stream>)

  const START: System := System(NEW_HUB, [], [])

  predicate Follows(s: Stream) {
    s.stage.Sending? && s.stage.done == |s.stage.snapshot|
  }

  datatype Action =
    | DoPublish(event: Event)
    | DoOpen
    | DoSnapshot(i: nat)
    | DoSend(i: nat)
    | DoReceive(i: nat)
    | DoClose(i: nat)

  predicate Enabled(s: System, a: Action) {
    match a
    case DoPublish(_) => true
    case DoOpen => true
    case DoSnapshot(i) => i < |s.streams| && s.streams[i].stage.Subscribed?
    case DoSend(i) => i < |s.streams| && s.streams[i].stage.Sending? && s.streams[i].stage.done < |s.streams[i].stage.snapshot|
    case DoReceive(i) =>
      && i < |s.streams| && Follows(s.streams[i])
      && s.streams[i].id in s.hub.queues && s.hub.queues[s.streams[i].id] != []
    case DoClose(i) => i < |s.streams| && !s.streams[i].stage.Closed?
  }

  /** Whether the queue of an open stream takes the next event, recorded at its position. */
  function Record(h: Hub, s: Stream, position: nat): Stream {
    if s.stage.Closed? || s.id !in h.queues then s
    else if |h.queues[s.id]| < SLOTS then s.(trace := s.trace.(queued := s.trace.queued + [position]))
    else s.(trace := s.trace.(lost := s.trace.lost + [position]))
  }

  function RecordAll(h: Hub, streams: seq<Stream>, position: nat): (r: seq<Stream>)
    ensures |r| == |streams| && forall i :: 0 <= i < |r| ==> r[i] == Record(h, streams[i], position)
  {
    seq(|streams|, i requires 0 <= i < |streams| => Record(h, streams[i], position))
  }

  function Apply(s: System, a: Action): System
    requires Enabled(s, a)
  {
    match a
    case DoPublish(e) =>
      System(Publish(s.hub, e), s.log + [e], RecordAll(s.hub, s.streams, |s.log|))
    case DoOpen =>
      var (hub, id) := Subscribe(s.hub);
      System(hub, s.log, s.streams + [Stream(id, Subscribed, [], Trace(|s.log|, |s.log|, [], [], []))])
    case DoSnapshot(i) =>
      var x := s.streams[i];
      s.(streams := s.streams[i := x.(stage := Sending(s.hub.history, 0), trace := x.trace.(snapAt := |s.log|))])
    case DoSend(i) =>
      var x := s.streams[i];
      s.(streams := s.streams[i := x.(stage := x.stage.(done := x.stage.done + 1), sent := x.sent + [x.stage.snapshot[x.stage.done]])])
    case DoReceive(i) =>
      var x := s.streams[i];
      var queue := s.hub.queues[x.id];
      System(s.hub.(queues := s.hub.queues[x.id := queue[1..]]), s.log,
        s.streams[i := x.(sent := x.sent + [queue[0]], trace := TakeOne(x.trace))])
    case DoClose(i) =>
      var x := s.streams[i];
      System(Unsubscribe(s.hub, x.id), s.log, s.streams[i := x.(stage := Closed)])
  }

  function TakeOne(t: Trace): Trace {
    if t.queued == [] then t else t.(received := t.received + [t.queued[0]], queued := t.queued[1..])
  }

  ghost predicate IsRun(states: seq<System>, acts: seq<Action>) {
    && |states| == |acts| + 1
    && states[0] == START
    && forall k :: 0 <= k < |acts| ==> Enabled(states[k], acts[k]) && states[k + 1] == Apply(states[k], acts[k])
  }
}
