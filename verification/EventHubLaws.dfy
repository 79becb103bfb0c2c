/** What a stream delivers, over every interleaving of publishers and streams. */
module EventHubLaws {
  import opened Folds
  import opened EventHub

  // ----- positions -----

  ghost predicate Below(ps: seq<nat>, n: nat) {
    forall i :: 0 <= i < |ps| ==> ps[i] < n
  }

  /** The events at these positions. */
  function At(log: seq<Event>, ps: seq<nat>): (r: seq<Event>)
    requires forall i :: 0 <= i < |ps| ==> ps[i] < |log|
    ensures |r| == |ps| && forall i :: 0 <= i < |r| ==> r[i] == log[ps[i]]
  {
    seq(|ps|, i requires 0 <= i < |ps| => log[ps[i]])
  }

  ghost predicate Increasing(ps: seq<nat>) {
    forall i, j :: 0 <= i < j < |ps| ==> ps[i] < ps[j]
  }

  function Base(snapAt: nat): nat {
    if snapAt > HISTORY then snapAt - HISTORY else 0
  }

  // ----- the invariant -----

  /** Every event since the subscription was received, is queued, or was lost, once, and in order. */
  ghost predicate TraceOk(t: Trace, n: nat) {
    && t.start <= t.snapAt <= n
    && Below(t.received + t.queued, n)
    && Increasing(t.received + t.queued)
    && (forall p: nat :: multiset(t.received + t.queued)[p] + multiset(t.lost)[p] == One(t.start <= p < n))
    && |t.queued| <= SLOTS
  }

  /** Nothing is received before the snapshot is sent; what the client got is the sent part of the
      snapshot, then the received events; and a snapshot holds the last 128 events before it. */
  ghost predicate StageOk(s: Stream, log: seq<Event>)
    requires TraceOk(s.trace, |log|)
  {
    var t := s.trace;
    && (s.stage.Subscribed? ==> t.received == [] && s.sent == [])
    && (s.stage.Sending? ==>
          && s.stage.done <= |s.stage.snapshot|
          && s.stage.snapshot == log[Base(t.snapAt)..t.snapAt]
          && (s.stage.done < |s.stage.snapshot| ==> t.received == [])
          && s.sent == s.stage.snapshot[..s.stage.done] + Got(t, log)
          && (t.lost == [] ==> t.snapAt <= t.start + SLOTS))
  }

  function Got(t: Trace, log: seq<Event>): seq<Event>
    requires Below(t.received + t.queued, |log|)
  {
    assert forall i :: 0 <= i < |t.received| ==> t.received[i] == (t.received + t.queued)[i];
    At(log, t.received)
  }

  function Waiting(t: Trace, log: seq<Event>): seq<Event>
    requires Below(t.received + t.queued, |log|)
  {
    assert forall i :: 0 <= i < |t.queued| ==> t.queued[i] == (t.received + t.queued)[|t.received| + i];
    At(log, t.queued)
  }

  ghost predicate StreamOk(s: Stream, hub: Hub, log: seq<Event>) {
    !s.stage.Closed? ==>
      && TraceOk(s.trace, |log|)
      && StageOk(s, log)
      && s.id in hub.queues && hub.queues[s.id] == Waiting(s.trace, log)
  }

  ghost predicate Good(s: System) {
    && s.hub.history == s.log[Base(|s.log|)..]
    && (forall i :: 0 <= i < |s.streams| ==> s.streams[i].id < s.hub.nextId)
    && (forall i, j :: 0 <= i < j < |s.streams| ==> s.streams[i].id != s.streams[j].id)
    && (forall i :: 0 <= i < |s.streams| ==> StreamOk(s.streams[i], s.hub, s.log))
  }

  // ----- steps -----

  lemma TracePublished(t: Trace, n: nat, t': Trace)
    requires TraceOk(t, n)
    requires t' == if |t.queued| < SLOTS then t.(queued := t.queued + [n]) else t.(lost := t.lost + [n])
    ensures TraceOk(t', n + 1)
  {
    var both := t.received + t.queued;
    if |t.queued| < SLOTS {
      assert t'.received + t'.queued == both + [n];
      CountMore(both, n);
    } else {
      assert t'.received + t'.queued == both;
      CountMore(t.lost, n);
    }
  }

  lemma CountMore(ps: seq<nat>, n: nat)
    ensures forall p: nat :: multiset(ps + [n])[p] == multiset(ps)[p] + One(p == n)
  {
    assert multiset(ps + [n]) == multiset(ps) + multiset{n};
  }

  lemma PartsBelow(a: seq<nat>, b: seq<nat>, n: nat)
    requires Below(a + b, n)
    ensures Below(a, n) && Below(b, n)
  {
    assert forall i :: 0 <= i < |a| ==> a[i] == (a + b)[i];
    assert forall i :: 0 <= i < |b| ==> b[i] == (a + b)[|a| + i];
  }

  lemma StageGrows(s: Stream, log: seq<Event>, e: Event, t': Trace)
    requires TraceOk(s.trace, |log|) && StageOk(s, log)
    requires TraceOk(t', |log| + 1) && t'.received == s.trace.received && t'.start == s.trace.start && t'.snapAt == s.trace.snapAt
    requires t'.lost == [] ==> s.trace.lost == []
    ensures StageOk(s.(trace := t'), log + [e])
  {
    PartsBelow(s.trace.received, s.trace.queued, |log|);
    assert s.stage.Sending? ==> (log + [e])[Base(s.trace.snapAt)..s.trace.snapAt] == log[Base(s.trace.snapAt)..s.trace.snapAt];
  }

  lemma QueueGrows(t: Trace, t': Trace, log: seq<Event>, e: Event)
    requires TraceOk(t, |log|) && TraceOk(t', |log| + 1)
    requires t'.queued == if |t.queued| < SLOTS then t.queued + [|log|] else t.queued
    ensures Waiting(t', log + [e]) == Offer(Waiting(t, log), e)
  {
    PartsBelow(t.received, t.queued, |log|);
  }

  lemma PublishKeepsStream(s: Stream, hub: Hub, log: seq<Event>, e: Event)
    requires StreamOk(s, hub, log)
    ensures StreamOk(Record(hub, s, |log|), Publish(hub, e), log + [e])
  {
    if !s.stage.Closed? {
      var s', hub' := Record(hub, s, |log|), Publish(hub, e);
      assert hub.queues[s.id] == Waiting(s.trace, log) && hub'.queues[s.id] == Offer(hub.queues[s.id], e);
      assert s' == s.(trace := s'.trace);
      TracePublished(s.trace, |log|, s'.trace);
      StageGrows(s, log, e, s'.trace);
      QueueGrows(s.trace, s'.trace, log, e);
    }
  }

  lemma TrimKeeps(log: seq<Event>, e: Event)
    ensures Trim(log[Base(|log|)..] + [e]) == (log + [e])[Base(|log| + 1)..]
  {
  }

  lemma PublishKeeps(s: System, e: Event)
    requires Good(s)
    ensures Good(Apply(s, DoPublish(e)))
  {
    var s' := Apply(s, DoPublish(e));
    TrimKeeps(s.log, e);
    forall i | 0 <= i < |s'.streams|
      ensures StreamOk(s'.streams[i], s'.hub, s'.log)
    {
      PublishKeepsStream(s.streams[i], s.hub, s.log, e);
    }
  }

  lemma OpenKeeps(s: System)
    requires Good(s)
    ensures Good(Apply(s, DoOpen))
  {
    var s' := Apply(s, DoOpen);
    var n := |s.streams|;
    forall i | 0 <= i < |s'.streams|
      ensures StreamOk(s'.streams[i], s'.hub, s'.log)
    {
      if i < n {
        assert StreamOk(s.streams[i], s.hub, s.log);
      } else {
        assert s'.streams[i].trace.received + s'.streams[i].trace.queued == [];
      }
    }
  }

  /** A step of one stream leaves the others as they were. */
  lemma OthersKeep(s: System, s': System, i: nat)
    requires Good(s) && i < |s.streams| && |s'.streams| == |s.streams|
    requires s'.log == s.log && s'.hub.history == s.hub.history && s'.hub.nextId == s.hub.nextId
    requires s'.streams == s.streams[i := s'.streams[i]] && s'.streams[i].id == s.streams[i].id
    requires forall id :: id in s.hub.queues && id != s.streams[i].id ==> id in s'.hub.queues && s'.hub.queues[id] == s.hub.queues[id]
    requires StreamOk(s'.streams[i], s'.hub, s.log)
    ensures Good(s')
  {
    forall j | 0 <= j < |s'.streams|
      ensures StreamOk(s'.streams[j], s'.hub, s'.log)
    {
      if j != i {
        assert StreamOk(s.streams[j], s.hub, s.log);
        assert s.streams[j].id != s.streams[i].id by {
          if j < i {
            assert s.streams[j].id != s.streams[i].id;
          } else {
            assert s.streams[i].id != s.streams[j].id;
          }
        }
      }
    }
  }

  lemma {:induction false} CountedLength(ps: seq<nat>, lo: nat, hi: nat)
    requires forall p: nat :: multiset(ps)[p] == One(lo <= p < hi)
    requires lo <= hi
    ensures |ps| == hi - lo
  {
    assert ps != [] ==> multiset(ps)[ps[0]] > 0;
    if lo < hi {
      assert multiset(ps)[lo] == 1;
      assert lo in multiset(ps);
      var k :| 0 <= k < |ps| && ps[k] == lo;
      var rest: seq<nat> := ps[..k] + ps[k + 1..];
      var counts: multiset<nat> := multiset(rest);
      assert ps == ps[..k] + [lo] + ps[k + 1..];
      assert multiset(ps) == counts + multiset{lo};
      forall p: nat
        ensures counts[p] == One(lo + 1 <= p < hi)
      {
        assert multiset(ps)[p] == counts[p] + multiset{lo}[p];
      }
      CountedLength(rest, lo + 1, hi);
    }
  }

  lemma SnapshotStream(x: Stream, log: seq<Event>, x': Stream)
    requires x.stage.Subscribed? && TraceOk(x.trace, |log|) && StageOk(x, log)
    requires x' == x.(stage := Sending(log[Base(|log|)..], 0), trace := x.trace.(snapAt := |log|))
    ensures TraceOk(x'.trace, |log|) && StageOk(x', log) && Waiting(x'.trace, log) == Waiting(x.trace, log)
  {
    var t := x.trace;
    assert t.received + t.queued == t.queued;
    if t.lost == [] {
      assert forall p: nat :: multiset(t.lost)[p] == 0;
      CountedLength(t.queued, t.start, |log|);
    }
    assert log[Base(|log|)..] == log[Base(|log|)..|log|];
    assert Got(x'.trace, log) == [];
    assert x'.stage.snapshot[..0] == [];
  }

  lemma SnapshotKeeps(s: System, i: nat)
    requires Good(s) && Enabled(s, DoSnapshot(i))
    ensures Good(Apply(s, DoSnapshot(i)))
  {
    var s' := Apply(s, DoSnapshot(i));
    assert StreamOk(s.streams[i], s.hub, s.log);
    SnapshotStream(s.streams[i], s.log, s'.streams[i]);
    OthersKeep(s, s', i);
  }

  lemma SendKeeps(s: System, i: nat)
    requires Good(s) && Enabled(s, DoSend(i))
    ensures Good(Apply(s, DoSend(i)))
  {
    var s' := Apply(s, DoSend(i));
    var x := s.streams[i];
    assert StreamOk(x, s.hub, s.log);
    assert Got(x.trace, s.log) == [];
    assert x.stage.snapshot[..x.stage.done + 1] == x.stage.snapshot[..x.stage.done] + [x.stage.snapshot[x.stage.done]];
    OthersKeep(s, s', i);
  }

  lemma ReceivedKeeps(x: Stream, queue: seq<Event>, log: seq<Event>, x': Stream)
    requires Follows(x) && TraceOk(x.trace, |log|) && StageOk(x, log)
    requires queue == Waiting(x.trace, log) && queue != []
    requires x' == x.(sent := x.sent + [queue[0]], trace := TakeOne(x.trace))
    ensures TraceOk(x'.trace, |log|) && StageOk(x', log) && Waiting(x'.trace, log) == queue[1..]
  {
    TakenOk(x.trace, |log|);
    TakenAt(x.trace, log);
  }

  lemma TakenOk(t: Trace, n: nat)
    requires TraceOk(t, n)
    ensures TraceOk(TakeOne(t), n)
  {
    assert TakeOne(t).received + TakeOne(t).queued == t.received + t.queued;
  }

  lemma TakenAt(t: Trace, log: seq<Event>)
    requires Below(t.received + t.queued, |log|) && Below(TakeOne(t).received + TakeOne(t).queued, |log|) && t.queued != []
    ensures Got(TakeOne(t), log) == Got(t, log) + [Waiting(t, log)[0]] && Waiting(TakeOne(t), log) == Waiting(t, log)[1..]
  {
  }

  lemma ReceiveKeeps(s: System, i: nat)
    requires Good(s) && Enabled(s, DoReceive(i))
    ensures Good(Apply(s, DoReceive(i)))
  {
    var s' := Apply(s, DoReceive(i));
    assert StreamOk(s.streams[i], s.hub, s.log);
    ReceivedKeeps(s.streams[i], s.hub.queues[s.streams[i].id], s.log, s'.streams[i]);
    OthersKeep(s, s', i);
  }

  lemma CloseKeeps(s: System, i: nat)
    requires Good(s) && Enabled(s, DoClose(i))
    ensures Good(Apply(s, DoClose(i)))
  {
    OthersKeep(s, Apply(s, DoClose(i)), i);
  }

  lemma {:induction false} RunGood(states: seq<System>, acts: seq<Action>, k: nat)
    requires IsRun(states, acts) && k < |states|
    ensures Good(states[k])
  {
    if k > 0 {
      RunGood(states, acts, k - 1);
      assert Enabled(states[k - 1], acts[k - 1]) && states[(k - 1) + 1] == Apply(states[k - 1], acts[k - 1]);
      match acts[k - 1]
      case DoPublish(e) => PublishKeeps(states[k - 1], e);
      case DoOpen => OpenKeeps(states[k - 1]);
      case DoSnapshot(i) => SnapshotKeeps(states[k - 1], i);
      case DoSend(i) => SendKeeps(states[k - 1], i);
      case DoReceive(i) => ReceiveKeeps(states[k - 1], i);
      case DoClose(i) => CloseKeeps(states[k - 1], i);
    }
  }

  // ----- what runs guarantee -----

  /** History is always the last min(128, n) of the n published events. */
  lemma HistoryIsTail(states: seq<System>, acts: seq<Action>, k: nat)
    requires IsRun(states, acts) && k < |states|
    ensures var s := states[k];
            && |s.hub.history| == (if |s.log| < 128 then |s.log| else 128)
            && s.hub.history == s.log[|s.log| - |s.hub.history|..]
  {
    RunGood(states, acts, k);
  }

  /** An open stream's channel carries an ordered subsequence of the events after its subscription:
      each later event is received, waiting, or lost, exactly once. */
  lemma ChannelIsOrderedSubsequence(states: seq<System>, acts: seq<Action>, k: nat, i: nat)
    requires IsRun(states, acts) && k < |states| && i < |states[k].streams| && !states[k].streams[i].stage.Closed?
    ensures var s, x := states[k], states[k].streams[i];
            var carried := x.trace.received + x.trace.queued;
            && Increasing(carried) && Below(carried, |s.log|)
            && x.id in s.hub.queues && At(s.log, carried) == Got(x.trace, s.log) + s.hub.queues[x.id]
            && forall p: nat :: multiset(carried)[p] + multiset(x.trace.lost)[p] == One(x.trace.start <= p < |s.log|)
  {
    RunGood(states, acts, k);
    assert StreamOk(states[k].streams[i], states[k].hub, states[k].log);
  }

  /** An event is lost to an open stream exactly when it is published while the stream's queue is full. */
  lemma LostExactlyWhenFull(states: seq<System>, acts: seq<Action>, k: nat, i: nat)
    requires IsRun(states, acts) && k < |acts| && i < |states[k].streams| && !states[k].streams[i].stage.Closed?
    ensures var x, x' := states[k].streams[i], states[k + 1].streams[i];
            && x.id in states[k].hub.queues
            && |states[k].hub.queues[x.id]| <= 32
            && (x'.trace.lost != x.trace.lost <==> acts[k].DoPublish? && |states[k].hub.queues[x.id]| == 32)
            && (x'.trace.lost != x.trace.lost ==> x'.trace.lost == x.trace.lost + [|states[k].log|])
  {
    RunGood(states, acts, k);
    assert StreamOk(states[k].streams[i], states[k].hub, states[k].log);
    assert Enabled(states[k], acts[k]) && states[k + 1] == Apply(states[k], acts[k]);
  }

  /** How often the event at a position is sent to the client, or waits to be: by the snapshot, and by the channel. */
  function Times(x: Stream, p: nat): nat {
    One(Base(x.trace.snapAt) <= p < x.trace.snapAt) + multiset(x.trace.received + x.trace.queued)[p]
  }

  /** A stream that follows its channel has sent the snapshot and what it received; its deliveries
      reach back to the snapshot's first event without a gap exactly when nothing published after the
      snapshot was lost. */
  lemma NoGapExactlyWhen(states: seq<System>, acts: seq<Action>, k: nat, i: nat)
    requires IsRun(states, acts) && k < |states| && i < |states[k].streams| && Follows(states[k].streams[i])
    ensures var s, x := states[k], states[k].streams[i];
            && Base(x.trace.snapAt) <= x.trace.snapAt <= |s.log|
            && Below(x.trace.received + x.trace.queued, |s.log|)
            && x.sent == s.log[Base(x.trace.snapAt)..x.trace.snapAt] + Got(x.trace, s.log)
            && ((forall p: nat :: Base(x.trace.snapAt) <= p < |s.log| ==> Times(x, p) >= 1)
                <==> forall j :: 0 <= j < |x.trace.lost| ==> x.trace.lost[j] < x.trace.snapAt)
  {
    RunGood(states, acts, k);
    var s, x := states[k], states[k].streams[i];
    var t := x.trace;
    assert StreamOk(x, s.hub, s.log);
    assert x.stage.snapshot[..x.stage.done] == x.stage.snapshot;
    if forall p: nat :: Base(t.snapAt) <= p < |s.log| ==> Times(x, p) >= 1 {
      forall j | 0 <= j < |t.lost|
        ensures t.lost[j] < t.snapAt
      {
        var p := t.lost[j];
        assert p in multiset(t.lost);
        assert multiset(t.lost)[p] >= 1;
        assert Base(t.snapAt) <= p < |s.log| ==> Times(x, p) >= 1;
      }
    }
    if forall j :: 0 <= j < |t.lost| ==> t.lost[j] < t.snapAt {
      forall p: nat | Base(t.snapAt) <= p < |s.log|
        ensures Times(x, p) >= 1
      {
        if p >= t.snapAt {
          assert p !in t.lost;
          assert multiset(t.lost)[p] == 0;
        }
      }
    }
  }

  /** If nothing was lost, every event from the snapshot's first on is delivered, none before it, and
      exactly the events published between Subscribe and History twice. */
  lemma DoubledExactlyBetween(states: seq<System>, acts: seq<Action>, k: nat, i: nat, p: nat)
    requires IsRun(states, acts) && k < |states| && i < |states[k].streams|
    requires Follows(states[k].streams[i]) && states[k].streams[i].trace.lost == []
    ensures var s, x := states[k], states[k].streams[i];
            && Times(x, p) == (if p < Base(x.trace.snapAt) || p >= |s.log| then 0
                               else if x.trace.start <= p < x.trace.snapAt then 2 else 1)
            && Base(x.trace.snapAt) <= x.trace.start
  {
    RunGood(states, acts, k);
    assert StreamOk(states[k].streams[i], states[k].hub, states[k].log);
    assert multiset(states[k].streams[i].trace.lost)[p] == 0;
  }
}
