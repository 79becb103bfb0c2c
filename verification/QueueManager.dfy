/**
  The queue's shared memory as the source keeps it: each method below is one atomic section, proved
  to do what the interleaving model says that section does.
 */
module QueueManager {
  import opened Options
  import opened WorkQueue
  import opened WorkQueueOrder

  /** Every deque holds tasks of its own priority. */
  ghost predicate WellSorted(b: Buckets) {
    forall p: Priority, x :: 0 <= x < |b.Deque(p)| ==> b.Deque(p)[x].priority == p
  }

  /** A push grows its own deque, and is popped next only if nothing as urgent waits. */
  lemma PushIs(b: Buckets, t: QueueTask)
    requires WellSorted(b)
    ensures WellSorted(b.PushBack(t))
    ensures b.PushBack(t).Deque(t.priority) == b.Deque(t.priority) + [t]
    ensures forall p: Priority :: p != t.priority ==> b.PushBack(t).Deque(p) == b.Deque(p)
    ensures b.PushBack(t).Front()
            == if b.Front().Some? && Rank(b.Front().value.priority) <= Rank(t.priority) then b.Front() else Some(t)
  {
    var after := b.PushBack(t);
    forall p: Priority, x | 0 <= x < |after.Deque(p)|
      ensures after.Deque(p)[x].priority == p
    {
      assert after.Deque(p) == b.Deque(p) + if p == t.priority then [t] else [];
      assert x < |b.Deque(p)| ==> b.Deque(p)[x].priority == p;
    }
    assert b.Front().Some? ==> b.Front().value == b.Deque(First(b))[0] && b.Front().value.priority == First(b);
  }

  /** A pop takes the head of the most urgent deque that is not empty. */
  lemma PopIs(b: Buckets)
    requires WellSorted(b)
    ensures WellSorted(b.PopFront())
    ensures b.Front().None? ==> b.PopFront() == b && forall p: Priority :: b.Deque(p) == []
    ensures b.Front().Some? ==>
              var t := b.Front().value;
              && b.Deque(t.priority) == [t] + b.PopFront().Deque(t.priority)
              && (forall p: Priority :: Rank(p) < Rank(t.priority) ==> b.Deque(p) == [])
              && (forall p: Priority :: p != t.priority ==> b.PopFront().Deque(p) == b.Deque(p))
  {
    if b.Front().Some? {
      assert b.Deque(First(b))[0].priority == First(b);
      forall p: Priority, x | 0 <= x < |b.PopFront().Deque(p)|
        ensures b.PopFront().Deque(p)[x].priority == p
      {
        var y := if p == First(b) then x + 1 else x;
        assert b.PopFront().Deque(p)[x] == b.Deque(p)[y];
      }
    }
  }

  class QueueInner {
    var rows: map<string, Row>
    var interactive: seq<QueueTask>
    var connector: seq<QueueTask>
    var autonomy: seq<QueueTask>
    var background: seq<QueueTask>
    var queueDepth: nat
    var permit: bool
    var inflight: nat
    const maxPending: nat

    /** Rows stand under their task's id, tasks in the deque of their priority, and the counter fits its word. */
    ghost predicate Valid()
      reads this
    {
      && (forall id :: id in rows ==> rows[id].task.taskId == id)
      && WellSorted(View().pending)
      && queueDepth < USIZE
    }

    ghost function View(): Shared
      reads this
    {
      Shared(rows, Buckets(interactive, connector, autonomy, background), queueDepth, permit, inflight)
    }

    constructor (c: Config)
      ensures Valid() && View() == Shared(map[], Buckets([], [], [], []), 0, false, if c.maxInflight == 0 then 1 else c.maxInflight)
      ensures View() == Init(c).shared && maxPending == 8 * (if c.maxInflight == 0 then 1 else c.maxInflight)
    {
      rows := map[];
      interactive, connector, autonomy, background := [], [], [], [];
      queueDepth, permit := 0, false;
      inflight := if c.maxInflight == 0 then 1 else c.maxInflight;
      maxPending := (if c.maxInflight == 0 then 1 else c.maxInflight) * 8;
    }

    /** The task has a queued row, and no other task's row has changed. */
    method StoreQueueTask(task: QueueTask)
      requires Valid()
      modifies this`rows
      ensures Valid() && HasRow(View(), task, Queued)
      ensures rows.Keys == old(rows).Keys + {task.taskId}
      ensures forall id :: id in old(rows) && id != task.taskId ==> rows[id] == old(rows)[id]
      ensures View() == StoreRow(old(View()), task)
    {
      rows := rows[task.taskId := Row(task, Queued)];
    }

    /** No row appears or vanishes or changes its task, and only the status of `taskId` changes. */
    method UpdateQueueStatus(taskId: string, status: Status)
      requires Valid()
      modifies this`rows
      ensures Valid() && rows.Keys == old(rows).Keys
      ensures forall id :: id in rows ==> rows[id].task == old(rows)[id].task
      ensures forall id :: id in rows ==> rows[id].status == if id == taskId then status else old(rows)[id].status
      ensures View() == UpdateRow(old(View()), taskId, status)
    {
      if taskId in rows {
        rows := rows[taskId := rows[taskId].(status := status)];
      }
    }

    /** The task joins the back of its own deque; it is next only if nothing as urgent waits. */
    method PushBack(task: QueueTask)
      requires Valid()
      modifies this`interactive, this`connector, this`autonomy, this`background
      ensures Valid()
      ensures View().pending.Deque(task.priority) == old(View().pending.Deque(task.priority)) + [task]
      ensures forall p: Priority :: p != task.priority ==> View().pending.Deque(p) == old(View()).pending.Deque(p)
      ensures View().pending.Front()
              == if old(View().pending.Front()).Some? && Rank(old(View().pending.Front()).value.priority) <= Rank(task.priority)
                 then old(View().pending.Front()) else Some(task)
      ensures View() == old(View()).(pending := old(View()).pending.PushBack(task))
    {
      PushIs(View().pending, task);
      match task.priority
      case Interactive => interactive := interactive + [task];
      case Connector => connector := connector + [task];
      case Autonomy => autonomy := autonomy + [task];
      case Background => background := background + [task];
    }

    /** Takes the head of the most urgent deque that is not empty, and leaves the others. */
    method NextQueuedTask() returns (task: Option<QueueTask>)
      requires Valid()
      modifies this`interactive, this`connector, this`autonomy, this`background
      ensures Valid()
      ensures task.None? ==> forall p: Priority :: old(View()).pending.Deque(p) == []
      ensures task.Some? ==>
                && old(View()).pending.Deque(task.value.priority) == [task.value] + View().pending.Deque(task.value.priority)
                && (forall p: Priority :: Rank(p) < Rank(task.value.priority) ==> old(View()).pending.Deque(p) == [])
                && (forall p: Priority :: p != task.value.priority ==> View().pending.Deque(p) == old(View()).pending.Deque(p))
      ensures task == old(View()).pending.Front()
      ensures View() == old(View()).(pending := old(View()).pending.PopFront())
    {
      PopIs(View().pending);
      if interactive != [] {
        task, interactive := Some(interactive[0]), interactive[1..];
      } else if connector != [] {
        task, connector := Some(connector[0]), connector[1..];
      } else if autonomy != [] {
        task, autonomy := Some(autonomy[0]), autonomy[1..];
      } else if background != [] {
        task, background := Some(background[0]), background[1..];
      } else {
        task := None;
      }
    }

    /** The counter moves up by one modulo 2^64; a subtraction undoes it. */
    method AddDepth()
      requires Valid()
      modifies this`queueDepth
      ensures Valid() && (queueDepth - old(queueDepth) - 1) % USIZE == 0
      ensures FetchSub(View()) == old(View())
      ensures View() == FetchAdd(old(View()))
    {
      queueDepth := (queueDepth + 1) % USIZE;
    }

    /** The counter moves down by one modulo 2^64, from zero to the largest word; an addition undoes it. */
    method SubtractDepth()
      requires Valid()
      modifies this`queueDepth
      ensures Valid() && (queueDepth + 1 - old(queueDepth)) % USIZE == 0
      ensures old(queueDepth) == 0 ==> queueDepth == USIZE - 1
      ensures FetchAdd(View()) == old(View())
      ensures View() == FetchSub(old(View()))
    {
      queueDepth := (queueDepth - 1) % USIZE;
    }

    method NotifyOne()
      requires Valid()
      modifies this`permit
      ensures Valid() && View() == old(View()).(permit := true)
    {
      permit := true;
    }

    /** A call of `enqueue` that no other thread interrupts. */
    method Enqueue(task: QueueTask) returns (accepted: bool)
      requires Valid()
      modifies this
      ensures Valid() && accepted == (old(queueDepth) < maxPending)
      ensures accepted ==> HasRow(View(), task, Queued) && permit
      ensures View() == if accepted then EnqueueAlone(old(View()), task) else old(View())
    {
      var queued := queueDepth;
      if queued >= maxPending {
        return false;
      }
      StoreQueueTask(task);
      PushBack(task);
      AddDepth();
      NotifyOne();
      accepted := true;
    }
  }

  /** What an uninterrupted accepted call does to shared memory. */
  function EnqueueAlone(m: Shared, task: QueueTask): Shared {
    FetchAdd(StoreRow(m, task).(pending := m.pending.PushBack(task))).(permit := true)
  }

  /** The steps of one call, taken without interruption. */
  function CallSteps(i: nat, task: QueueTask): seq<Action> {
    [Enter(task), Check(i), Store(i), Push(i), Count(i), Notify(i)]
  }

  /** Taken without interruption, the six steps of an accepted call do what the method `Enqueue` does. */
  lemma EnqueueIsSixSteps(c: Config, states: seq<System>, task: QueueTask)
    requires |states| == 7 && Follows(c, states, CallSteps(|states[0].calls|, task))
    ensures states[0].shared.depth < c.MaxPending()
    ensures states[6].shared == EnqueueAlone(states[0].shared, task)
    ensures states[6].calls == states[0].calls + [Call(task, Accepted)]
    ensures states[6].dispatcher == states[0].dispatcher && states[6].runs == states[0].runs
  {
    var i, acts := |states[0].calls|, CallSteps(|states[0].calls|, task);
    assert states[1] == Apply(c, states[0], acts[0]);
    assert states[2] == Apply(c, states[1], acts[1]) && states[3] == Apply(c, states[2], acts[2]);
    assert states[4] == Apply(c, states[3], acts[3]) && states[5] == Apply(c, states[4], acts[4]);
    assert states[6] == Apply(c, states[5], acts[5]);
    assert Enabled(states[2], acts[2]);
  }

  /** A refused call changes nothing but the list of calls. */
  lemma RefusalIsTwoSteps(c: Config, states: seq<System>, task: QueueTask)
    requires |states| == 3 && Follows(c, states, CallSteps(|states[0].calls|, task)[..2])
    requires states[0].shared.depth >= c.MaxPending()
    ensures states[2] == states[0].(calls := states[0].calls + [Call(task, Refused)])
  {
    var acts := CallSteps(|states[0].calls|, task)[..2];
    assert states[1] == Apply(c, states[0], acts[0]) && states[2] == Apply(c, states[1], acts[1]);
  }
}
