/** Order, conservation and exactly-once execution in the work queue. */
module WorkQueueOrder {
  import opened Folds
  import opened WorkQueue
  import opened WorkQueueLaws

  // ----- first in, first out within a priority -----

  lemma {:induction false} OfPriorityOnly(p: Priority, ts: seq<QueueTask>)
    ensures forall x :: 0 <= x < |OfPriority(p, ts)| ==> OfPriority(p, ts)[x].priority == p
  {
    if ts != [] {
      OfPriorityOnly(p, ts[..|ts| - 1]);
    }
  }

  /** For each priority, the push history is the pop history followed by the current deque. */
  ghost predicate Fifo(s: System) {
    forall p: Priority :: OfPriority(p, s.pushLog) == OfPriority(p, Popped(s)) + s.shared.pending.Deque(p)
  }

  lemma SuffixOnly(p: Priority, log: seq<QueueTask>, popped: seq<QueueTask>, deque: seq<QueueTask>, x: nat)
    requires OfPriority(p, log) == popped + deque && x < |deque|
    ensures deque[x].priority == p
  {
    OfPriorityOnly(p, log);
    assert (popped + deque)[|popped| + x] == deque[x];
  }

  lemma Typed(s: System, p: Priority, x: nat)
    requires Fifo(s) && x < |s.shared.pending.Deque(p)|
    ensures s.shared.pending.Deque(p)[x].priority == p
  {
    SuffixOnly(p, s.pushLog, OfPriority(p, Popped(s)), s.shared.pending.Deque(p), x);
  }

  function Rank(p: Priority): nat {
    match p
    case Interactive => 0
    case Connector => 1
    case Autonomy => 2
    case Background => 3
  }

  /** The priority of the deque that is popped. */
  function First(b: Buckets): Priority {
    if b.interactive != [] then Interactive
    else if b.connector != [] then Connector
    else if b.autonomy != [] then Autonomy else Background
  }

  /** A pop takes the head of its own deque while every more urgent deque is empty. */
  lemma PopsUrgentFirst(s: System)
    requires Fifo(s) && s.shared.pending.Front().Some?
    ensures var t, b := s.shared.pending.Front().value, s.shared.pending;
            && b.Deque(t.priority) == [t] + b.PopFront().Deque(t.priority)
            && (forall q: Priority :: Rank(q) < Rank(t.priority) ==> b.Deque(q) == [])
            && (forall q: Priority :: q != t.priority ==> b.PopFront().Deque(q) == b.Deque(q))
  {
    Typed(s, First(s.shared.pending), 0);
  }

  lemma PushDeque(b: Buckets, t: QueueTask, p: Priority)
    ensures b.PushBack(t).Deque(p) == b.Deque(p) + if t.priority == p then [t] else []
  {
  }

  lemma AppendAcross(p: Priority, log: seq<QueueTask>, popped: seq<QueueTask>, t: QueueTask,
                     deque: seq<QueueTask>, longer: seq<QueueTask>)
    requires OfPriority(p, log) == popped + deque
    requires longer == deque + if t.priority == p then [t] else []
    ensures OfPriority(p, log + [t]) == popped + longer
  {
    Assoc(popped, deque, if t.priority == p then [t] else []);
  }

  lemma PushFifo(c: Config, s: System, i: nat)
    requires Fifo(s) && Enabled(s, Push(i))
    ensures Fifo(Apply(c, s, Push(i)))
  {
    var s', t := Apply(c, s, Push(i)), s.calls[i].task;
    forall p: Priority
      ensures OfPriority(p, s'.pushLog) == OfPriority(p, Popped(s')) + s'.shared.pending.Deque(p)
    {
      PushDeque(s.shared.pending, t, p);
      AppendAcross(p, s.pushLog, OfPriority(p, Popped(s)), t, s.shared.pending.Deque(p), s'.shared.pending.Deque(p));
    }
  }

  lemma PopDeque(s: System, p: Priority)
    requires Fifo(s) && s.shared.pending.Front().Some?
    ensures var t, b := s.shared.pending.Front().value, s.shared.pending;
            b.Deque(p) == (if t.priority == p then [t] else []) + b.PopFront().Deque(p)
  {
    PopsUrgentFirst(s);
  }

  lemma MoveAcross(p: Priority, log: seq<QueueTask>, popped: seq<QueueTask>, t: QueueTask,
                   deque: seq<QueueTask>, shorter: seq<QueueTask>)
    requires OfPriority(p, log) == OfPriority(p, popped) + deque
    requires deque == (if t.priority == p then [t] else []) + shorter
    ensures OfPriority(p, log) == OfPriority(p, popped + [t]) + shorter
  {
    assert (popped + [t])[..|popped|] == popped;
    Assoc(OfPriority(p, popped), if t.priority == p then [t] else [], shorter);
  }

  lemma PopFifo(c: Config, s: System)
    requires Fifo(s) && Enabled(s, Pop)
    ensures Fifo(Apply(c, s, Pop))
  {
    var s' := Apply(c, s, Pop);
    if s.shared.pending.Front().Some? {
      var t := s.shared.pending.Front().value;
      assert Popped(s') == Popped(s) + [t];
      forall p: Priority
        ensures OfPriority(p, s'.pushLog) == OfPriority(p, Popped(s')) + s'.shared.pending.Deque(p)
      {
        PopDeque(s, p);
        MoveAcross(p, s.pushLog, Popped(s), t, s.shared.pending.Deque(p), s'.shared.pending.Deque(p));
      }
    } else {
      SameFifo(s, s');
    }
  }

  lemma SameFifo(s: System, s': System)
    requires Fifo(s) && Popped(s') == Popped(s)
    requires s'.pushLog == s.pushLog && s'.shared.pending == s.shared.pending
    ensures Fifo(s')
  {
    forall p: Priority
      ensures OfPriority(p, s'.pushLog) == OfPriority(p, Popped(s')) + s'.shared.pending.Deque(p)
    {
      assert OfPriority(p, s.pushLog) == OfPriority(p, Popped(s)) + s.shared.pending.Deque(p);
    }
  }

  /** Only push and pop move tasks between the deques and the pop history. */
  lemma OthersMoveNothing(c: Config, s: System, a: Action)
    requires Enabled(s, a) && !a.Push? && !a.Pop?
    ensures var s' := Apply(c, s, a);
            Popped(s') == Popped(s) && s'.pushLog == s.pushLog && s'.shared.pending == s.shared.pending
  {
    var s' := Apply(c, s, a);
    if a.Acquire? {
      RunSpawns(s.runs, s.dispatcher.task);
    } else {
      assert RunTasks(s'.runs) == RunTasks(s.runs);
    }
  }

  lemma StepFifo(c: Config, s: System, a: Action)
    requires Fifo(s) && Enabled(s, a)
    ensures Fifo(Apply(c, s, a))
  {
    match a
    case Push(i) => PushFifo(c, s, i);
    case Pop => PopFifo(c, s);
    case _ => OthersMoveNothing(c, s, a); SameFifo(s, Apply(c, s, a));
  }

  /** In every run, for each priority, pushes come out in push order; and every pop takes the head of
      the most urgent non-empty deque. */
  lemma {:induction false} QueueOrder(c: Config, states: seq<System>, acts: seq<Action>, k: nat)
    requires IsRun(c, states, acts) && k < |states|
    ensures Fifo(states[k])
    ensures k < |acts| && acts[k] == Pop && states[k + 1].dispatcher.Holding? ==>
              var t, b := states[k + 1].dispatcher.task, states[k].shared.pending;
              && b.Deque(t.priority) == [t] + states[k + 1].shared.pending.Deque(t.priority)
              && forall q: Priority :: Rank(q) < Rank(t.priority) ==> b.Deque(q) == []
  {
    if k > 0 {
      QueueOrder(c, states, acts, k - 1);
      StepFifo(c, states[k - 1], acts[k - 1]);
    }
    if k < |acts| && acts[k] == Pop && states[k + 1].dispatcher.Holding? {
      PopsUrgentFirst(states[k]);
    }
  }

  // ----- conservation -----

  /** Every pushed task is in exactly one place: run, held, or pending. */
  ghost predicate Conserved(s: System) {
    multiset(Placed(s)) == Bag(PushedTask, s.calls)
  }

  lemma CallBag(calls: seq<Call>, i: nat, stage: CallStage)
    requires i < |calls| && WasPushed(calls[i].stage) == WasPushed(stage)
    ensures Bag(PushedTask, calls[i := calls[i].(stage := stage)]) == Bag(PushedTask, calls)
  {
    var calls' := calls[i := calls[i].(stage := stage)];
    BagUpdate(PushedTask, calls, i, calls'[i]);
    var x := PushedTask(calls[i]);
    assert Bag(PushedTask, calls') + x - x == Bag(PushedTask, calls) + x - x;
    assert Bag(PushedTask, calls') + x - x == Bag(PushedTask, calls');
  }

  lemma OthersConserve(c: Config, s: System, a: Action)
    requires Enabled(s, a) && !a.Push? && !a.Pop?
    ensures Bag(PushedTask, Apply(c, s, a).calls) == Bag(PushedTask, s.calls)
  {
    match a
    case Enter(t) => BagAppend(PushedTask, s.calls, Call(t, Entered));
    case Check(i) => CallBag(s.calls, i, Apply(c, s, a).calls[i].stage);
    case Store(i) => CallBag(s.calls, i, Stored);
    case Count(i) => CallBag(s.calls, i, Counted);
    case Notify(i) => CallBag(s.calls, i, Accepted);
    case _ =>
  }

  lemma PushConserves(c: Config, s: System, i: nat)
    requires Conserved(s) && Enabled(s, Push(i))
    ensures Conserved(Apply(c, s, Push(i)))
  {
    var s', t := Apply(c, s, Push(i)), s.calls[i].task;
    BucketsPush(s.shared.pending, t);
    BagUpdate(PushedTask, s.calls, i, s'.calls[i]);
    assert Bag(PushedTask, s'.calls) == Bag(PushedTask, s.calls) + multiset{t};
  }

  /** A pop moves the first pending task to the end of the pop history. */
  lemma PopMoves(c: Config, s: System)
    requires Enabled(s, Pop)
    ensures Placed(Apply(c, s, Pop)) == Placed(s)
  {
    BucketsPop(s.shared.pending);
  }

  lemma SameConserved(s: System, s': System)
    requires Conserved(s) && Bag(PushedTask, s'.calls) == Bag(PushedTask, s.calls)
    requires Placed(s') == Placed(s)
    ensures Conserved(s')
  {
  }

  lemma StepConserved(c: Config, s: System, a: Action)
    requires Conserved(s) && Enabled(s, a)
    ensures Conserved(Apply(c, s, a))
  {
    match a
    case Push(i) => PushConserves(c, s, i);
    case Pop => PopMoves(c, s); SameConserved(s, Apply(c, s, Pop));
    case _ =>
      OthersMoveNothing(c, s, a);
      OthersConserve(c, s, a);
      SameConserved(s, Apply(c, s, a));
  }

  /** No pushed task is lost or duplicated, in any interleaving. */
  lemma {:induction false} Conservation(c: Config, states: seq<System>, acts: seq<Action>, k: nat)
    requires IsRun(c, states, acts) && k < |states|
    ensures Conserved(states[k])
  {
    if k > 0 {
      Conservation(c, states, acts, k - 1);
      StepConserved(c, states[k - 1], acts[k - 1]);
    }
  }

  // ----- exactly once, when callers use distinct task ids -----

  ghost predicate DistinctCalls(calls: seq<Call>) {
    forall x, y :: 0 <= x < y < |calls| ==> calls[x].task.taskId != calls[y].task.taskId
  }

  ghost predicate DistinctIds(ts: seq<QueueTask>) {
    forall x, y :: 0 <= x < y < |ts| ==> ts[x].taskId != ts[y].taskId
  }

  lemma {:induction false} BagOnce(calls: seq<Call>, t: QueueTask)
    requires DistinctCalls(calls)
    ensures Bag(PushedTask, calls)[t] <= 1
  {
    if calls != [] {
      var n := |calls| - 1;
      BagOnce(calls[..n], t);
      if calls[n].task == t && t in Bag(PushedTask, calls[..n]) {
        BagHas(PushedTask, calls[..n], t);
        assert false;
      }
    }
  }

  /** The pushed call behind a placed task. */
  lemma CallOf(s: System, x: nat) returns (i: nat)
    requires Conserved(s) && x < |Placed(s)|
    ensures i < |s.calls| && s.calls[i].task == Placed(s)[x] && WasPushed(s.calls[i].stage)
  {
    var t := Placed(s)[x];
    assert t in multiset(Placed(s));
    BagHas(PushedTask, s.calls, t);
    i :| 0 <= i < |s.calls| && t in PushedTask(s.calls[i]);
  }

  lemma TwiceInBag(ts: seq<QueueTask>, x: nat, y: nat)
    requires x < y < |ts| && ts[x] == ts[y]
    ensures multiset(ts)[ts[x]] >= 2
  {
    assert ts == ts[..y] + ts[y..];
    assert ts[..y][x] == ts[x] && ts[y..][0] == ts[x];
    assert multiset(ts) == multiset(ts[..y]) + multiset(ts[y..]);
    assert ts[x] in multiset(ts[..y]) && ts[x] in multiset(ts[y..]);
  }

  lemma PlacedDistinct(s: System)
    requires Conserved(s) && DistinctCalls(s.calls)
    ensures DistinctIds(Placed(s))
  {
    forall x, y | 0 <= x < y < |Placed(s)|
      ensures Placed(s)[x].taskId != Placed(s)[y].taskId
    {
      if Placed(s)[x].taskId == Placed(s)[y].taskId {
        var i := CallOf(s, x);
        var k := CallOf(s, y);
        assert i == k;
        TwiceInBag(Placed(s), x, y);
        BagOnce(s.calls, Placed(s)[x]);
        assert false;
      }
    }
  }

  function StatusOf(stage: RunStage): Status {
    match stage
    case Spawned => Queued
    case Marked => Running
    case Executed(_) => Running
    case Recorded(ok) => if ok then Completed else Failed
    case Uncounted(ok) => if ok then Completed else Failed
    case Released(ok) => if ok then Completed else Failed
  }

  /** What the row of the placed task at `x` should say. */
  function ExpectedStatus(s: System, x: nat): Status {
    if x < |s.runs| then StatusOf(s.runs[x].stage) else Queued
  }

  predicate HasRow(m: Shared, t: QueueTask, status: Status) {
    t.taskId in m.rows && m.rows[t.taskId] == Row(t, status)
  }

  /** A call that has not pushed yet has a queued row once it has stored it, and none before. */
  ghost predicate CallRows(s: System) {
    forall i :: 0 <= i < |s.calls| && !WasPushed(s.calls[i].stage) ==>
      if s.calls[i].stage == Stored then HasRow(s.shared, s.calls[i].task, Queued)
      else s.calls[i].task.taskId !in s.shared.rows
  }

  ghost predicate PlacedRow(s: System, x: nat)
    requires x < |Placed(s)|
  {
    HasRow(s.shared, Placed(s)[x], ExpectedStatus(s, x))
  }

  ghost predicate PlacedRows(s: System) {
    forall x: nat :: x < |Placed(s)| ==> PlacedRow(s, x)
  }

  predicate Called(s: System, id: string) {
    exists i :: 0 <= i < |s.calls| && s.calls[i].task.taskId == id
  }

  ghost predicate OwnedRows(s: System) {
    forall id :: id in s.shared.rows ==> Called(s, id)
  }

  /** The table tells the truth about every call and every placed task. */
  ghost predicate RowsTrue(s: System) {
    CallRows(s) && PlacedRows(s) && OwnedRows(s)
  }

  lemma SamePlacedRows(s: System, s': System)
    requires PlacedRows(s) && Placed(s') == Placed(s) && s'.shared.rows == s.shared.rows
    requires forall x: nat :: x < |Placed(s)| ==> ExpectedStatus(s', x) == ExpectedStatus(s, x)
    ensures PlacedRows(s')
  {
    forall x: nat | x < |Placed(s')|
      ensures PlacedRow(s', x)
    {
      assert PlacedRow(s, x);
    }
  }

  lemma SameOwnedRows(s: System, s': System)
    requires OwnedRows(s) && |s.calls| <= |s'.calls|
    requires forall i :: 0 <= i < |s.calls| ==> s'.calls[i].task == s.calls[i].task
    requires forall id :: id in s'.shared.rows ==> id in s.shared.rows || Called(s', id)
    ensures OwnedRows(s')
  {
    forall id | id in s'.shared.rows
      ensures Called(s', id)
    {
      if id in s.shared.rows {
        assert Called(s, id);
        var i :| 0 <= i < |s.calls| && s.calls[i].task.taskId == id;
        assert s'.calls[i].task.taskId == id;
      }
    }
  }

  lemma StorePlacedRow(s: System, i: nat, s': System, x: nat)
    requires PlacedRows(s) && Conserved(s) && DistinctCalls(s.calls) && AtCall(s, i, Checked)
    requires s'.shared == StoreRow(s.shared, s.calls[i].task) && Placed(s') == Placed(s) && s'.runs == s.runs
    requires x < |Placed(s)|
    ensures PlacedRow(s', x)
  {
    var k := CallOf(s, x);
    assert s.calls[k].task.taskId != s.calls[i].task.taskId;
    assert PlacedRow(s, x);
  }

  lemma StoreRowsTrue(s: System, i: nat, s': System)
    requires RowsTrue(s) && Conserved(s) && DistinctCalls(s.calls)
    requires AtCall(s, i, Checked) && s' == SetCall(s, i, Stored).(shared := StoreRow(s.shared, s.calls[i].task))
    ensures RowsTrue(s')
  {
    assert Placed(s') == Placed(s);
    forall x: nat | x < |Placed(s')|
      ensures PlacedRow(s', x)
    {
      StorePlacedRow(s, i, s', x);
    }
    assert s'.calls[i].task == s.calls[i].task;
    SameOwnedRows(s, s');
  }

  lemma PushRowsTrue(s: System, i: nat, s': System)
    requires RowsTrue(s) && AtCall(s, i, Stored)
    requires s'.calls == s.calls[i := s.calls[i].(stage := Pushed)] && s'.runs == s.runs
    requires s'.dispatcher == s.dispatcher
    requires s'.shared == s.shared.(pending := s.shared.pending.PushBack(s.calls[i].task))
    ensures RowsTrue(s')
  {
    var t := s.calls[i].task;
    BucketsPush(s.shared.pending, t);
    assert Popped(s') == Popped(s);
    forall x: nat | x < |Placed(s')|
      ensures PlacedRow(s', x)
    {
      PushPlacedRow(s, t, s', x);
    }
    SameOwnedRows(s, s');
  }

  lemma AddedMember(before: seq<QueueTask>, t: QueueTask, after: seq<QueueTask>, x: nat)
    requires multiset(after) == multiset(before) + multiset{t} && x < |after|
    ensures after[x] == t || after[x] in before
  {
    assert after[x] in multiset(after);
  }

  lemma PushPlacedRow(s: System, t: QueueTask, s': System, x: nat)
    requires PlacedRows(s) && HasRow(s.shared, t, Queued) && s'.shared.rows == s.shared.rows
    requires Popped(s') == Popped(s) && s'.runs == s.runs
    requires multiset(s'.shared.pending.All()) == multiset(s.shared.pending.All()) + multiset{t}
    requires x < |Placed(s')|
    ensures PlacedRow(s', x)
  {
    var n := |Popped(s)|;
    if x < n {
      assert Placed(s')[x] == Placed(s)[x];
      assert PlacedRow(s, x);
    } else {
      var u := s'.shared.pending.All()[x - n];
      AddedMember(s.shared.pending.All(), t, s'.shared.pending.All(), x - n);
      if u != t {
        var y :| 0 <= y < |s.shared.pending.All()| && s.shared.pending.All()[y] == u;
        assert PlacedRow(s, n + y);
      }
    }
  }

  lemma RunnerPlacedRow(s: System, j: nat, stage: RunStage, s': System, x: nat)
    requires PlacedRows(s) && DistinctIds(Placed(s)) && Placed(s') == Placed(s)
    requires AtRun(s, j) && x < |Placed(s)| && Placed(s)[j] == s.runs[j].task
    requires s'.runs == s.runs[j := s.runs[j].(stage := stage)]
    requires s'.shared.rows == UpdateRow(s.shared, s.runs[j].task.taskId, StatusOf(stage)).rows
    ensures PlacedRow(s', x)
  {
    assert PlacedRow(s, x) && PlacedRow(s, j);
    if x != j {
      assert Placed(s)[x].taskId != Placed(s)[j].taskId;
    }
  }

  lemma SameCallRows(s: System, s': System, id: string, k: nat)
    requires CallRows(s) && DistinctCalls(s.calls) && s'.calls == s.calls
    requires k < |s.calls| && s.calls[k].task.taskId == id && WasPushed(s.calls[k].stage)
    requires forall other :: other != id ==>
               (other in s'.shared.rows <==> other in s.shared.rows)
               && (other in s.shared.rows ==> s'.shared.rows[other] == s.shared.rows[other])
    ensures CallRows(s')
  {
  }

  /** A runner's row update touches its own row only. */
  lemma RunnerRowsTrue(s: System, j: nat, stage: RunStage, s': System)
    requires RowsTrue(s) && Conserved(s) && DistinctCalls(s.calls) && AtRun(s, j)
    requires s'.calls == s.calls && s'.dispatcher == s.dispatcher && s'.shared.pending == s.shared.pending
    requires s'.runs == s.runs[j := s.runs[j].(stage := stage)]
    requires s'.shared.rows == UpdateRow(s.shared, s.runs[j].task.taskId, StatusOf(stage)).rows
    ensures RowsTrue(s')
  {
    assert RunTasks(s'.runs) == RunTasks(s.runs);
    assert Placed(s') == Placed(s) && Placed(s)[j] == s.runs[j].task;
    PlacedDistinct(s);
    var k := CallOf(s, j);
    SameCallRows(s, s', s.runs[j].task.taskId, k);
    forall x: nat | x < |Placed(s')|
      ensures PlacedRow(s', x)
    {
      RunnerPlacedRow(s, j, stage, s', x);
    }
    SameOwnedRows(s, s');
  }

  /** Steps that leave the table alone and change no expected status. */
  lemma QuietRowsTrue(s: System, s': System)
    requires RowsTrue(s) && s'.shared.rows == s.shared.rows && Placed(s') == Placed(s)
    requires forall x: nat :: x < |Placed(s)| ==> ExpectedStatus(s', x) == ExpectedStatus(s, x)
    requires |s.calls| <= |s'.calls|
    requires forall i :: 0 <= i < |s.calls| ==> s'.calls[i].task == s.calls[i].task
    requires forall i :: 0 <= i < |s.calls| ==> WasPushed(s'.calls[i].stage) == WasPushed(s.calls[i].stage)
    requires forall i :: 0 <= i < |s.calls| ==> (s'.calls[i].stage == Stored <==> s.calls[i].stage == Stored)
    requires forall i :: |s.calls| <= i < |s'.calls| ==>
               s'.calls[i].stage == Entered && s'.calls[i].task.taskId !in s.shared.rows
    ensures RowsTrue(s')
  {
    SamePlacedRows(s, s');
    SameOwnedRows(s, s');
  }

  lemma EnterRowsTrue(c: Config, s: System, t: QueueTask)
    requires RowsTrue(s) && DistinctCalls(Apply(c, s, Enter(t)).calls)
    ensures RowsTrue(Apply(c, s, Enter(t)))
  {
    var s' := Apply(c, s, Enter(t));
    assert s'.calls[|s.calls|].task == t;
    assert forall i :: 0 <= i < |s.calls| ==> s'.calls[i].task.taskId != t.taskId;
    assert Placed(s') == Placed(s);
    QuietRowsTrue(s, s');
  }

  lemma EnqueuerRowsTrue(c: Config, s: System, a: Action)
    requires RowsTrue(s) && Conserved(s) && Enabled(s, a) && OfEnqueuer(a)
    requires DistinctCalls(Apply(c, s, a).calls)
    ensures RowsTrue(Apply(c, s, a))
  {
    var s' := Apply(c, s, a);
    EarlierDistinct(c, s, a);
    match a
    case Enter(t) => EnterRowsTrue(c, s, t);
    case Store(i) => StoreRowsTrue(s, i, s');
    case Push(i) => PushRowsTrue(s, i, s');
    case _ =>
      OthersMoveNothing(c, s, a);
      QuietRowsTrue(s, s');
  }

  lemma DispatcherRowsTrue(c: Config, s: System, a: Action)
    requires RowsTrue(s) && Enabled(s, a) && OfDispatcher(a)
    ensures RowsTrue(Apply(c, s, a))
  {
    if a.Pop? {
      PopMoves(c, s);
    } else {
      OthersMoveNothing(c, s, a);
    }
    QuietRowsTrue(s, Apply(c, s, a));
  }

  /** The runner's stage already agrees with its row when the step writes no row. */
  lemma NoUpdate(s: System, j: nat, status: Status)
    requires PlacedRows(s) && AtRun(s, j) && status == StatusOf(s.runs[j].stage)
    ensures UpdateRow(s.shared, s.runs[j].task.taskId, status).rows == s.shared.rows
  {
    assert Placed(s)[j] == s.runs[j].task;
    assert PlacedRow(s, j);
  }

  lemma WritingStepRowsTrue(c: Config, s: System, a: Action)
    requires RowsTrue(s) && Conserved(s) && DistinctCalls(s.calls)
    requires Enabled(s, a) && (a.Mark? || a.Record?)
    ensures RowsTrue(Apply(c, s, a))
  {
    RunnerRowsTrue(s, a.j, Apply(c, s, a).runs[a.j].stage, Apply(c, s, a));
  }

  lemma SilentStepRowsTrue(c: Config, s: System, a: Action)
    requires RowsTrue(s) && Conserved(s) && DistinctCalls(s.calls)
    requires Enabled(s, a) && (a.Execute? || a.Uncount? || a.Release?)
    ensures RowsTrue(Apply(c, s, a))
  {
    var s' := Apply(c, s, a);
    NoUpdate(s, a.j, StatusOf(s.runs[a.j].stage));
    RunnerRowsTrue(s, a.j, s'.runs[a.j].stage, s');
  }

  lemma RunnerStepRowsTrue(c: Config, s: System, a: Action)
    requires RowsTrue(s) && Conserved(s) && DistinctCalls(s.calls)
    requires Enabled(s, a) && !OfEnqueuer(a) && !OfDispatcher(a)
    ensures RowsTrue(Apply(c, s, a))
  {
    if a.Mark? || a.Record? {
      WritingStepRowsTrue(c, s, a);
    } else {
      SilentStepRowsTrue(c, s, a);
    }
  }

  lemma StepRowsTrue(c: Config, s: System, a: Action)
    requires RowsTrue(s) && Conserved(s) && Enabled(s, a)
    requires DistinctCalls(Apply(c, s, a).calls)
    ensures RowsTrue(Apply(c, s, a))
  {
    EarlierDistinct(c, s, a);
    if OfEnqueuer(a) {
      EnqueuerRowsTrue(c, s, a);
    } else if OfDispatcher(a) {
      DispatcherRowsTrue(c, s, a);
    } else {
      RunnerStepRowsTrue(c, s, a);
    }
  }

  lemma EarlierDistinct(c: Config, s: System, a: Action)
    requires Enabled(s, a) && DistinctCalls(Apply(c, s, a).calls)
    ensures DistinctCalls(s.calls)
  {
    var s' := Apply(c, s, a);
    assert forall x :: 0 <= x < |s.calls| ==> s'.calls[x].task == s.calls[x].task;
  }

  /** How one row may change in one step. */
  predicate RowForward(before: map<string, Row>, after: map<string, Row>, id: string) {
    if id in before then
      && id in after && after[id].task == before[id].task
      && (|| after[id].status == before[id].status
          || (before[id].status == Queued && after[id].status == Running)
          || (before[id].status == Running && (after[id].status == Completed || after[id].status == Failed)))
    else
      id in after ==> after[id].status == Queued
  }

  lemma RunnerRowForward(s: System, j: nat, status: Status, id: string)
    requires PlacedRows(s) && AtRun(s, j)
    requires || (status == Running && s.runs[j].stage.Spawned?)
             || ((status == Completed || status == Failed) && s.runs[j].stage.Executed?)
    ensures RowForward(s.shared.rows, UpdateRow(s.shared, s.runs[j].task.taskId, status).rows, id)
  {
    assert Placed(s)[j] == s.runs[j].task;
    assert PlacedRow(s, j);
  }

  lemma StepRowForward(c: Config, s: System, a: Action, id: string)
    requires RowsTrue(s) && Enabled(s, a)
    ensures RowForward(s.shared.rows, Apply(c, s, a).shared.rows, id)
  {
    match a
    case Store(i) => assert s.calls[i].task.taskId !in s.shared.rows;
    case Mark(j) => RunnerRowForward(s, j, Running, id);
    case Record(j) => RunnerRowForward(s, j, Outcome(s.runs[j].stage.ok), id);
    case _ =>
  }

  /** With distinct task ids: no task runs twice, and every row is the truth about its task. */
  lemma {:induction false} ExactlyOnce(c: Config, states: seq<System>, acts: seq<Action>, k: nat)
    requires IsRun(c, states, acts) && k < |states| && DistinctCalls(states[k].calls)
    ensures DistinctIds(RunTasks(states[k].runs))
    ensures RowsTrue(states[k])
  {
    Conservation(c, states, acts, k);
    PlacedDistinct(states[k]);
    assert forall j :: 0 <= j < |states[k].runs| ==> Placed(states[k])[j] == RunTasks(states[k].runs)[j];
    if k > 0 {
      Conservation(c, states, acts, k - 1);
      EarlierDistinct(c, states[k - 1], acts[k - 1]);
      ExactlyOnce(c, states, acts, k - 1);
      StepRowsTrue(c, states[k - 1], acts[k - 1]);
    }
  }

  /** With distinct task ids every row only ever moves queued, running, then completed or failed. */
  lemma RowsOnlyMoveForward(c: Config, states: seq<System>, acts: seq<Action>, k: nat, id: string)
    requires IsRun(c, states, acts) && k < |acts| && DistinctCalls(states[k + 1].calls)
    ensures RowForward(states[k].shared.rows, states[k + 1].shared.rows, id)
  {
    EarlierDistinct(c, states[k], acts[k]);
    ExactlyOnce(c, states, acts, k);
    StepRowForward(c, states[k], acts[k], id);
  }
}
