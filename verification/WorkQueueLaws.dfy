/** The laws of the work queue that hold in every interleaving. */
module WorkQueueLaws {
  import opened Folds
  import opened WorkQueue

  // ----- one step moves the totals by known amounts -----

  lemma CallMoves(calls: seq<Call>, i: nat, stage: CallStage)
    requires i < |calls|
    ensures var calls' := calls[i := calls[i].(stage := stage)];
            && Sum(Lagging, calls') + Lagging(calls[i]) == Sum(Lagging, calls) + Lagging(calls'[i])
            && Sum(Admitted, calls') + Admitted(calls[i]) == Sum(Admitted, calls) + Admitted(calls'[i])
            && Sum(Active, calls') + Active(calls[i]) == Sum(Active, calls) + Active(calls'[i])
  {
    var call := calls[i].(stage := stage);
    SumUpdate(Lagging, calls, i, call);
    SumUpdate(Admitted, calls, i, call);
    SumUpdate(Active, calls, i, call);
  }

  lemma CallEnters(calls: seq<Call>, t: QueueTask)
    ensures var calls' := calls + [Call(t, Entered)];
            && Sum(Lagging, calls') == Sum(Lagging, calls)
            && Sum(Admitted, calls') == Sum(Admitted, calls)
            && Sum(Active, calls') == Sum(Active, calls) + 1
  {
    SumAppend(Lagging, calls, Call(t, Entered));
    SumAppend(Admitted, calls, Call(t, Entered));
    SumAppend(Active, calls, Call(t, Entered));
  }

  lemma RunMoves(runs: seq<Run>, j: nat, stage: RunStage)
    requires j < |runs|
    ensures var runs' := runs[j := runs[j].(stage := stage)];
            && Sum(Unsettled, runs') + Unsettled(runs[j]) == Sum(Unsettled, runs) + Unsettled(runs'[j])
            && Sum(Occupied, runs') + Occupied(runs[j]) == Sum(Occupied, runs) + Occupied(runs'[j])
            && RunTasks(runs') == RunTasks(runs)
  {
    SumUpdate(Unsettled, runs, j, runs[j].(stage := stage));
    SumUpdate(Occupied, runs, j, runs[j].(stage := stage));
  }

  lemma RunSpawns(runs: seq<Run>, t: QueueTask)
    ensures var runs' := runs + [Run(t, Spawned)];
            && Sum(Unsettled, runs') == Sum(Unsettled, runs) + 1
            && Sum(Occupied, runs') == Sum(Occupied, runs) + 1
            && RunTasks(runs') == RunTasks(runs) + [t]
  {
    SumAppend(Unsettled, runs, Run(t, Spawned));
    SumAppend(Occupied, runs, Run(t, Spawned));
  }

  lemma Inserted(x: seq<QueueTask>, y: seq<QueueTask>, t: QueueTask)
    ensures multiset(x + [t] + y) == multiset(x + y) + multiset{t}
  {
  }

  lemma BucketsPush(b: Buckets, t: QueueTask)
    ensures multiset(b.PushBack(t).All()) == multiset(b.All()) + multiset{t}
  {
    var (x, y) :=
      match t.priority
      case Interactive => (b.interactive, b.connector + b.autonomy + b.background)
      case Connector => (b.interactive + b.connector, b.autonomy + b.background)
      case Autonomy => (b.interactive + b.connector + b.autonomy, b.background)
      case Background => (b.All(), []);
    assert b.All() == x + y && b.PushBack(t).All() == x + [t] + y;
    Inserted(x, y, t);
  }

  lemma HeadOff(deque: seq<QueueTask>, rest: seq<QueueTask>)
    requires deque != []
    ensures deque + rest == [deque[0]] + (deque[1..] + rest)
  {
  }

  lemma BucketsPop(b: Buckets)
    ensures b.Front().None? <==> b.All() == []
    ensures b.Front().Some? ==> b.Size() == b.PopFront().Size() + 1
    ensures b.Front().None? <==> b.Size() == 0
    ensures b.Front().Some? ==> b.All() == [b.Front().value] + b.PopFront().All()
  {
    if b.interactive != [] {
      HeadOff(b.interactive, b.connector + b.autonomy + b.background);
    } else if b.connector != [] {
      HeadOff(b.connector, b.autonomy + b.background);
    } else if b.autonomy != [] {
      HeadOff(b.autonomy, b.background);
    }
  }

  // ----- the counter and the permits -----

  /** The machine counter stands for "outstanding minus not yet counted", and no permit is lost. */
  ghost predicate Accounted(c: Config, s: System) {
    && s.shared.depth == Tally(s) % USIZE
    && s.shared.free + Sum(Occupied, s.runs) == c.Permits()
  }

  predicate OfEnqueuer(a: Action) {
    a.Enter? || a.Check? || a.Store? || a.Push? || a.Count? || a.Notify?
  }

  predicate OfDispatcher(a: Action) {
    a.Wake? || a.Pop? || a.Acquire?
  }

  predicate Refuses(c: Config, s: System, a: Action) {
    a.Check? && s.shared.depth >= c.MaxPending()
  }

  /** What one action adds to each total. */
  ghost predicate TotalsMove(c: Config, s: System, a: Action)
    requires Enabled(s, a)
  {
    var s' := Apply(c, s, a);
    && Outstanding(s') == Outstanding(s) + One(a.Push?) - One(a.Uncount?)
    && Sum(Lagging, s'.calls) == Sum(Lagging, s.calls) + One(a.Push?) - One(a.Count?)
    && Sum(Admitted, s'.calls) == Sum(Admitted, s.calls) + One(a.Check? && !Refuses(c, s, a)) - One(a.Push?)
    && Sum(Active, s'.calls) == Sum(Active, s.calls) + One(a.Enter?) - One(a.Notify? || Refuses(c, s, a))
    && Sum(Occupied, s'.runs) == Sum(Occupied, s.runs) + One(a.Acquire?) - One(a.Release?)
  }

  lemma CallTotals(s: System, i: nat, stage: CallStage, s': System)
    requires i < |s.calls| && s'.calls == s.calls[i := s.calls[i].(stage := stage)]
    requires s'.dispatcher == s.dispatcher && s'.runs == s.runs
    ensures Outstanding(s') - s'.shared.pending.Size() == Outstanding(s) - s.shared.pending.Size()
    ensures Sum(Lagging, s'.calls) + Lagging(s.calls[i]) == Sum(Lagging, s.calls) + Lagging(s'.calls[i])
    ensures Sum(Admitted, s'.calls) + Admitted(s.calls[i]) == Sum(Admitted, s.calls) + Admitted(s'.calls[i])
    ensures Sum(Active, s'.calls) + Active(s.calls[i]) == Sum(Active, s.calls) + Active(s'.calls[i])
  {
    CallMoves(s.calls, i, stage);
  }

  lemma RunTotals(s: System, j: nat, stage: RunStage, s': System)
    requires j < |s.runs| && s'.runs == s.runs[j := s.runs[j].(stage := stage)]
    requires s'.dispatcher == s.dispatcher && s'.shared.pending == s.shared.pending
    ensures Outstanding(s') + Unsettled(s.runs[j]) == Outstanding(s) + Unsettled(s'.runs[j])
    ensures Sum(Occupied, s'.runs) + Occupied(s.runs[j]) == Sum(Occupied, s.runs) + Occupied(s'.runs[j])
  {
    RunMoves(s.runs, j, stage);
  }

  lemma BeforePushTotals(c: Config, s: System, a: Action)
    requires Enabled(s, a) && (a.Enter? || a.Check? || a.Store?)
    ensures TotalsMove(c, s, a)
  {
    var s' := Apply(c, s, a);
    match a
    case Enter(t) => CallEnters(s.calls, t);
    case Check(i) => CallTotals(s, i, s'.calls[i].stage, s');
    case Store(i) => CallTotals(s, i, Stored, s');
  }

  lemma FromPushTotals(c: Config, s: System, a: Action)
    requires Enabled(s, a) && (a.Push? || a.Count? || a.Notify?)
    ensures TotalsMove(c, s, a)
  {
    var s' := Apply(c, s, a);
    match a
    case Push(i) => CallTotals(s, i, Pushed, s');
    case Count(i) => CallTotals(s, i, Counted, s');
    case Notify(i) => CallTotals(s, i, Accepted, s');
  }

  lemma PopTotals(c: Config, s: System)
    requires Enabled(s, Pop)
    ensures TotalsMove(c, s, Pop)
  {
    BucketsPop(s.shared.pending);
  }

  lemma AcquireTotals(c: Config, s: System)
    requires Enabled(s, Acquire)
    ensures TotalsMove(c, s, Acquire)
  {
    RunSpawns(s.runs, s.dispatcher.task);
  }

  lemma RunnerTotals(c: Config, s: System, a: Action)
    requires Enabled(s, a) && !OfEnqueuer(a) && !OfDispatcher(a)
    ensures TotalsMove(c, s, a)
  {
    var s' := Apply(c, s, a);
    match a
    case Mark(j) => RunTotals(s, j, Marked, s');
    case Execute(j, ok) => RunTotals(s, j, Executed(ok), s');
    case Record(j) => RunTotals(s, j, s'.runs[j].stage, s');
    case Uncount(j) => RunTotals(s, j, s'.runs[j].stage, s');
    case Release(j) => RunTotals(s, j, s'.runs[j].stage, s');
  }

  lemma StepTotals(c: Config, s: System, a: Action)
    requires Enabled(s, a)
    ensures TotalsMove(c, s, a)
  {
    if a.Enter? || a.Check? || a.Store? {
      BeforePushTotals(c, s, a);
    } else if OfEnqueuer(a) {
      FromPushTotals(c, s, a);
    } else if a.Pop? {
      PopTotals(c, s);
    } else if a.Acquire? {
      AcquireTotals(c, s);
    } else if !a.Wake? {
      RunnerTotals(c, s, a);
    }
  }

  lemma SharedMoves(c: Config, s: System, a: Action)
    requires Enabled(s, a)
    ensures var m, m' := s.shared, Apply(c, s, a).shared;
            && m'.free == m.free + One(a.Release?) - One(a.Acquire?)
            && m'.depth == if a.Count? then (m.depth + 1) % USIZE else if a.Uncount? then (m.depth - 1) % USIZE else m.depth
  {
  }

  lemma StepAccounted(c: Config, s: System, a: Action)
    requires Accounted(c, s) && Enabled(s, a)
    ensures Accounted(c, Apply(c, s, a))
  {
    StepTotals(c, s, a);
    SharedMoves(c, s, a);
    assert Tally(Apply(c, s, a)) == Tally(s) + One(a.Count?) - One(a.Uncount?);
  }

  /** The counter law: in every interleaving the machine counter is congruent to what is outstanding
      less what is pushed but not yet counted, and busy permits plus free permits is constant. */
  lemma {:induction false} CounterLaw(c: Config, states: seq<System>, acts: seq<Action>, k: nat)
    requires IsRun(c, states, acts) && k < |states|
    ensures Accounted(c, states[k])
  {
    if k > 0 {
      CounterLaw(c, states, acts, k - 1);
      StepAccounted(c, states[k - 1], acts[k - 1]);
    }
  }

  /** At most `max(maxInflight, 1)` tool runs hold a permit at once. */
  lemma InflightBound(c: Config, states: seq<System>, acts: seq<Action>, k: nat)
    requires IsRun(c, states, acts) && k < |states|
    ensures Sum(Unsettled, states[k].runs) <= Sum(Occupied, states[k].runs) <= if c.maxInflight == 0 then 1 else c.maxInflight
  {
    CounterLaw(c, states, acts, k);
    SumLe(Unsettled, Occupied, states[k].runs);
  }

  // ----- the bound under races -----

  ghost predicate AtMostActive(states: seq<System>, n: nat) {
    forall k :: 0 <= k < |states| ==> Sum(Active, states[k].calls) <= n
  }

  ghost predicate Bounded(c: Config, n: nat, s: System) {
    Outstanding(s) + Sum(Admitted, s.calls) <= c.MaxPending() + n - 1
  }

  lemma InsideCalls(calls: seq<Call>)
    ensures Sum(Lagging, calls) + Sum(Admitted, calls) <= Sum(Active, calls)
  {
    var both := (call: Call) => Lagging(call) + Admitted(call);
    SumAdd(Lagging, Admitted, both, calls);
    SumLe(both, Active, calls);
  }

  /** When the check reads the counter, it reads the tally, or a huge number if the tally is negative. */
  lemma ReadsTally(c: Config, n: nat, s: System)
    requires Accounted(c, s) && Bounded(c, n, s) && Sum(Active, s.calls) <= n
    requires c.MaxPending() + n <= USIZE
    ensures s.shared.depth >= c.MaxPending() <==> Tally(s) < 0 || Tally(s) >= c.MaxPending()
    ensures Tally(s) >= 0 ==> s.shared.depth == Tally(s)
  {
    InsideCalls(s.calls);
    if Tally(s) < 0 {
      assert Tally(s) >= 0 - n;
      assert Tally(s) % USIZE == Tally(s) + USIZE;
    } else {
      assert Tally(s) % USIZE == Tally(s);
    }
  }

  lemma StepBounded(c: Config, n: nat, s: System, a: Action)
    requires Accounted(c, s) && Bounded(c, n, s) && Enabled(s, a)
    requires Sum(Active, s.calls) <= n && Sum(Active, Apply(c, s, a).calls) <= n
    requires c.MaxPending() + n <= USIZE
    ensures Bounded(c, n, Apply(c, s, a))
  {
    StepTotals(c, s, a);
    ReadsTally(c, n, s);
    InsideCalls(Apply(c, s, a).calls);
  }

  /** With at most `n` calls of `enqueue` active at once, outstanding tasks plus calls past the
      check never exceed `max_pending + n - 1`, in any interleaving. */
  lemma {:induction false} QueueBound(c: Config, n: nat, states: seq<System>, acts: seq<Action>, k: nat)
    requires IsRun(c, states, acts) && k < |states| && AtMostActive(states, n)
    requires n > 0 && c.MaxPending() + n <= USIZE
    ensures Bounded(c, n, states[k])
    ensures Outstanding(states[k]) + Sum(Admitted, states[k].calls) < 8 * (if c.maxInflight == 0 then 1 else c.maxInflight) + n
  {
    if k > 0 {
      QueueBound(c, n, states, acts, k - 1);
      CounterLaw(c, states, acts, k - 1);
      assert states[k] == Apply(c, states[k - 1], acts[k - 1]);
      StepBounded(c, n, states[k - 1], acts[k - 1]);
    }
  }

  /** Exactly when a call is refused: the tally is at the limit, or it is negative because a fast
      runner subtracted before the enqueuer added, so that the counter wrapped. */
  lemma RefusedExactlyWhen(c: Config, n: nat, states: seq<System>, acts: seq<Action>, k: nat, i: nat)
    requires IsRun(c, states, acts) && k < |acts| && AtMostActive(states, n)
    requires n > 0 && c.MaxPending() + n <= USIZE
    requires acts[k] == Check(i)
    ensures states[k + 1].calls[i].stage == Refused
            <==> Tally(states[k]) < 0 || Tally(states[k]) >= 8 * (if c.maxInflight == 0 then 1 else c.maxInflight)
  {
    QueueBound(c, n, states, acts, k);
    CounterLaw(c, states, acts, k);
    ReadsTally(c, n, states[k]);
    assert Enabled(states[k], acts[k]);
  }

  // ----- no lost wakeup -----

  /** Between push and notify. */
  predicate WillNotify(call: Call) { call.stage == Pushed || call.stage == Counted }

  ghost predicate Awake(s: System) {
    s.dispatcher == Parked && s.shared.pending.All() != [] ==>
      s.shared.permit || exists i :: 0 <= i < |s.calls| && WillNotify(s.calls[i])
  }

  lemma StepAwake(c: Config, s: System, a: Action)
    requires Awake(s) && Enabled(s, a)
    ensures Awake(Apply(c, s, a))
  {
    var s' := Apply(c, s, a);
    BucketsPop(s.shared.pending);
    if s.dispatcher == Parked && s.shared.pending.All() != [] && !s.shared.permit {
      var i :| 0 <= i < |s.calls| && WillNotify(s.calls[i]);
      assert s'.shared.permit || WillNotify(s'.calls[i]);
    } else if a.Push? {
      assert WillNotify(s'.calls[a.i]);
    }
  }

  /** No lost wakeup: whenever tasks are pending and the dispatcher is parked, a permit is stored
      or some enqueuer sits between push and notify. */
  lemma {:induction false} NoLostWakeup(c: Config, states: seq<System>, acts: seq<Action>, k: nat)
    requires IsRun(c, states, acts) && k < |states|
    ensures Awake(states[k])
  {
    if k > 0 {
      NoLostWakeup(c, states, acts, k - 1);
      StepAwake(c, states[k - 1], acts[k - 1]);
    }
  }
}
