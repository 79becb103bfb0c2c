/** Draining: once `enqueue` calls stop and tools return, the queue empties in a bounded number of steps. */
module WorkQueueDrain {
  import opened Folds
  import opened WorkQueue
  import opened WorkQueueLaws
  import opened WorkQueueOrder
  import opened WorkQueueOutcome

  /** Steps a call can still cause, counting the pop and the tool run of its task. */
  function CallWork(call: Call): nat {
    match call.stage
    case Entered => 14
    case Checked => 13
    case Stored => 12
    case Pushed => 4
    case Counted => 3
    case Accepted => 0
    case Refused => 0
  }

  function RunWork(run: Run): nat {
    match run.stage
    case Spawned => 5
    case Marked => 4
    case Executed(_) => 3
    case Recorded(_) => 2
    case Uncounted(_) => 1
    case Released(_) => 0
  }

  function DispatcherWork(d: Dispatcher): nat {
    match d
    case Parked => 0
    case Draining => 1
    case Holding(_) => 7
  }

  function Work(s: System): nat {
    Sum(CallWork, s.calls) + 7 * s.shared.pending.Size() + DispatcherWork(s.dispatcher)
    + 2 * One(s.shared.permit) + Sum(RunWork, s.runs)
  }

  lemma CallLowers(s: System, i: nat, stage: CallStage, s': System)
    requires i < |s.calls| && s'.calls == s.calls[i := s.calls[i].(stage := stage)]
    requires s'.dispatcher == s.dispatcher && s'.runs == s.runs
    requires CallWork(s'.calls[i]) + 7 * s'.shared.pending.Size() + 2 * One(s'.shared.permit)
             < CallWork(s.calls[i]) + 7 * s.shared.pending.Size() + 2 * One(s.shared.permit)
    ensures Work(s') < Work(s)
  {
    SumUpdate(CallWork, s.calls, i, s'.calls[i]);
  }

  lemma RunLowers(s: System, j: nat, stage: RunStage, s': System)
    requires j < |s.runs| && s'.runs == s.runs[j := s.runs[j].(stage := stage)]
    requires s'.dispatcher == s.dispatcher && s'.calls == s.calls
    requires s'.shared.pending == s.shared.pending && s'.shared.permit == s.shared.permit
    requires RunWork(s'.runs[j]) < RunWork(s.runs[j])
    ensures Work(s') < Work(s)
  {
    SumUpdate(RunWork, s.runs, j, s'.runs[j]);
  }

  lemma EnqueuerLowers(c: Config, s: System, a: Action)
    requires Enabled(s, a) && OfEnqueuer(a) && !a.Enter?
    ensures Work(Apply(c, s, a)) < Work(s)
  {
    var s' := Apply(c, s, a);
    match a
    case Check(i) => CallLowers(s, i, s'.calls[i].stage, s');
    case Store(i) => CallLowers(s, i, Stored, s');
    case Push(i) => CallLowers(s, i, Pushed, s');
    case Count(i) => CallLowers(s, i, Counted, s');
    case Notify(i) => CallLowers(s, i, Accepted, s');
  }

  lemma DispatcherLowers(c: Config, s: System, a: Action)
    requires Enabled(s, a) && OfDispatcher(a)
    ensures Work(Apply(c, s, a)) < Work(s)
  {
    if a.Pop? {
      BucketsPop(s.shared.pending);
    } else if a.Acquire? {
      SumAppend(RunWork, s.runs, Run(s.dispatcher.task, Spawned));
    }
  }

  lemma RunnerLowers(c: Config, s: System, a: Action)
    requires Enabled(s, a) && !OfEnqueuer(a) && !OfDispatcher(a)
    ensures Work(Apply(c, s, a)) < Work(s)
  {
    var s' := Apply(c, s, a);
    match a
    case Mark(j) => RunLowers(s, j, Marked, s');
    case Execute(j, ok) => RunLowers(s, j, Executed(ok), s');
    case Record(j) => RunLowers(s, j, s'.runs[j].stage, s');
    case Uncount(j) => RunLowers(s, j, s'.runs[j].stage, s');
    case Release(j) => RunLowers(s, j, s'.runs[j].stage, s');
  }

  /** Every step but a new call lowers the remaining work. */
  lemma StepLowers(c: Config, s: System, a: Action)
    requires Enabled(s, a) && !a.Enter?
    ensures Work(Apply(c, s, a)) < Work(s)
  {
    if OfEnqueuer(a) {
      EnqueuerLowers(c, s, a);
    } else if OfDispatcher(a) {
      DispatcherLowers(c, s, a);
    } else {
      RunnerLowers(c, s, a);
    }
  }

  ghost predicate NoNewCalls(acts: seq<Action>) {
    forall k :: 0 <= k < |acts| ==> !acts[k].Enter?
  }

  /** Without new calls an interleaving takes at most `Work` steps from any state, reachable or not. */
  lemma {:induction false} DrainTerminates(c: Config, states: seq<System>, acts: seq<Action>)
    requires Follows(c, states, acts) && NoNewCalls(acts)
    ensures |acts| + Work(states[|acts|]) <= Work(states[0])
  {
    if acts != [] {
      var n := |acts| - 1;
      DrainTerminates(c, states[..|acts|], acts[..n]);
      StepLowers(c, states[n], acts[n]);
    }
  }

  /** Nothing is left to do. */
  ghost predicate Drained(c: Config, s: System) {
    && (forall i :: 0 <= i < |s.calls| ==> s.calls[i].stage == Accepted || s.calls[i].stage == Refused)
    && s.shared.pending.All() == []
    && s.dispatcher == Parked
    && !s.shared.permit
    && (forall j :: 0 <= j < |s.runs| ==> s.runs[j].stage.Released?)
    && s.shared.free == c.Permits()
    && s.shared.depth == 0
  }

  function NextOfCall(i: nat, stage: CallStage): Action {
    match stage
    case Entered => Check(i)
    case Checked => Store(i)
    case Stored => Push(i)
    case Pushed => Count(i)
    case _ => Notify(i)
  }

  function NextOfRun(j: nat, stage: RunStage): Action {
    match stage
    case Spawned => Mark(j)
    case Marked => Execute(j, true)
    case Executed(_) => Record(j)
    case Recorded(_) => Uncount(j)
    case _ => Release(j)
  }

  ghost predicate CanStep(s: System) {
    exists a: Action :: !a.Enter? && Enabled(s, a)
  }

  lemma StuckIsDrained(c: Config, s: System)
    requires Accounted(c, s) && Awake(s) && !CanStep(s)
    ensures Drained(c, s)
  {
    forall i | 0 <= i < |s.calls|
      ensures s.calls[i].stage == Accepted || s.calls[i].stage == Refused
    {
      assert !Enabled(s, NextOfCall(i, s.calls[i].stage));
    }
    forall j | 0 <= j < |s.runs|
      ensures s.runs[j].stage.Released?
    {
      assert !Enabled(s, NextOfRun(j, s.runs[j].stage));
    }
    SumZero(Occupied, s.runs);
    SumZero(Unsettled, s.runs);
    SumZero(Lagging, s.calls);
    assert !Enabled(s, Wake) && !Enabled(s, Pop) && !Enabled(s, Acquire);
    BucketsPop(s.shared.pending);
  }

  /** A reachable state from which nothing but a new call can happen has empty deques, no call and
      no run in progress, counter 0 and all permits back. */
  lemma OnlyDrainedIsStuck(c: Config, states: seq<System>, acts: seq<Action>, k: nat)
    requires IsRun(c, states, acts) && k < |states|
    ensures CanStep(states[k]) || Drained(c, states[k])
  {
    if !CanStep(states[k]) {
      CounterLaw(c, states, acts, k);
      NoLostWakeup(c, states, acts, k);
      StuckIsDrained(c, states[k]);
    }
  }

  /** When the queue has drained, the runs are exactly the accepted tasks, and with distinct ids every
      accepted task's row says completed or failed, as its tool returned. */
  lemma DrainedMeansDone(c: Config, states: seq<System>, acts: seq<Action>, k: nat, i: nat)
    requires IsRun(c, states, acts) && k < |states| && Drained(c, states[k])
    requires i < |states[k].calls| && states[k].calls[i].stage == Accepted
    ensures multiset(RunTasks(states[k].runs)) == Bag(PushedTask, states[k].calls)
    ensures DistinctCalls(states[k].calls) ==>
              exists j: nat :: j < |states[k].runs| && states[k].runs[j].task == states[k].calls[i].task
                               && (Execute(j, true) in acts[..k] || Execute(j, false) in acts[..k])
                               && HasRow(states[k].shared, states[k].calls[i].task,
                                         if Execute(j, true) in acts[..k] then Completed else Failed)
  {
    var s := states[k];
    Conservation(c, states, acts, k);
    assert Placed(s) == RunTasks(s.runs);
    var t := s.calls[i].task;
    assert t in PushedTask(s.calls[i]);
    BagHas(PushedTask, s.calls, t);
    assert t in multiset(RunTasks(s.runs));
    var j :| 0 <= j < |s.runs| && RunTasks(s.runs)[j] == t;
    if DistinctCalls(s.calls) {
      RunTold(c, states, acts, k);
      assert StageTold(acts[..k], j, s.runs[j].stage);
      OutcomeStored(c, states, acts, k, j);
    }
  }
}
