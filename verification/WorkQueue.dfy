/**
  The priority work queue as interleaved steps.  Every atomic section of the enqueuers, the one
  dispatcher and the spawned runners is an action; an interleaving is a sequence of actions.
 */
module WorkQueue {
  import opened Folds
  import opened Options

  const USIZE: int := 0x1_0000_0000_0000_0000

  datatype Priority = Interactive | Connector | Autonomy | Background

  datatype QueueTask = QueueTask(
    taskId: string, taskType: string, target: string, argumentsJson: string, priority: Priority)

  datatype Status = Queued | Running | Completed | Failed

  datatype Row = Row(task: QueueTask, status: Status)

  /** The four deques behind the `pending` mutex. */
  datatype Buckets = Buckets(
    interactive: seq<QueueTask>, connector: seq<QueueTask>,
    autonomy: seq<QueueTask>, background: seq<QueueTask>)
  {
    function Deque(p: Priority): seq<QueueTask> {
      match p
      case Interactive => interactive
      case Connector => connector
      case Autonomy => autonomy
      case Background => background
    }

    function All(): seq<QueueTask> {
      interactive + connector + autonomy + background
    }

    function Size(): nat {
      |interactive| + |connector| + |autonomy| + |background|
    }

    function PushBack(t: QueueTask): Buckets {
      match t.priority
      case Interactive => this.(interactive := interactive + [t])
      case Connector => this.(connector := connector + [t])
      case Autonomy => this.(autonomy := autonomy + [t])
      case Background => this.(background := background + [t])
    }

    /** The first task of the first non-empty deque in priority order, or `None`. */
    function Front(): Option<QueueTask> {
      if interactive != [] then Some(interactive[0])
      else if connector != [] then Some(connector[0])
      else if autonomy != [] then Some(autonomy[0])
      else if background != [] then Some(background[0])
      else None
    }

    function PopFront(): Buckets {
      if interactive != [] then this.(interactive := interactive[1..])
      else if connector != [] then this.(connector := connector[1..])
      else if autonomy != [] then this.(autonomy := autonomy[1..])
      else if background != [] then this.(background := background[1..])
      else this
    }
  }

  /** What all threads share: table rows, deques, the atomic counter, the one-permit notifier
      and the free permits of the semaphore. */
  datatype Shared = Shared(
    rows: map<string, Row>, pending: Buckets, depth: nat, permit: bool, free: nat)

  function StoreRow(m: Shared, t: QueueTask): Shared {
    m.(rows := m.rows[t.taskId := Row(t, Queued)])
  }

  function UpdateRow(m: Shared, id: string, status: Status): Shared {
    if id in m.rows then m.(rows := m.rows[id := m.rows[id].(status := status)]) else m
  }

  function FetchAdd(m: Shared): Shared {
    m.(depth := (m.depth + 1) % USIZE)
  }

  function FetchSub(m: Shared): Shared {
    m.(depth := (m.depth - 1) % USIZE)
  }

  datatype CallStage = Entered | Checked | Stored | Pushed | Counted | Accepted | Refused

  /** One call of `enqueue`; finished calls stay in the list, so the list is also the history. */
  datatype Call = Call(task: QueueTask, stage: CallStage)

  datatype RunStage =
    | Spawned | Marked | Executed(ok: bool) | Recorded(ok: bool) | Uncounted(ok: bool) | Released(ok: bool)

  /** One spawned tool run; finished runs stay in the list. */
  datatype Run = Run(task: QueueTask, stage: RunStage)

  /** `Parked` waits on the notifier, `Draining` is about to pop, `Holding` waits for a permit. */
  datatype Dispatcher = Parked | Draining | Holding(task: QueueTask)

  datatype System = System(
    shared: Shared, calls: seq<Call>, dispatcher: Dispatcher, runs: seq<Run>, pushLog: seq<QueueTask>)

  datatype Config = Config(maxInflight: nat) {
    function Permits(): nat { if maxInflight == 0 then 1 else maxInflight }
    function MaxPending(): nat { Permits() * 8 }
  }

  datatype Action =
    | Enter(task: QueueTask) | Check(i: nat) | Store(i: nat) | Push(i: nat) | Count(i: nat) | Notify(i: nat)
    | Wake | Pop | Acquire
    | Mark(j: nat) | Execute(j: nat, ok: bool) | Record(j: nat) | Uncount(j: nat) | Release(j: nat)

  function Init(c: Config): System {
    System(Shared(map[], Buckets([], [], [], []), 0, false, c.Permits()), [], Parked, [], [])
  }

  predicate AtCall(s: System, i: nat, stage: CallStage) {
    i < |s.calls| && s.calls[i].stage == stage
  }

  predicate AtRun(s: System, j: nat) {
    j < |s.runs|
  }

  predicate Enabled(s: System, a: Action) {
    match a
    case Enter(_) => true
    case Check(i) => AtCall(s, i, Entered)
    case Store(i) => AtCall(s, i, Checked)
    case Push(i) => AtCall(s, i, Stored)
    case Count(i) => AtCall(s, i, Pushed)
    case Notify(i) => AtCall(s, i, Counted)
    case Wake => s.dispatcher == Parked && s.shared.permit
    case Pop => s.dispatcher == Draining
    case Acquire => s.dispatcher.Holding? && s.shared.free > 0
    case Mark(j) => AtRun(s, j) && s.runs[j].stage.Spawned?
    case Execute(j, _) => AtRun(s, j) && s.runs[j].stage.Marked?
    case Record(j) => AtRun(s, j) && s.runs[j].stage.Executed?
    case Uncount(j) => AtRun(s, j) && s.runs[j].stage.Recorded?
    case Release(j) => AtRun(s, j) && s.runs[j].stage.Uncounted?
  }

  function SetCall(s: System, i: nat, stage: CallStage): System
    requires i < |s.calls|
  {
    s.(calls := s.calls[i := s.calls[i].(stage := stage)])
  }

  function SetRun(s: System, j: nat, stage: RunStage): System
    requires j < |s.runs|
  {
    s.(runs := s.runs[j := s.runs[j].(stage := stage)])
  }

  function Outcome(ok: bool): Status {
    if ok then Completed else Failed
  }

  function Apply(c: Config, s: System, a: Action): System
    requires Enabled(s, a)
  {
    match a
    case Enter(t) => s.(calls := s.calls + [Call(t, Entered)])
    case Check(i) => SetCall(s, i, if s.shared.depth >= c.MaxPending() then Refused else Checked)
    case Store(i) => SetCall(s, i, Stored).(shared := StoreRow(s.shared, s.calls[i].task))
    case Push(i) =>
      var t := s.calls[i].task;
      SetCall(s, i, Pushed).(shared := s.shared.(pending := s.shared.pending.PushBack(t)),
                             pushLog := s.pushLog + [t])
    case Count(i) => SetCall(s, i, Counted).(shared := FetchAdd(s.shared))
    case Notify(i) => SetCall(s, i, Accepted).(shared := s.shared.(permit := true))
    case Wake => s.(shared := s.shared.(permit := false), dispatcher := Draining)
    case Pop =>
      (match s.shared.pending.Front()
       case Some(t) => s.(shared := s.shared.(pending := s.shared.pending.PopFront()), dispatcher := Holding(t))
       case None => s.(dispatcher := Parked))
    case Acquire =>
      s.(shared := s.shared.(free := s.shared.free - 1),
         dispatcher := Draining,
         runs := s.runs + [Run(s.dispatcher.task, Spawned)])
    case Mark(j) => SetRun(s, j, Marked).(shared := UpdateRow(s.shared, s.runs[j].task.taskId, Running))
    case Execute(j, ok) => SetRun(s, j, Executed(ok))
    case Record(j) =>
      SetRun(s, j, Recorded(s.runs[j].stage.ok))
        .(shared := UpdateRow(s.shared, s.runs[j].task.taskId, Outcome(s.runs[j].stage.ok)))
    case Uncount(j) => SetRun(s, j, Uncounted(s.runs[j].stage.ok)).(shared := FetchSub(s.shared))
    case Release(j) =>
      SetRun(s, j, Released(s.runs[j].stage.ok)).(shared := s.shared.(free := s.shared.free + 1))
  }

  /** An interleaving: `states[k + 1]` is `states[k]` after `acts[k]`. */
  ghost predicate Follows(c: Config, states: seq<System>, acts: seq<Action>) {
    && |states| == |acts| + 1
    && forall k :: 0 <= k < |acts| ==> Enabled(states[k], acts[k]) && states[k + 1] == Apply(c, states[k], acts[k])
  }

  /** A run of the queue from its construction. */
  ghost predicate IsRun(c: Config, states: seq<System>, acts: seq<Action>) {
    Follows(c, states, acts) && states[0] == Init(c)
  }

  // ----- what the laws count -----

  /** Pushed but not yet counted. */
  function Lagging(call: Call): nat { One(call.stage == Pushed) }
  /** Past the check, not yet pushed. */
  function Admitted(call: Call): nat { One(call.stage == Checked || call.stage == Stored) }
  /** Still inside `enqueue`. */
  function Active(call: Call): nat { One(call.stage != Accepted && call.stage != Refused) }
  /** Not yet subtracted from the counter. */
  function Unsettled(run: Run): nat { One(!run.stage.Uncounted? && !run.stage.Released?) }
  /** Still holding a semaphore permit. */
  function Occupied(run: Run): nat { One(!run.stage.Released?) }

  function Held(s: System): seq<QueueTask> {
    if s.dispatcher.Holding? then [s.dispatcher.task] else []
  }

  function RunTasks(runs: seq<Run>): (ts: seq<QueueTask>)
    ensures |ts| == |runs|
    ensures forall j :: 0 <= j < |runs| ==> ts[j] == runs[j].task
  {
    seq(|runs|, j requires 0 <= j < |runs| => runs[j].task)
  }

  /** The pop history: one dispatcher pops, then spawns in the same order. */
  function Popped(s: System): seq<QueueTask> {
    RunTasks(s.runs) + Held(s)
  }

  /** Pending, held by the dispatcher, or running and not yet subtracted. */
  function Outstanding(s: System): nat {
    s.shared.pending.Size() + |Held(s)| + Sum(Unsettled, s.runs)
  }

  /** The integer the machine counter stands for. */
  function Tally(s: System): int {
    Outstanding(s) - Sum(Lagging, s.calls)
  }

  predicate WasPushed(stage: CallStage) {
    stage == Pushed || stage == Counted || stage == Accepted
  }

  function PushedTask(call: Call): multiset<QueueTask> {
    if WasPushed(call.stage) then multiset{call.task} else multiset{}
  }

  /** Every place a pushed task can be. */
  function Placed(s: System): seq<QueueTask> {
    Popped(s) + s.shared.pending.All()
  }

  function OfPriority(p: Priority, ts: seq<QueueTask>): seq<QueueTask> {
    if ts == [] then []
    else OfPriority(p, ts[..|ts| - 1]) + if ts[|ts| - 1].priority == p then [ts[|ts| - 1]] else []
  }
}
