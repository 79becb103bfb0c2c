/** A run in which an idle queue refuses work, because a fast runner wrapped the counter. */
module WorkQueueWrap {
  import opened Folds
  import opened WorkQueue

  /** Some run reaches `s` from the start. */
  ghost predicate Reachable(c: Config, s: System) {
    exists states, acts :: IsRun(c, states, acts) && states[|acts|] == s
  }

  lemma Go(c: Config, s: System, a: Action) returns (s': System)
    requires Reachable(c, s) && Enabled(s, a)
    ensures s' == Apply(c, s, a) && Reachable(c, s')
  {
    var states, acts :| IsRun(c, states, acts) && states[|acts|] == s;
    s' := Apply(c, s, a);
    assert IsRun(c, states + [s'], acts + [a]);
    assert (states + [s'])[|acts + [a]|] == s';
  }

  function Echo(id: string): QueueTask { QueueTask(id, "tool", "builtin.echo", "{}", Interactive) }

  /** The first call has pushed its task. */
  lemma FirstPush(c: Config) returns (s: System)
    ensures Reachable(c, s)
    ensures s.calls == [Call(Echo("a"), Pushed)] && s.dispatcher == Parked && s.runs == []
    ensures s.shared.pending == Buckets([Echo("a")], [], [], [])
    ensures s.shared.depth == 0 && s.shared.free == c.Permits()
  {
    s := Init(c);
    assert IsRun(c, [s], []) && [s][0] == s;
    s := Go(c, s, Enter(Echo("a")));
    s := Go(c, s, Check(0));
    s := Go(c, s, Store(0));
    s := Go(c, s, Push(0));
  }

  /** The first call has returned and woken the dispatcher. */
  lemma FirstCall(c: Config) returns (s: System)
    ensures Reachable(c, s)
    ensures s.calls == [Call(Echo("a"), Accepted)] && s.dispatcher == Draining && s.runs == []
    ensures s.shared.pending == Buckets([Echo("a")], [], [], [])
    ensures s.shared.depth == 1 && s.shared.free == c.Permits()
  {
    s := FirstPush(c);
    s := Go(c, s, Count(0));
    s := Go(c, s, Notify(0));
    s := Go(c, s, Wake);
  }

  /** A spawned run can record its outcome while nothing else moves. */
  lemma RunToRecord(c: Config, s: System, j: nat) returns (s': System)
    requires Reachable(c, s) && AtRun(s, j) && s.runs[j].stage == Spawned
    ensures Reachable(c, s')
    ensures s'.runs == s.runs[j := Run(s.runs[j].task, Recorded(true))]
    ensures s'.calls == s.calls && s'.dispatcher == s.dispatcher
    ensures s'.shared.(rows := s.shared.rows) == s.shared
  {
    s' := Go(c, s, Mark(j));
    s' := Go(c, s', Execute(j, true));
    s' := Go(c, s', Record(j));
  }

  /** A spawned run can go to its end while nothing else moves. */
  lemma RunToEnd(c: Config, s: System, j: nat) returns (s': System)
    requires Reachable(c, s) && AtRun(s, j) && s.runs[j].stage == Spawned
    ensures Reachable(c, s')
    ensures s'.runs == s.runs[j := Run(s.runs[j].task, Released(true))]
    ensures s'.calls == s.calls && s'.dispatcher == s.dispatcher && s'.shared.pending == s.shared.pending
    ensures s'.shared.depth == (s.shared.depth - 1) % USIZE && s'.shared.free == s.shared.free + 1
  {
    s' := RunToRecord(c, s, j);
    s' := Go(c, s', Uncount(j));
    s' := Go(c, s', Release(j));
  }

  /** Its task has run to completion. */
  lemma FirstRun(c: Config) returns (s: System)
    ensures Reachable(c, s)
    ensures s.calls == [Call(Echo("a"), Accepted)] && s.dispatcher == Draining
    ensures s.runs == [Run(Echo("a"), Released(true))]
    ensures s.shared.pending.Size() == 0 && s.shared.depth == 0 && s.shared.free == c.Permits()
  {
    s := FirstCall(c);
    s := Go(c, s, Pop);
    s := Go(c, s, Acquire);
    s := RunToEnd(c, s, 0);
  }

  /** A second call has pushed but not counted, and the draining dispatcher has taken its task. */
  lemma SecondCall(c: Config) returns (s: System)
    ensures Reachable(c, s)
    ensures s.calls == [Call(Echo("a"), Accepted), Call(Echo("b"), Pushed)] && s.dispatcher == Draining
    ensures s.runs == [Run(Echo("a"), Released(true)), Run(Echo("b"), Spawned)]
    ensures s.shared.pending.Size() == 0 && s.shared.depth == 0
  {
    s := FirstRun(c);
    s := Go(c, s, Enter(Echo("b")));
    s := Go(c, s, Check(1));
    s := Go(c, s, Store(1));
    s := Go(c, s, Push(1));
    s := Go(c, s, Pop);
    s := Go(c, s, Acquire);
  }

  /** With every task finished and nothing pending, the counter reads `2^64 - 1`. */
  lemma SecondRun(c: Config) returns (s: System)
    ensures Reachable(c, s)
    ensures s.calls == [Call(Echo("a"), Accepted), Call(Echo("b"), Pushed)]
    ensures Outstanding(s) == 0 && s.shared.depth == USIZE - 1
  {
    s := SecondCall(c);
    s := RunToEnd(c, s, 1);
    SumZero(Unsettled, s.runs);
  }

  /** A third call is refused as "queue is full" although nothing is pending, held or running. */
  lemma IdleQueueRefuses(c: Config) returns (before: System, after: System)
    requires c.MaxPending() < USIZE
    ensures Reachable(c, before) && Outstanding(before) == 0
    ensures Enabled(before, Check(2)) && after == Apply(c, before, Check(2))
    ensures after.calls[2] == Call(Echo("c"), Refused)
  {
    before := SecondRun(c);
    before := Go(c, before, Enter(Echo("c")));
    after := Go(c, before, Check(2));
  }
}
