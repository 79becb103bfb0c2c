/** What the table says about a finished run is what its tool returned, read off the steps of the run. */
module WorkQueueOutcome {
  import opened WorkQueue
  import opened WorkQueueOrder

  /** The stage of run `j` is what the steps taken so far make it. */
  ghost predicate StageTold(past: seq<Action>, j: nat, stage: RunStage) {
    && (Mark(j) in past <==> !stage.Spawned?)
    && (Execute(j, true) in past <==> !stage.Spawned? && !stage.Marked? && stage.ok)
    && (Execute(j, false) in past <==> !stage.Spawned? && !stage.Marked? && !stage.ok)
    && (Record(j) in past <==> stage.Recorded? || stage.Uncounted? || stage.Released?)
  }

  ghost predicate StagesTold(past: seq<Action>, s: System) {
    forall j: nat :: if j < |s.runs| then StageTold(past, j, s.runs[j].stage)
                     else Mark(j) !in past && Execute(j, true) !in past && Execute(j, false) !in past && Record(j) !in past
  }

  lemma StepTold(c: Config, past: seq<Action>, s: System, a: Action)
    requires StagesTold(past, s) && Enabled(s, a)
    ensures StagesTold(past + [a], Apply(c, s, a))
  {
    var s' := Apply(c, s, a);
    forall j: nat
      ensures if j < |s'.runs| then StageTold(past + [a], j, s'.runs[j].stage)
              else Mark(j) !in past + [a] && Execute(j, true) !in past + [a] && Execute(j, false) !in past + [a]
                   && Record(j) !in past + [a]
    {
      assert j < |s.runs| ==> StageTold(past, j, s.runs[j].stage);
      assert forall x :: x in past + [a] <==> x in past || x == a;
    }
  }

  lemma {:induction false} RunTold(c: Config, states: seq<System>, acts: seq<Action>, k: nat)
    requires IsRun(c, states, acts) && k < |states|
    ensures StagesTold(acts[..k], states[k])
  {
    if k > 0 {
      RunTold(c, states, acts, k - 1);
      StepTold(c, acts[..k - 1], states[k - 1], acts[k - 1]);
      assert acts[..k] == acts[..k - 1] + [acts[k - 1]];
    }
  }

  /** Once run `j` is recorded, its task's row is completed exactly when its tool had succeeded, and failed
      exactly when it had not. */
  lemma OutcomeStored(c: Config, states: seq<System>, acts: seq<Action>, k: nat, j: nat)
    requires IsRun(c, states, acts) && k < |states| && DistinctCalls(states[k].calls)
    requires j < |states[k].runs| && Record(j) in acts[..k]
    ensures var t, rows := states[k].runs[j].task, states[k].shared.rows;
            && t.taskId in rows && rows[t.taskId].task == t
            && (rows[t.taskId].status == Completed <==> Execute(j, true) in acts[..k])
            && (rows[t.taskId].status == Failed <==> Execute(j, false) in acts[..k])
  {
    RunTold(c, states, acts, k);
    ExactlyOnce(c, states, acts, k);
    var s := states[k];
    assert StageTold(acts[..k], j, s.runs[j].stage);
    assert Placed(s)[j] == s.runs[j].task;
    assert PlacedRow(s, j);
  }

  /** Before that, the row says queued until the run is marked, and running from then on. */
  lemma UnfinishedStored(c: Config, states: seq<System>, acts: seq<Action>, k: nat, j: nat)
    requires IsRun(c, states, acts) && k < |states| && DistinctCalls(states[k].calls)
    requires j < |states[k].runs| && Record(j) !in acts[..k]
    ensures var t, rows := states[k].runs[j].task, states[k].shared.rows;
            && t.taskId in rows && rows[t.taskId].task == t
            && rows[t.taskId].status == if Mark(j) in acts[..k] then Running else Queued
  {
    RunTold(c, states, acts, k);
    ExactlyOnce(c, states, acts, k);
    var s := states[k];
    assert StageTold(acts[..k], j, s.runs[j].stage);
    assert Placed(s)[j] == s.runs[j].task;
    assert PlacedRow(s, j);
  }
}
