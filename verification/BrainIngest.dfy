/** Re-ingesting a message adds no ids, and repeated merging drifts at a bounded rate. */
module BrainIngest {
  import opened Options
  import opened Text
  import opened Jaccard
  import opened Brain
  import opened BrainRuns

  // ----- what one ingestion adds to each id set -----

  /** `b` holds the ids of `a` and those of `more`, and no others. */
  ghost predicate Adds<T>(a: seq<Row<T>>, more: seq<string>, b: seq<Row<T>>) {
    forall id :: HasId(b, id) <==> HasId(a, id) || id in more
  }

  lemma PutAdds<T>(rows: seq<Row<T>>, row: Row<T>)
    ensures Adds(rows, [row.id], Put(rows, row))
  {
    var rest, after := Keep(OtherId(row.id), rows), Put(rows, row);
    KeepMembers(OtherId(row.id), rows);
    forall id
      ensures HasId(after, id) <==> HasId(rows, id) || id == row.id
    {
      assert after[0] == row;
      if HasId(after, id) && id != row.id {
        var i :| 0 <= i < |after| && after[i].id == id;
        assert rest[i - 1] in rows;
      }
      if HasId(rows, id) && id != row.id {
        var i :| 0 <= i < |rows| && rows[i].id == id;
        assert rows[i] in rest;
        var k :| 0 <= k < |rest| && rest[k] == rows[i];
        assert after[k + 1].id == id;
      }
    }
  }

  lemma LastArtifactId(env: Env, artifacts: seq<string>)
    requires artifacts != []
    ensures var n := |artifacts| - 1;
            ArtifactIds(env, artifacts) == ArtifactIds(env, artifacts[..n]) + [ArtifactId(env, artifacts[n])]
  {
  }

  lemma LastEnvironmentId(env: Env, mentions: seq<(string, string)>)
    requires mentions != []
    ensures var n := |mentions| - 1;
            EnvironmentIds(env, mentions) == EnvironmentIds(env, mentions[..n]) + [EnvironmentId(env, mentions[n])]
  {
  }

  lemma {:induction false} ArtifactsAdd(env: Env, s: Store, m: Message, artifacts: seq<string>)
    ensures var s' := IngestArtifacts(env, s, m, artifacts);
            Adds(s.entities, ArtifactIds(env, artifacts), s'.entities) && s'.facts == s.facts && s'.tasks == s.tasks
  {
    if artifacts != [] {
      var n := |artifacts| - 1;
      ArtifactsAdd(env, s, m, artifacts[..n]);
      var mid := IngestArtifacts(env, s, m, artifacts[..n]);
      ArtifactAdds(env, mid, m, artifacts[n]);
      LastArtifactId(env, artifacts);
    }
  }

  lemma ArtifactAdds(env: Env, s: Store, m: Message, artifact: string)
    ensures var s' := IngestArtifact(env, s, m, artifact);
            Adds(s.entities, [ArtifactId(env, artifact)], s'.entities) && s'.facts == s.facts && s'.tasks == s.tasks
  {
    PutAdds(s.entities, IngestArtifact(env, s, m, artifact).entities[0]);
  }

  lemma {:induction false} EnvironmentsAdd(env: Env, s: Store, m: Message, mentions: seq<(string, string)>)
    ensures var s' := IngestEnvironments(env, s, m, mentions);
            Adds(s.entities, EnvironmentIds(env, mentions), s'.entities) && s'.facts == s.facts && s'.tasks == s.tasks
  {
    if mentions != [] {
      var n := |mentions| - 1;
      EnvironmentsAdd(env, s, m, mentions[..n]);
      var mid := IngestEnvironments(env, s, m, mentions[..n]);
      EnvironmentAdds(env, mid, m, mentions[n]);
      LastEnvironmentId(env, mentions);
    }
  }

  lemma EnvironmentAdds(env: Env, s: Store, m: Message, mention: (string, string))
    ensures var s' := IngestEnvironment(env, s, m, mention);
            Adds(s.entities, [EnvironmentId(env, mention)], s'.entities) && s'.facts == s.facts && s'.tasks == s.tasks
  {
    PutAdds(s.entities, IngestEnvironment(env, s, m, mention).entities[0]);
  }

  lemma ContactAdds(env: Env, s: Store, m: Message)
    ensures var s' := IngestContact(env, s, m);
            && Adds(s.entities, [ContactId(env, m)], s'.entities)
            && Adds(s.facts, [MessageFactId(env, m)], s'.facts)
            && s'.tasks == s.tasks
  {
    var s' := IngestContact(env, s, m);
    PutAdds(s.entities, s'.entities[0]);
    PutAdds(s.facts, s'.facts[0]);
  }

  lemma BeforeTaskAdds(env: Env, s: Store, m: Message)
    ensures Adds(s.entities, LinkedIds(env, m), BeforeTask(env, s, m).entities)
    ensures Adds(s.facts, [MessageFactId(env, m)], BeforeTask(env, s, m).facts)
    ensures BeforeTask(env, s, m).tasks == s.tasks
  {
    var artifacts, mentions := env.artifactsIn(m.body), env.environmentsIn(m.body);
    ContactAdds(env, s, m);
    var s1 := IngestContact(env, s, m);
    ArtifactsAdd(env, s1, m, artifacts);
    var s2 := IngestArtifacts(env, s1, m, artifacts);
    EnvironmentsAdd(env, s2, m, mentions);
    var s3 := BeforeTask(env, s, m);
  }

  /** The task row `ingest_message` writes, if it finds a task in the body. */
  function TaskWritten(env: Env, s: Store, m: Message): Option<Row<Task>> {
    match env.taskIn(m.body)
    case None => None
    case Some(summary) =>
      var s3 := BeforeTask(env, s, m);
      var t := MessageTask(env, s3.now, m, summary);
      Some(Row(MergeTarget(env, s3, t), false, s3.now, t))
  }

  /** What one ingestion adds to each table's ids. */
  ghost predicate Grew(env: Env, s: Store, m: Message, row: Option<Row<Task>>, s': Store) {
    && Adds(s.entities, LinkedIds(env, m), s'.entities)
    && Adds(s.facts, [MessageFactId(env, m)], s'.facts)
    && s'.tasks == if row.None? then s.tasks else Put(s.tasks, row.value)
  }

  lemma IngestAdds(env: Env, s: Store, m: Message)
    ensures Grew(env, s, m, TaskWritten(env, s, m), IngestMessage(env, s, m))
  {
    BeforeTaskAdds(env, s, m);
  }

  /** Growing twice by the same ids is growing once. */
  lemma GrewTwice(env: Env, s: Store, m: Message, first: Option<Row<Task>>, once: Store,
                  second: Option<Row<Task>>, twice: Store)
    requires Grew(env, s, m, first, once) && Grew(env, once, m, second, twice)
    requires second.Some? ==> HasId(once.tasks, second.value.id)
    ensures Ids(twice.entities) == Ids(once.entities)
    ensures Ids(twice.facts) == Ids(once.facts)
    ensures Ids(twice.tasks) == Ids(once.tasks)
  {
    SameIds(once.entities, twice.entities);
    SameIds(once.facts, twice.facts);
    if second.Some? {
      PutAdds(once.tasks, second.value);
    }
    SameIds(once.tasks, twice.tasks);
  }

  // ----- the merge target the second time -----

  lemma {:induction false} BestAt(env: Env, summary: string, scope: string, rows: seq<Row<Task>>) returns (x: nat)
    ensures var best := Best(env, summary, scope, rows);
            && (best.None? ==> x == |rows|)
            && (best.Some? ==> x < |rows| && best.value == rows[x] && Mergeable(env, summary, scope, rows[x]))
    ensures forall i :: 0 <= i < |rows| && Mergeable(env, summary, scope, rows[i]) ==>
              x < |rows| && MergeScore(env, summary, rows[i].body) <= MergeScore(env, summary, rows[x].body)
              && (MergeScore(env, summary, rows[i].body) == MergeScore(env, summary, rows[x].body) ==> i <= x)
  {
    if rows == [] {
      x := 0;
    } else {
      var y := BestAt(env, summary, scope, rows[1..]);
      assert forall i :: 0 < i < |rows| ==> rows[i] == rows[1..][i - 1];
      var later := Best(env, summary, scope, rows[1..]);
      var first := Mergeable(env, summary, scope, rows[0])
                   && (later.None? || MergeScore(env, summary, later.value.body) < MergeScore(env, summary, rows[0].body));
      x := if first then 0 else y + 1;
    }
  }

  /** What merging looks for: the listed row in scope that is most similar, if any reaches 0.72. */
  lemma FindSimilarMeaning(env: Env, s: Store, summary: string, scope: string)
    ensures var rows, found := Listed(s.tasks, false), FindSimilar(env, s, summary, scope);
            && (found.None? <==> forall i :: 0 <= i < |rows| ==> !Mergeable(env, summary, scope, rows[i]))
            && (found.Some? ==>
                  && found.value in rows && Mergeable(env, summary, scope, found.value)
                  && forall i :: 0 <= i < |rows| && Mergeable(env, summary, scope, rows[i]) ==>
                       MergeScore(env, summary, rows[i].body) <= MergeScore(env, summary, found.value.body))
  {
    var x := BestAt(env, summary, scope, Listed(s.tasks, false));
  }

  /** A text is fully similar to itself if it has a token, and similar to nothing if it has none. */
  lemma SelfScore(env: Env, summary: string, t: Task)
    ensures TokenSet(env.letters, summary) == {} ==> MergeScore(env, summary, t) == 0.0
    ensures TokenSet(env.letters, summary) != {} && t.summary == summary ==> MergeScore(env, summary, t) == 1.0
  {
    SimilarityIsJaccard(env.letters, summary, t.summary);
    LikenessOne(env.letters, summary, t.summary);
    AtMostOne(TokenSet(env.letters, summary), TokenSet(env.letters, t.summary));
  }

  lemma FrontListed(rows: seq<Row<Task>>)
    requires rows != [] && !rows[0].archived
    ensures Listed(rows, false) != [] && Listed(rows, false)[0] == rows[0]
  {
    assert Take(rows, WINDOW)[0] == rows[0];
  }

  /** Once a task with this summary heads the table, merging the summary again reaches an id already there. */
  lemma TargetAgain(env: Env, before: Store, after: Store, t: Task, again: Task)
    requires after.tasks != [] && !after.tasks[0].archived
    requires after.tasks[0].body == t && after.tasks[0].id == MergeTarget(env, before, t)
    requires again.summary == t.summary && again.scope == t.scope && ScopeMatches(env, t.scope, t.scope)
    ensures HasId(after.tasks, MergeTarget(env, after, again))
  {
    FindSimilarMeaning(env, after, again.summary, again.scope);
    var found := FindSimilar(env, after, again.summary, again.scope);
    if found.Some? {
      ListedMembers(after.tasks, false);
    } else {
      FrontListed(after.tasks);
      SelfScore(env, t.summary, t);
      assert !Mergeable(env, again.summary, again.scope, Listed(after.tasks, false)[0]);
      NothingSimilar(env, before, t);
    }
  }

  /** A summary without tokens merges with nothing. */
  lemma NothingSimilar(env: Env, s: Store, t: Task)
    requires TokenSet(env.letters, t.summary) == {}
    ensures FindSimilar(env, s, t.summary, t.scope).None?
  {
    FindSimilarMeaning(env, s, t.summary, t.scope);
    var found := FindSimilar(env, s, t.summary, t.scope);
    if found.Some? {
      SelfScore(env, t.summary, found.value.body);
    }
  }

  /** The second ingestion writes its task under an id the first one left. */
  lemma WrittenAgain(env: Env, s: Store, m: Message)
    requires env.Faithful() && TaskWritten(env, s, m).Some?
    ensures var once := IngestMessage(env, s, m);
            TaskWritten(env, once, m).Some? && HasId(once.tasks, TaskWritten(env, once, m).value.id)
  {
    var once := IngestMessage(env, s, m);
    var summary := env.taskIn(m.body).value;
    var b1, b2 := BeforeTask(env, s, m), BeforeTask(env, once, m);
    IngestAdds(env, s, m);
    BeforeTaskAdds(env, once, m);
    assert b2.tasks[0] == TaskWritten(env, s, m).value;
    TargetAgain(env, b1, b2, MessageTask(env, b1.now, m, summary), MessageTask(env, b2.now, m, summary));
  }

  lemma IngestTwice(env: Env, s: Store, m: Message)
    requires env.Faithful()
    ensures var once := IngestMessage(env, s, m);
            var twice := IngestMessage(env, once, m);
            && Ids(twice.entities) == Ids(once.entities)
            && Ids(twice.facts) == Ids(once.facts)
            && Ids(twice.tasks) == Ids(once.tasks)
  {
    var once := IngestMessage(env, s, m);
    var twice := IngestMessage(env, once, m);
    IngestAdds(env, s, m);
    IngestAdds(env, once, m);
    if TaskWritten(env, s, m).Some? {
      WrittenAgain(env, s, m);
    }
    GrewTwice(env, s, m, TaskWritten(env, s, m), once, TaskWritten(env, once, m), twice);
  }

  /** Ingesting the same message again adds no entity, fact or task id, for every prior store: whether
      the task was merged by similarity, revived from the archive, or keyed by hash. */
  lemma IngestIdempotentOnIds(env: Env, s: Store, m: Message)
    requires env.Faithful()
    ensures var once := Step(env, s, DoIngest(m));
            var twice := Step(env, once, DoIngest(m));
            && Ids(twice.entities) == Ids(once.entities)
            && Ids(twice.facts) == Ids(once.facts)
            && Ids(twice.tasks) == Ids(once.tasks)
  {
    IngestTwice(env, s, m);
  }

  lemma SameIds<T>(a: seq<Row<T>>, b: seq<Row<T>>)
    requires forall id :: HasId(a, id) <==> HasId(b, id)
    ensures Ids(a) == Ids(b)
  {
    forall id
      ensures id in Ids(a) <==> HasId(a, id)
      ensures id in Ids(b) <==> HasId(b, id)
    {
    }
  }
}
