/** What one call leaves in the tables, said of its arguments alone. */
module BrainRecords {
  import opened Options
  import opened Text
  import opened Jaccard
  import opened Brain
  import opened BrainIngest
  import opened BrainScope
  import opened BrainQuery
  import opened BrainOpenTasks

  /** The row is the first of its table, and fresh. */
  predicate Newest<T(==)>(rows: seq<Row<T>>, id: string, body: T) {
    rows != [] && rows[0].id == id && !rows[0].archived && rows[0].body == body
  }

  ghost predicate Linked(rows: seq<Row<Relation>>, kind: string, fromId: string, toId: string) {
    exists r :: r in rows && r.body.kind == kind && r.body.fromId == fromId && r.body.toId == toId && !r.archived
  }

  lemma RelationLinks(env: Env, s: Store, rel: Relation)
    ensures var after := UpsertRelation(env, s, rel).relations;
            Linked(after, rel.kind, rel.fromId, rel.toId)
            && forall k, f, t :: Linked(s.relations, k, f, t) ==> Linked(after, k, f, t)
  {
    var after := UpsertRelation(env, s, rel).relations;
    KeepMembers(OtherTriple(rel), s.relations);
    assert after[0] in after;
    forall k, f, t | Linked(s.relations, k, f, t)
      ensures Linked(after, k, f, t)
    {
      var r :| r in s.relations && r.body.kind == k && r.body.fromId == f && r.body.toId == t && !r.archived;
      assert OtherTriple(rel)(r) ==> r in after;
    }
  }

  // ----- where a merged task goes -----

  /** An unarchived task among the newest 512 rows, in the new one's scope, that shares at least 0.72 of the
      tokens of the two summaries. */
  ghost predicate MergesWith(env: Env, s: Store, summary: string, scope: string, p: nat) {
    && p < |s.tasks| && p < 512 && !s.tasks[p].archived
    && InScope(env, s.tasks[p].body.scope, scope)
    && Alike(env, summary, s.tasks[p].body.summary) >= 0.72
  }

  lemma MergesWithIs(env: Env, s: Store, summary: string, scope: string, p: nat)
    requires p < |s.tasks| && p < 512
    ensures MergesWith(env, s, summary, scope, p) <==> !s.tasks[p].archived && Mergeable(env, summary, scope, s.tasks[p])
    ensures MergeScore(env, summary, s.tasks[p].body) == Alike(env, summary, s.tasks[p].body.summary)
  {
    ScopeMeans(env, s.tasks[p].body.scope, scope);
    SimilarityIsJaccard(env.letters, summary, s.tasks[p].body.summary);
  }

  /** The task a merge goes to: the most alike, the one updated first among equals; and without one, the
      hash of summary and scope. */
  lemma MergeTargetIs(env: Env, s: Store, t: Task) returns (p: nat)
    ensures if p < |s.tasks| then
              && MergesWith(env, s, t.summary, t.scope, p) && MergeTarget(env, s, t) == s.tasks[p].id
              && forall q: nat :: MergesWith(env, s, t.summary, t.scope, q) ==>
                   var a, b := Alike(env, t.summary, s.tasks[q].body.summary), Alike(env, t.summary, s.tasks[p].body.summary);
                   a < b || (a == b && q <= p)
            else
              && MergeTarget(env, s, t) == "task:" + env.hash(t.summary + ":" + t.scope)
              && forall q: nat :: !MergesWith(env, s, t.summary, t.scope, q)
  {
    var window, listed := Take(s.tasks, WINDOW), Listed(s.tasks, false);
    var x := BestAt(env, t.summary, t.scope, listed);
    if x < |listed| {
      p := KeepOrigin(Visible(false), window, x);
      MergesWithIs(env, s, t.summary, t.scope, p);
    } else {
      p := |s.tasks|;
    }
    forall q: nat | MergesWith(env, s, t.summary, t.scope, q)
      ensures p < |s.tasks|
      ensures var a, b := Alike(env, t.summary, s.tasks[q].body.summary), Alike(env, t.summary, s.tasks[p].body.summary);
              a < b || (a == b && q <= p)
    {
      Rival(env, s, t.summary, t.scope, x, p, q);
    }
  }

  lemma Rival(env: Env, s: Store, summary: string, scope: string, x: nat, p: nat, q: nat)
    requires var listed := Listed(s.tasks, false);
             && x <= |listed|
             && (forall i :: 0 <= i < |listed| && Mergeable(env, summary, scope, listed[i]) ==>
                   x < |listed| && MergeScore(env, summary, listed[i].body) <= MergeScore(env, summary, listed[x].body)
                   && (MergeScore(env, summary, listed[i].body) == MergeScore(env, summary, listed[x].body) ==> i <= x))
             && (x < |listed| ==> MergesWith(env, s, summary, scope, p) && s.tasks[p] == listed[x]
                                  && |Keep(Visible(false), Take(s.tasks, WINDOW)[..p])| == x)
             && (x == |listed| ==> p == |s.tasks|)
    requires MergesWith(env, s, summary, scope, q)
    ensures p < |s.tasks|
    ensures var a, b := Alike(env, summary, s.tasks[q].body.summary), Alike(env, summary, s.tasks[p].body.summary);
            a < b || (a == b && q <= p)
  {
    var window, v := Take(s.tasks, WINDOW), Visible(false);
    assert v(window[q]);
    KeepPosition(v, window, q);
    MergesWithIs(env, s, summary, scope, q);
    var i := |Keep(v, window[..q])|;
    assert Listed(s.tasks, false)[i] == s.tasks[q];
    MergesWithIs(env, s, summary, scope, p);
    if p < q {
      assert v(window[p]);
      KeepGrows(v, window, p, q);
    }
  }

  // ----- ingestion -----

  /** The ids of a message's artifacts and environments, in order. */
  ghost predicate AreMentioned(env: Env, m: Message, things: seq<string>, places: seq<string>) {
    && |things| == |env.artifactsIn(m.body)| && |places| == |env.environmentsIn(m.body)|
    && (forall i :: 0 <= i < |things| ==> things[i] == "artifact:" + env.hash(env.artifactsIn(m.body)[i]))
    && (forall i :: 0 <= i < |places| ==>
          places[i] == "environment:" + env.environmentsIn(m.body)[i].0 + ":" + env.hash(env.environmentsIn(m.body)[i].1))
  }

  function SenderId(env: Env, m: Message): string {
    "person:contact:" + m.connector + ":" + env.hash(m.sender)
  }

  lemma MentionedAre(env: Env, m: Message)
    ensures AreMentioned(env, m, ArtifactIds(env, env.artifactsIn(m.body)), EnvironmentIds(env, env.environmentsIn(m.body)))
  {
  }

  lemma MentionedOnly(env: Env, m: Message, things: seq<string>, places: seq<string>)
    requires AreMentioned(env, m, things, places)
    ensures [SenderId(env, m)] + things + places == LinkedIds(env, m)
  {
    assert things == ArtifactIds(env, env.artifactsIn(m.body));
    assert places == EnvironmentIds(env, env.environmentsIn(m.body));
  }

  function SentRef(env: Env, m: Message): string {
    "message:" + m.connector + ":" + m.channelId + ":" + env.hash(m.sender) + ":" + env.hash(m.body)
  }

  function DueFrom(env: Env, now: int, text: string): Option<int> {
    if env.dueIn(text).Some? then Some(now + env.dueIn(text).value) else None
  }

  /** A message in which a task is found leaves it as the newest task: open, unarchived, with the summary
      found, the priority and the delay read from the body, and links to everyone and everything mentioned. */
  lemma IngestedTaskIs(env: Env, s: Store, m: Message, things: seq<string>, places: seq<string>)
    requires env.enabled && env.autoMessages && env.taskIn(m.body).Some? && AreMentioned(env, m, things, places)
    ensures var s', summary := Step(env, s, DoIngest(m)), env.taskIn(m.body).value;
            && s'.tasks != [] && !s'.tasks[0].archived && s.now <= s'.tasks[0].updatedAt < s'.now
            && s'.tasks[0].body == Task(PreferredTitle(summary, summary), summary, "open", env.priorityIn(m.body),
                 DueFrom(env, s'.tasks[0].updatedAt, m.body), env.messageScope(m.connector, m.channelId, m.sender),
                 env.encodeLinks([SenderId(env, m)] + things + places), 0.84, 0.88, SentRef(env, m))
            && (forall r :: r in s.tasks && r.id != s'.tasks[0].id ==> r in s'.tasks)
  {
    var row := TaskWritten(env, s, m).value;
    WrittenIs(env, s, m, things, places);
    IngestAdds(env, s, m);
    assert Step(env, s, DoIngest(m)).tasks == Put(s.tasks, row);
    ClockRuns(env, s, m);
    KeepMembers(OtherId(row.id), s.tasks);
  }

  lemma WrittenIs(env: Env, s: Store, m: Message, things: seq<string>, places: seq<string>)
    requires env.taskIn(m.body).Some? && AreMentioned(env, m, things, places)
    ensures var row, summary := TaskWritten(env, s, m), env.taskIn(m.body).value;
            && row.Some? && !row.value.archived && row.value.updatedAt == BeforeTask(env, s, m).now
            && row.value.body == Task(PreferredTitle(summary, summary), summary, "open", env.priorityIn(m.body),
                 DueFrom(env, row.value.updatedAt, m.body), env.messageScope(m.connector, m.channelId, m.sender),
                 env.encodeLinks([SenderId(env, m)] + things + places), 0.84, 0.88, SentRef(env, m))
  {
    MentionedOnly(env, m, things, places);
  }

  lemma {:induction false} ArtifactsTick(env: Env, s: Store, m: Message, artifacts: seq<string>)
    ensures IngestArtifacts(env, s, m, artifacts).now == s.now + 2 * |artifacts|
  {
    if artifacts != [] {
      ArtifactsTick(env, s, m, artifacts[..|artifacts| - 1]);
    }
  }

  lemma {:induction false} EnvironmentsTick(env: Env, s: Store, m: Message, places: seq<(string, string)>)
    ensures IngestEnvironments(env, s, m, places).now == s.now + 2 * |places|
  {
    if places != [] {
      EnvironmentsTick(env, s, m, places[..|places| - 1]);
    }
  }

  /** Time passes from write to write. */
  lemma ClockRuns(env: Env, s: Store, m: Message)
    ensures s.now < BeforeTask(env, s, m).now < IngestMessage(env, s, m).now
  {
    var s1 := IngestContact(env, s, m);
    ArtifactsTick(env, s1, m, env.artifactsIn(m.body));
    EnvironmentsTick(env, IngestArtifacts(env, s1, m, env.artifactsIn(m.body)), m, env.environmentsIn(m.body));
  }

  /** So `suggest` ranks it, for every scope that it is in, unless retention archives so many other tasks
      before that they fill the window. */
  lemma IngestedTaskIsAsked(env: Env, s: Store, m: Message, scope: string)
    requires env.enabled && env.autoMessages && env.taskIn(m.body).Some?
    ensures var s' := Step(env, s, DoIngest(m));
            var after := Retain(env, s');
            s'.tasks != []
            && ((exists p: nat :: Askable(env, after, scope, p) && after.tasks[p] == s'.tasks[0])
                <==> InScope(env, env.messageScope(m.connector, m.channelId, m.sender), scope)
                     && |Keep(FadedTask(Cutoff(env, s'.now)), s'.tasks)| < 512)
  {
    MentionedAre(env, m);
    IngestedTaskIs(env, s, m, ArtifactIds(env, env.artifactsIn(m.body)), EnvironmentIds(env, env.environmentsIn(m.body)));
    var s' := Step(env, s, DoIngest(m));
    FreshIsAsked(env, s', scope);
  }

  lemma FreshIsAsked(env: Env, s: Store, scope: string)
    requires s.tasks != [] && !s.tasks[0].archived && s.tasks[0].body.status == "open"
    ensures var after := Retain(env, s);
            (exists p: nat :: Askable(env, after, scope, p) && after.tasks[p] == s.tasks[0])
            <==> InScope(env, s.tasks[0].body.scope, scope) && |Keep(FadedTask(Cutoff(env, s.now)), s.tasks)| < 512
  {
    var faded, after := FadedTask(Cutoff(env, s.now)), Retain(env, s);
    var n := |Keep(faded, s.tasks)|;
    assert after.tasks == MarkArchived(Keep(faded, s.tasks), s.now + 2) + Keep(Not(faded), s.tasks);
    assert Keep(Not(faded), s.tasks)[0] == s.tasks[0];
    assert after.tasks[n] == s.tasks[0];
    assert forall p: nat :: p < n ==> after.tasks[p].archived;
    if InScope(env, s.tasks[0].body.scope, scope) && n < 512 {
      assert Askable(env, after, scope, n);
    }
  }

  ghost predicate LinksKept(before: seq<Row<Relation>>, after: seq<Row<Relation>>) {
    forall k, f, t :: Linked(before, k, f, t) ==> Linked(after, k, f, t)
  }

  ghost predicate AllLinked(rows: seq<Row<Relation>>, kind: string, fromId: string, toIds: seq<string>) {
    forall i :: 0 <= i < |toIds| ==> Linked(rows, kind, fromId, toIds[i])
  }

  lemma OneMore(before: seq<Row<Relation>>, after: seq<Row<Relation>>, kind: string, fromId: string, ids: seq<string>, id: string)
    requires AllLinked(before, kind, fromId, ids) && LinksKept(before, after) && Linked(after, kind, fromId, id)
    ensures AllLinked(after, kind, fromId, ids + [id])
  {
  }

  /** The row under an id of another kind of entity stays. */
  ghost predicate PersonsKept(before: seq<Row<Entity>>, after: seq<Row<Entity>>) {
    forall r :: r in before && r.id != "" && r.id[0] == 'p' ==> r in after
  }

  lemma OtherEntity(s: Store, id: string, e: Entity)
    requires id != "" && id[0] != 'p'
    ensures PersonsKept(s.entities, UpsertEntity(s, id, e).entities)
  {
    KeepMembers(OtherId(id), s.entities);
  }

  lemma {:induction false} ArtifactsLink(env: Env, s: Store, m: Message, artifacts: seq<string>)
    ensures var s' := IngestArtifacts(env, s, m, artifacts);
            && AllLinked(s'.relations, "mentioned_with", ContactId(env, m), ArtifactIds(env, artifacts))
            && LinksKept(s.relations, s'.relations) && PersonsKept(s.entities, s'.entities)
  {
    if artifacts != [] {
      var n := |artifacts| - 1;
      ArtifactsLink(env, s, m, artifacts[..n]);
      var mid, s' := IngestArtifacts(env, s, m, artifacts[..n]), IngestArtifacts(env, s, m, artifacts);
      ArtifactLinks(env, mid, m, artifacts[n]);
      OneMore(mid.relations, s'.relations, "mentioned_with", ContactId(env, m), ArtifactIds(env, artifacts[..n]), ArtifactId(env, artifacts[n]));
      LastArtifactId(env, artifacts);
    }
  }

  lemma ArtifactLinks(env: Env, s: Store, m: Message, artifact: string)
    ensures var s' := IngestArtifact(env, s, m, artifact);
            && Linked(s'.relations, "mentioned_with", ContactId(env, m), ArtifactId(env, artifact))
            && LinksKept(s.relations, s'.relations) && PersonsKept(s.entities, s'.entities)
  {
    var id, ref := ArtifactId(env, artifact), MessageRef(env, m);
    var e := Entity("artifact", "reference", artifact, "Referenced in inbound " + m.connector + " message",
                    MessageScope(env, m), "[]", 0.56, 0.85, ref);
    OtherEntity(s, id, e);
    RelationLinks(env, UpsertEntity(s, id, e), Relation("mentioned_with", ContactId(env, m), id, env.sourceNote(ref), 0.74));
  }

  lemma {:induction false} EnvironmentsLink(env: Env, s: Store, m: Message, places: seq<(string, string)>)
    ensures var s' := IngestEnvironments(env, s, m, places);
            && AllLinked(s'.relations, "mentioned_with", ContactId(env, m), EnvironmentIds(env, places))
            && LinksKept(s.relations, s'.relations) && PersonsKept(s.entities, s'.entities)
  {
    if places != [] {
      var n := |places| - 1;
      EnvironmentsLink(env, s, m, places[..n]);
      var mid, s' := IngestEnvironments(env, s, m, places[..n]), IngestEnvironments(env, s, m, places);
      EnvironmentLinks(env, mid, m, places[n]);
      OneMore(mid.relations, s'.relations, "mentioned_with", ContactId(env, m), EnvironmentIds(env, places[..n]), EnvironmentId(env, places[n]));
      LastEnvironmentId(env, places);
    }
  }

  lemma EnvironmentLinks(env: Env, s: Store, m: Message, place: (string, string))
    ensures var s' := IngestEnvironment(env, s, m, place);
            && Linked(s'.relations, "mentioned_with", ContactId(env, m), EnvironmentId(env, place))
            && LinksKept(s.relations, s'.relations) && PersonsKept(s.entities, s'.entities)
  {
    var id, ref := EnvironmentId(env, place), MessageRef(env, m);
    var e := Entity("environment", place.0, place.1, "Mentioned " + place.0 + " context", MessageScope(env, m), "[]", 0.52, 0.78, ref);
    OtherEntity(s, id, e);
    RelationLinks(env, UpsertEntity(s, id, e), Relation("mentioned_with", ContactId(env, m), id, env.sourceNote(ref), 0.7));
  }

  function SentFactId(env: Env, m: Message): string {
    "fact:" + SenderId(env, m) + ":" + env.hash(SentRef(env, m))
  }

  /** What is kept about the sender: a person, whom the owner knows, and the message as a fact about them. */
  ghost predicate SenderKept(env: Env, m: Message, s': Store) {
    var scope := env.messageScope(m.connector, m.channelId, m.sender);
    && (exists r :: r in s'.entities && r.id == SenderId(env, m) && !r.archived
                    && r.body == Entity("person", "contact", m.sender, "Observed through " + m.connector + " in channel " + m.channelId,
                                        scope, "[]", 0.58, 0.96, SentRef(env, m)))
    && Newest(s'.facts, SentFactId(env, m), Fact(SenderId(env, m), m.body, scope, 0.62, 0.84, SentRef(env, m)))
    && Linked(s'.relations, "knows", env.ownerId, SenderId(env, m))
    && Linked(s'.relations, "mentioned_with", SenderId(env, m), env.workspaceId)
  }

  lemma ContactKept(env: Env, s: Store, m: Message)
    ensures SenderKept(env, m, IngestContact(env, s, m))
    ensures LinksKept(s.relations, IngestContact(env, s, m).relations)
  {
    var scope, ref, contact := MessageScope(env, m), MessageRef(env, m), ContactId(env, m);
    var s1 := UpsertEntity(s, contact, Entity("person", "contact", m.sender,
      "Observed through " + m.connector + " in channel " + m.channelId, scope, "[]", 0.58, 0.96, ref));
    var knows := Relation("knows", env.ownerId, contact, env.channelNote(m.connector, m.channelId), 0.92);
    var near := Relation("mentioned_with", contact, env.workspaceId, env.sourceNote(ref), 0.65);
    RelationLinks(env, s1, knows);
    RelationLinks(env, UpsertRelation(env, s1, knows), near);
    assert IngestContact(env, s, m).entities[0] in IngestContact(env, s, m).entities;
  }

  lemma SenderStays(env: Env, m: Message, s: Store, s': Store)
    requires SenderKept(env, m, s) && PersonsKept(s.entities, s'.entities) && LinksKept(s.relations, s'.relations)
    requires s'.facts == s.facts
    ensures SenderKept(env, m, s')
  {
    assert SenderId(env, m)[0] == 'p';
  }

  /** What a message leaves besides its task: its sender, everything it mentions, and the links between them. */
  lemma IngestedRecordsAre(env: Env, s: Store, m: Message, things: seq<string>, places: seq<string>)
    requires env.enabled && env.autoMessages && AreMentioned(env, m, things, places)
    ensures var s' := Step(env, s, DoIngest(m));
            && SenderKept(env, m, s')
            && Adds(s.entities, [SenderId(env, m)] + things + places, s'.entities) && Adds(s.facts, [SentFactId(env, m)], s'.facts)
            && AllLinked(s'.relations, "mentioned_with", SenderId(env, m), things)
            && AllLinked(s'.relations, "mentioned_with", SenderId(env, m), places)
            && LinksKept(s.relations, s'.relations)
            && (env.taskIn(m.body).None? ==> s'.tasks == s.tasks)
  {
    MentionedOnly(env, m, things, places);
    assert things == ArtifactIds(env, env.artifactsIn(m.body)) && places == EnvironmentIds(env, env.environmentsIn(m.body));
    StepOfIngest(env, s, m);
    BeforeTaskKeeps(env, s, m);
    IngestedFollows(env, s, m);
    IngestAdds(env, s, m);
  }

  lemma IngestedFollows(env: Env, s: Store, m: Message)
    requires SenderKept(env, m, BeforeTask(env, s, m))
    ensures var s' := IngestMessage(env, s, m);
            SenderKept(env, m, s') && LinksKept(BeforeTask(env, s, m).relations, s'.relations)
  {
    RowsFollow(env, BeforeTask(env, s, m), m, IngestMessage(env, s, m));
  }

  /** After what is mentioned only the task, its two links and the log row are written. */
  lemma RowsFollow(env: Env, s3: Store, m: Message, s': Store)
    requires s'.entities == s3.entities && s'.facts == s3.facts && SenderKept(env, m, s3)
    requires s'.relations == if env.taskIn(m.body).Some? then IngestTask(env, s3, m, env.taskIn(m.body).value).relations else s3.relations
    ensures SenderKept(env, m, s') && LinksKept(s3.relations, s'.relations)
  {
    if env.taskIn(m.body).Some? {
      TaskLinks(env, s3, m);
    }
    SenderStays(env, m, s3, s');
  }

  lemma StepOfIngest(env: Env, s: Store, m: Message)
    requires env.enabled && env.autoMessages
    ensures Step(env, s, DoIngest(m)) == IngestMessage(env, s, m)
  {
  }

  /** One row of the log is written, and no other changes. */
  ghost predicate Logged(before: map<string, LogRow>, after: map<string, LogRow>, ref: string, kind: string, fingerprint: string, target: string) {
    && after.Keys == before.Keys + {ref}
    && after[ref].kind == kind && after[ref].fingerprint == fingerprint && after[ref].target == target
    && forall r :: r in before && r != ref ==> after[r] == before[r]
  }

  lemma LoggedIs(env: Env, s: Store, m: Message)
    ensures Logged(s.log, IngestMessage(env, s, m).log, SentRef(env, m), "message", Fingerprint(env.letters, m.body),
              env.targetNote("linked_ids", IngestedIds(env, s, m)))
  {
    LogStays(env, s, m);
    assert IngestRows(env, s, m).log == s.log;
  }

  /** And one log row, under the message's reference, with the ids of all it mentions and of its task. */
  lemma IngestedLogIs(env: Env, s: Store, m: Message, things: seq<string>, places: seq<string>)
    requires env.enabled && env.autoMessages && AreMentioned(env, m, things, places)
    ensures var s' := Step(env, s, DoIngest(m));
            && (env.taskIn(m.body).Some? ==> s'.tasks != [])
            && Logged(s.log, s'.log, SentRef(env, m), "message", Fingerprint(env.letters, m.body),
                 env.targetNote("linked_ids", [SenderId(env, m)] + things + places
                   + if env.taskIn(m.body).Some? then [s'.tasks[0].id] else []))
  {
    StepOfIngest(env, s, m);
    LoggedIs(env, s, m);
    LoggedIdsAre(env, s, m, things, places);
  }

  lemma LoggedIdsAre(env: Env, s: Store, m: Message, things: seq<string>, places: seq<string>)
    requires AreMentioned(env, m, things, places)
    ensures var s' := IngestMessage(env, s, m);
            && (env.taskIn(m.body).Some? ==> s'.tasks != [])
            && IngestedIds(env, s, m) == [SenderId(env, m)] + things + places
                 + if env.taskIn(m.body).Some? then [s'.tasks[0].id] else []
  {
    MentionedOnly(env, m, things, places);
    IngestAdds(env, s, m);
  }

  lemma BeforeTaskKeeps(env: Env, s: Store, m: Message)
    ensures var s3 := BeforeTask(env, s, m);
            && SenderKept(env, m, s3) && LinksKept(s.relations, s3.relations) && s3.log == s.log
            && AllLinked(s3.relations, "mentioned_with", SenderId(env, m), ArtifactIds(env, env.artifactsIn(m.body)))
            && AllLinked(s3.relations, "mentioned_with", SenderId(env, m), EnvironmentIds(env, env.environmentsIn(m.body)))
  {
    var artifacts, mentions := env.artifactsIn(m.body), env.environmentsIn(m.body);
    var s1 := IngestContact(env, s, m);
    var s2 := IngestArtifacts(env, s1, m, artifacts);
    ContactKept(env, s, m);
    ArtifactsLink(env, s1, m, artifacts);
    ArtifactsAdd(env, s1, m, artifacts);
    SenderStays(env, m, s1, s2);
    EnvironmentsLink(env, s2, m, mentions);
    EnvironmentsAdd(env, s2, m, mentions);
    SenderStays(env, m, s2, BeforeTask(env, s, m));
    LogStays(env, s, m);
  }

  lemma {:induction false} ArtifactsLog(env: Env, s: Store, m: Message, artifacts: seq<string>)
    ensures IngestArtifacts(env, s, m, artifacts).log == s.log
  {
    if artifacts != [] {
      ArtifactsLog(env, s, m, artifacts[..|artifacts| - 1]);
    }
  }

  lemma {:induction false} EnvironmentsLog(env: Env, s: Store, m: Message, places: seq<(string, string)>)
    ensures IngestEnvironments(env, s, m, places).log == s.log
  {
    if places != [] {
      EnvironmentsLog(env, s, m, places[..|places| - 1]);
    }
  }

  lemma LogStays(env: Env, s: Store, m: Message)
    ensures BeforeTask(env, s, m).log == s.log
  {
    var s1 := IngestContact(env, s, m);
    ArtifactsLog(env, s1, m, env.artifactsIn(m.body));
    EnvironmentsLog(env, IngestArtifacts(env, s1, m, env.artifactsIn(m.body)), m, env.environmentsIn(m.body));
  }

  /** A task found in the message is assigned to the owner and about the sender. */
  lemma TaskLinks(env: Env, s3: Store, m: Message)
    requires env.taskIn(m.body).Some?
    ensures var s' := IngestTask(env, s3, m, env.taskIn(m.body).value);
            && s'.tasks != [] && LinksKept(s3.relations, s'.relations)
            && s'.entities == s3.entities && s'.facts == s3.facts && s'.log == s3.log
            && Linked(s'.relations, "assigned_to", s'.tasks[0].id, env.ownerId)
            && Linked(s'.relations, "about", s'.tasks[0].id, SenderId(env, m))
  {
    var t, ref := MessageTask(env, s3.now, m, env.taskIn(m.body).value), MessageRef(env, m);
    var id, s4 := MergeTarget(env, s3, t), MergeTask(env, s3, t);
    var owned := Relation("assigned_to", id, env.ownerId, env.sourceNote(ref), 0.86);
    RelationLinks(env, s4, owned);
    RelationLinks(env, UpsertRelation(env, s4, owned), Relation("about", id, ContactId(env, m), env.sourceNote(ref), 0.78));
  }
}
