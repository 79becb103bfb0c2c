/** The brain manager as the source keeps it: tables updated in place, one statement at a time, with the
    loops of ingestion, recall and suggestion.  Keys, task floors and the one row per relation hold
    between statements. */
module BrainManager {
  import opened Options
  import opened Text
  import opened Ranking
  import B = Brain
  import opened BrainInvariant
  import opened BrainRuns
  import opened BrainTables
  import opened BrainRecall
  import opened BrainOpenTasks
  import opened BrainRecords
  import opened BrainRequests
  import opened BrainIngest

  lemma ArtifactsNext(env: B.Env, s: B.Store, m: B.Message, artifacts: seq<string>, i: nat)
    requires i < |artifacts|
    ensures B.IngestArtifacts(env, s, m, artifacts[..i + 1])
            == B.IngestArtifact(env, B.IngestArtifacts(env, s, m, artifacts[..i]), m, artifacts[i])
    ensures B.ArtifactIds(env, artifacts[..i + 1]) == B.ArtifactIds(env, artifacts[..i]) + [B.ArtifactId(env, artifacts[i])]
  {
    assert artifacts[..i + 1][..i] == artifacts[..i];
    LastArtifactId(env, artifacts[..i + 1]);
  }

  lemma EnvironmentsNext(env: B.Env, s: B.Store, m: B.Message, mentions: seq<(string, string)>, i: nat)
    requires i < |mentions|
    ensures B.IngestEnvironments(env, s, m, mentions[..i + 1])
            == B.IngestEnvironment(env, B.IngestEnvironments(env, s, m, mentions[..i]), m, mentions[i])
    ensures B.EnvironmentIds(env, mentions[..i + 1]) == B.EnvironmentIds(env, mentions[..i]) + [B.EnvironmentId(env, mentions[i])]
  {
    var next := mentions[..i + 1];
    assert next[..|next| - 1] == mentions[..i] && next[|next| - 1] == mentions[i];
    LastEnvironmentId(env, next);
  }

  lemma LinksNext(env: B.Env, s: B.Store, id: string, kind: string, links: seq<string>, ref: string, i: nat)
    requires i < |links|
    ensures B.LinkRecord(env, s, id, kind, links[..i + 1], ref)
            == B.UpsertRelation(env, B.LinkRecord(env, s, id, kind, links[..i], ref),
                 B.Relation(if kind == "task" then "about" else "mentioned_with", id, links[i], env.sourceNote(ref), 0.74))
  {
    assert links[..i + 1][..i] == links[..i];
  }

  class Manager {
    const env: B.Env
    var entities: seq<B.Row<B.Entity>>
    var facts: seq<B.Row<B.Fact>>
    var relations: seq<B.Row<B.Relation>>
    var tasks: seq<B.Row<B.Task>>
    var index: seq<B.Entry>
    var log: map<string, B.LogRow>
    var now: int

    /** Ids, index keys and relation triples are unique, and tasks keep their floors. */
    ghost predicate Valid()
      reads this
    {
      Sound(View()) && UniqueTriples(relations)
    }

    ghost function View(): B.Store
      reads this
    {
      B.Store(entities, facts, relations, tasks, index, log, now)
    }

    constructor (env: B.Env)
      ensures this.env == env && Valid() && View() == B.Init(env)
    {
      InitGood(env, true);
      InitTriples(env);
      this.env := env;
      var s := B.Init(env);
      entities, facts, relations, tasks := s.entities, s.facts, s.relations, s.tasks;
      index, log, now := s.index, s.log, s.now;
    }

    // ----- single statements -----

    /** The key finds the text, every other key what it found, and the entry is the newest. */
    method UpsertProjection(namespace: string, key: string, text: string)
      requires UniqueKeys(index)
      modifies this`index
      ensures UniqueKeys(index)
      ensures Projected(old(index), index, namespace, key, text)
      ensures |index| > 0 && index[0] == B.Entry(namespace, key, text)
      ensures index == B.PutEntry(old(index), B.Entry(namespace, key, text))
    {
      PutEntryUnique(index, B.Entry(namespace, key, text));
      PutProjects(index, B.Entry(namespace, key, text));
      index := B.PutEntry(index, B.Entry(namespace, key, text));
    }

    /** The row is the newest and only one of its id, its projection is found under it, and nothing else has changed. */
    method UpsertEntity(id: string, e: B.Entity)
      requires Valid()
      modifies this
      ensures Valid()
      ensures Wrote(old(entities), entities, B.Row(id, false, old(now), e))
      ensures Projected(old(index), index, "brain-entities", id, B.EntityText(e))
      ensures View() == B.UpsertEntity(old(View()), id, e)
    {
      KeepEntity(env, false, View(), id, e);
      PutWrites(entities, B.Row(id, false, now, e));
      entities := B.Put(entities, B.Row(id, false, now, e));
      UpsertProjection("brain-entities", id, B.EntityText(e));
      now := now + 1;
    }

    method UpsertFact(id: string, f: B.Fact)
      requires Valid()
      modifies this
      ensures Valid()
      ensures Wrote(old(facts), facts, B.Row(id, false, old(now), f))
      ensures Projected(old(index), index, "brain-facts", id, B.FactText(f))
      ensures View() == B.UpsertFact(old(View()), id, f)
    {
      KeepFact(env, false, View(), id, f);
      PutWrites(facts, B.Row(id, false, now, f));
      facts := B.Put(facts, B.Row(id, false, now, f));
      UpsertProjection("brain-facts", id, B.FactText(f));
      now := now + 1;
    }

    /** The relation is the newest, and the only one of its kind and endpoints; nothing else has changed. */
    method UpsertRelation(rel: B.Relation)
      requires Valid()
      modifies this
      ensures Valid()
      ensures Related(old(relations), relations, rel)
      ensures View() == B.UpsertRelation(env, old(View()), rel)
    {
      RelationWrites(env, View(), rel);
      var id := "relation:" + env.hash(rel.kind + ":" + rel.fromId + ":" + rel.toId);
      relations := [B.Row(id, false, now, rel)] + B.Keep(B.OtherTriple(rel), relations);
      now := now + 1;
    }

    /** The row is the newest and only one of its id, and both projections are found; the invariant
        holds as long as the task meets the floors. */
    method UpsertTask(id: string, t: B.Task)
      requires Valid()
      modifies this
      ensures TaskFloor(t) ==> Valid()
      ensures Wrote(old(tasks), tasks, B.Row(id, false, old(now), t))
      ensures TaskProjected(env, old(index), index, id, t)
      ensures View() == B.UpsertTask(env, old(View()), id, t)
    {
      if TaskFloor(t) {
        KeepTask(env, false, View(), id, t);
      }
      PutWrites(tasks, B.Row(id, false, now, t));
      TaskProjects(env, View(), id, t);
      tasks := B.Put(tasks, B.Row(id, false, now, t));
      UpsertProjection("brain-tasks", id, B.TaskText(env, t));
      UpsertProjection("brain-suggestions", "suggestion:" + id, t.summary + " " + t.priority);
      now := now + 1;
    }

    /** One log row per source reference, the newest. */
    method RecordIngest(ref: string, kind: string, fingerprint: string, target: string)
      requires Valid()
      modifies this`log, this`now
      ensures Valid()
      ensures log.Keys == old(log).Keys + {ref} && log[ref] == B.LogRow(kind, fingerprint, target, old(now))
      ensures forall r :: r in old(log) && r != ref ==> log[r] == old(log)[r]
      ensures View() == B.LogIngest(old(View()), ref, kind, fingerprint, target)
    {
      log := log[ref := B.LogRow(kind, fingerprint, target, now)];
      now := now + 1;
    }

    // ----- tasks -----

    /** `max_by`: the most similar row, the last of equals. */
    method FindSimilarTask(summary: string, scope: string) returns (found: Option<B.Row<B.Task>>)
      ensures found == B.FindSimilar(env, View(), summary, scope)
    {
      var rows := B.Listed(tasks, false);
      found := None;
      var i := |rows|;
      while i > 0
        invariant 0 <= i <= |rows|
        invariant found == B.Best(env, summary, scope, rows[i..])
      {
        i := i - 1;
        assert rows[i..][0] == rows[i] && rows[i..][1..] == rows[i + 1..];
        if B.Mergeable(env, summary, scope, rows[i]) {
          if found.None? || B.MergeScore(env, summary, found.value.body) < B.MergeScore(env, summary, rows[i].body) {
            found := Some(rows[i]);
          }
        }
      }
      assert rows[0..] == rows;
    }

    /** The task is written under the id of the most similar one, or under its hash. */
    method UpsertOrMergeTask(t: B.Task) returns (id: string)
      requires Valid()
      modifies this
      ensures TaskFloor(t) ==> Valid()
      ensures Wrote(old(tasks), tasks, B.Row(id, false, old(now), t))
      ensures id == B.MergeTarget(env, old(View()), t)
      ensures View() == B.MergeTask(env, old(View()), t)
    {
      var similar := FindSimilarTask(t.summary, t.scope);
      id := if similar.Some? then similar.value.id else B.HashedTaskId(env, t.summary, t.scope);
      UpsertTask(id, t);
    }

    /** The first listed task that is open to the tool's result. */
    method FindRelatedToolTask(target: string, summary: string) returns (found: Option<B.Row<B.Task>>)
      ensures found.None? ==> forall q: nat :: !AboutTool(env, View(), target, summary, q)
      ensures found.Some? ==> exists p: nat :: AboutTool(env, View(), target, summary, p) && found.value == tasks[p]
                                && forall q: nat :: q < p ==> !AboutTool(env, View(), target, summary, q)
      ensures found == B.FirstRelated(env, target, summary, B.Listed(tasks, false))
    {
      var rows := B.Listed(tasks, false);
      ghost var p := ToolTaskIs(env, View(), target, summary);
      var i := 0;
      while i < |rows|
        invariant 0 <= i <= |rows|
        invariant B.FirstRelated(env, target, summary, rows) == B.FirstRelated(env, target, summary, rows[i..])
      {
        assert rows[i..][0] == rows[i] && rows[i..][1..] == rows[i + 1..];
        if B.RelatedToTool(env, target, summary, rows[i].body) {
          return Some(rows[i]);
        }
        i := i + 1;
      }
      found := None;
    }

    // ----- ingestion -----

    method IngestContact(m: B.Message)
      requires Valid()
      modifies this
      ensures Valid()
      ensures View() == B.IngestContact(env, old(View()), m)
    {
      var scope, ref, contact := B.MessageScope(env, m), B.MessageRef(env, m), B.ContactId(env, m);
      UpsertEntity(contact, B.Entity("person", "contact", m.sender,
        "Observed through " + m.connector + " in channel " + m.channelId, scope, "[]", 0.58, 0.96, ref));
      UpsertRelation(B.Relation("knows", env.ownerId, contact, env.channelNote(m.connector, m.channelId), 0.92));
      UpsertRelation(B.Relation("mentioned_with", contact, env.workspaceId, env.sourceNote(ref), 0.65));
      UpsertFact(B.MessageFactId(env, m), B.Fact(contact, m.body, scope, 0.62, 0.84, ref));
    }

    method IngestArtifact(m: B.Message, artifact: string) returns (id: string)
      requires Valid()
      modifies this
      ensures Valid()
      ensures View() == B.IngestArtifact(env, old(View()), m, artifact)
      ensures id == B.ArtifactId(env, artifact)
    {
      id := B.ArtifactId(env, artifact);
      UpsertEntity(id, B.Entity("artifact", "reference", artifact,
        "Referenced in inbound " + m.connector + " message", B.MessageScope(env, m), "[]", 0.56, 0.85, B.MessageRef(env, m)));
      UpsertRelation(B.Relation("mentioned_with", B.ContactId(env, m), id, env.sourceNote(B.MessageRef(env, m)), 0.74));
    }

    method IngestArtifacts(m: B.Message, artifacts: seq<string>) returns (linked: seq<string>)
      requires Valid()
      modifies this
      ensures Valid()
      ensures View() == B.IngestArtifacts(env, old(View()), m, artifacts)
      ensures linked == B.ArtifactIds(env, artifacts)
    {
      linked := [];
      ghost var s0 := View();
      for i := 0 to |artifacts|
        invariant Valid()
        invariant View() == B.IngestArtifacts(env, s0, m, artifacts[..i])
        invariant linked == B.ArtifactIds(env, artifacts[..i])
      {
        ArtifactsNext(env, s0, m, artifacts, i);
        var id := IngestArtifact(m, artifacts[i]);
        linked := linked + [id];
      }
      assert artifacts[..|artifacts|] == artifacts;
    }

    method IngestEnvironment(m: B.Message, mention: (string, string)) returns (id: string)
      requires Valid()
      modifies this
      ensures Valid()
      ensures View() == B.IngestEnvironment(env, old(View()), m, mention)
      ensures id == B.EnvironmentId(env, mention)
    {
      id := B.EnvironmentId(env, mention);
      UpsertEntity(id, B.Entity("environment", mention.0, mention.1,
        "Mentioned " + mention.0 + " context", B.MessageScope(env, m), "[]", 0.52, 0.78, B.MessageRef(env, m)));
      UpsertRelation(B.Relation("mentioned_with", B.ContactId(env, m), id, env.sourceNote(B.MessageRef(env, m)), 0.7));
    }

    method IngestEnvironments(m: B.Message, mentions: seq<(string, string)>) returns (linked: seq<string>)
      requires Valid()
      modifies this
      ensures Valid()
      ensures View() == B.IngestEnvironments(env, old(View()), m, mentions)
      ensures linked == B.EnvironmentIds(env, mentions)
    {
      linked := [];
      ghost var s0 := View();
      for i := 0 to |mentions|
        invariant Valid()
        invariant View() == B.IngestEnvironments(env, s0, m, mentions[..i])
        invariant linked == B.EnvironmentIds(env, mentions[..i])
      {
        EnvironmentsNext(env, s0, m, mentions, i);
        var id := IngestEnvironment(m, mentions[i]);
        linked := linked + [id];
      }
      assert mentions[..|mentions|] == mentions;
    }

    method IngestTask(m: B.Message, summary: string, linked: seq<string>) returns (id: string)
      requires Valid() && linked == B.LinkedIds(env, m)
      modifies this
      ensures Valid()
      ensures id == B.MergeTarget(env, old(View()), B.MessageTask(env, old(now), m, summary))
      ensures View() == B.IngestTask(env, old(View()), m, summary)
    {
      var ref := B.MessageRef(env, m);
      id := UpsertOrMergeTask(B.Task(B.PreferredTitle(summary, summary), summary, "open", env.priorityIn(m.body),
        B.DueAt(env, now, m.body), B.MessageScope(env, m), env.encodeLinks(linked), 0.84, 0.88, ref));
      UpsertRelation(B.Relation("assigned_to", id, env.ownerId, env.sourceNote(ref), 0.86));
      UpsertRelation(B.Relation("about", id, B.ContactId(env, m), env.sourceNote(ref), 0.78));
    }

    /** The sender and what the message mentions: everything before its task. */
    method IngestMentions(m: B.Message) returns (linked: seq<string>)
      requires Valid()
      modifies this
      ensures Valid()
      ensures linked == B.LinkedIds(env, m)
      ensures View() == B.BeforeTask(env, old(View()), m)
    {
      IngestContact(m);
      var artifacts := IngestArtifacts(m, env.artifactsIn(m.body));
      var mentions := IngestEnvironments(m, env.environmentsIn(m.body));
      linked := [B.ContactId(env, m)] + artifacts + mentions;
    }

    method IngestRows(m: B.Message) returns (ids: seq<string>)
      requires Valid()
      modifies this
      ensures Valid()
      ensures ids == B.IngestedIds(env, old(View()), m)
      ensures View() == B.IngestRows(env, old(View()), m)
    {
      ids := IngestMentions(m);
      var found := env.taskIn(m.body);
      if found.Some? {
        var id := IngestTask(m, found.value, ids);
        ids := ids + [id];
      }
    }

    method IngestMessage(m: B.Message)
      requires Valid()
      modifies this
      ensures Valid()
      ensures View() == if env.enabled && env.autoMessages then B.IngestMessage(env, old(View()), m) else old(View())
      ensures env.enabled && env.autoMessages && env.taskIn(m.body).Some? ==>
                && |tasks| > 0 && !tasks[0].archived && tasks[0].body.status == "open"
                && tasks[0].body.summary == env.taskIn(m.body).value && tasks[0].body.priority == env.priorityIn(m.body)
                && tasks[0].body.dueAt == DueFrom(env, tasks[0].updatedAt, m.body)
    {
      if env.enabled && env.autoMessages && env.taskIn(m.body).Some? {
        MentionedAre(env, m);
        IngestedTaskIs(env, View(), m, B.ArtifactIds(env, env.artifactsIn(m.body)), B.EnvironmentIds(env, env.environmentsIn(m.body)));
      }
      if !env.enabled || !env.autoMessages {
        return;
      }
      var ids := IngestRows(m);
      RecordIngest(B.MessageRef(env, m), "message", Fingerprint(env.letters, m.body), env.targetNote("linked_ids", ids));
    }

    method IngestAssistantReply(m: B.Message, reply: string)
      requires Valid()
      modifies this
      ensures Valid()
      ensures View() == if env.enabled && env.autoCommitments then B.IngestReply(env, old(View()), m, reply) else old(View())
    {
      if !env.enabled || !env.autoCommitments {
        return;
      }
      var commitment := env.commitmentIn(reply);
      if commitment.None? {
        return;
      }
      var summary, ref := commitment.value, B.ReplyRef(env, m, reply);
      var id := UpsertOrMergeTask(B.Task(B.PreferredTitle(summary, reply), summary, "in_progress", env.priorityIn(reply),
        B.DueAt(env, now, reply), B.MessageScope(env, m), env.encodeLinks([env.ownerId]), 0.74, 0.72, ref));
      UpsertRelation(B.Relation("assigned_to", id, env.ownerId, env.sourceNote(ref), 0.78));
      RecordIngest(ref, "assistant", Fingerprint(env.letters, reply), env.targetNote("task_id", [id]));
    }

    method IngestToolFacts(target: string, priority: string, summary: string, data: string)
      requires Valid()
      modifies this
      ensures Valid()
      ensures View() == B.ToolFacts(env, old(View()), target, priority, summary, data)
    {
      var ref, artifact := B.ToolRef(env, target, summary, data), B.ToolArtifactId(env, target);
      var scope, result := env.toolScope(target, priority), B.NonEmptyOr(summary, target);
      UpsertEntity(artifact, B.Entity("artifact", "tool-result", target,
        "Successful tool execution: " + result, scope, "[]", 0.68, 0.92, ref));
      UpsertFact("fact:" + artifact + ":" + env.hash(ref),
        B.Fact(artifact, B.Truncate(result + " " + data, 400), scope, 0.7, 0.9, ref));
      UpsertFact("fact:" + env.workspaceId + ":" + env.hash(target),
        B.Fact(env.workspaceId, "Tool " + target + " succeeded with " + result, scope, 0.58, 0.86, ref));
    }

    /** A successful tool result: facts, and the first related task done. */
    method IngestToolResult(target: string, priority: string, success: bool, summary: string, data: string)
      requires Valid()
      modifies this
      ensures Valid()
      ensures View() == if env.enabled && env.autoTools && success then B.IngestTool(env, old(View()), target, priority, summary, data)
                        else old(View())
    {
      if !env.enabled || !env.autoTools || !success {
        return;
      }
      IngestToolFacts(target, priority, summary, data);
      var ref := B.ToolRef(env, target, summary, data);
      var found := FindRelatedToolTask(target, B.NonEmptyOr(summary, target));
      if found.Some? {
        UpsertTask(found.value.id, found.value.body.(status := "done", confidence := 0.96, sourceRef := ref));
      }
      RecordIngest(ref, "tool", Fingerprint(env.letters, summary + " " + data),
        env.targetNote("artifact_id", [B.ToolArtifactId(env, target)]));
    }

    // ----- direct operations -----

    method LinkRecord(id: string, kind: string, links: seq<string>, ref: string)
      requires Valid()
      modifies this
      ensures Valid()
      ensures View() == B.LinkRecord(env, old(View()), id, kind, links, ref)
    {
      ghost var before := View();
      for i := 0 to |links|
        invariant Valid()
        invariant View() == B.LinkRecord(env, before, id, kind, links[..i], ref)
      {
        LinksNext(env, before, id, kind, links, ref, i);
        UpsertRelation(B.Relation(if kind == "task" then "about" else "mentioned_with", id, links[i], env.sourceNote(ref), 0.74));
      }
      assert links[..|links|] == links;
    }

    method RememberEntity(q: B.RememberRequest)
      requires Valid()
      modifies this
      ensures Valid()
      ensures View() == B.RememberEntity(env, old(View()), q)
    {
      var scope, links := if q.scope == "" then "{}" else q.scope, if q.links == "" then "[]" else q.links;
      var id, ref := B.RememberedEntityId(env, q), B.RememberRef(env, q);
      UpsertEntity(id, B.Entity(q.kind, q.subtype, B.PreferredTitle(q.title, q.content), q.content,
        scope, links, B.Max(q.importance, 0.4), 0.95, ref));
      UpsertFact("fact:" + id + ":" + env.hash(ref + ":" + q.content),
        B.Fact(id, q.content, scope, B.Max(q.importance, 0.35), 0.9, ref));
      LinkRecord(id, q.kind, env.parseLinks(links), ref);
    }

    method RememberTask(q: B.RememberRequest) returns (id: string)
      requires Valid()
      modifies this
      ensures Valid()
      ensures id == B.MergeTarget(env, old(View()), B.RememberedTask(env, old(now), q))
      ensures View() == B.MergeTask(env, old(View()), B.RememberedTask(env, old(now), q))
    {
      id := UpsertOrMergeTask(B.Task(B.PreferredTitle(q.title, q.content), B.NonEmptyOr(q.content, q.title), "open",
        env.priorityIn(q.content), B.DueAt(env, now, q.content), if q.scope == "" then "{}" else q.scope, q.links,
        B.Max(q.importance, 0.45), 0.92, B.DefaultSourceRef(env, B.RememberRef(env, q), q.title, "task")));
    }

    /** The id of the record, or none: a brain switched off has done nothing, a rejected request only
        applied retention. */
    method Remember(q: B.RememberRequest) returns (id: Option<string>)
      requires Valid()
      modifies this
      ensures Valid()
      ensures View() == if env.enabled then B.Remember(env, old(View()), q) else old(View())
      ensures id == if env.enabled && Taken(q) then Some(B.RememberedId(env, B.Retain(env, old(View())), q)) else None
    {
      if !env.enabled {
        return None;
      }
      ApplyRetention();
      if q.kind == "task" {
        var task := RememberTask(q);
        RecordIngest(B.RememberRef(env, q), "remember", B.RememberDigest(env, q), env.targetNote("task_id", [task]));
        return Some(task);
      }
      if B.RememberRejects(q) {
        return None;
      }
      RememberEntity(q);
      var entity := B.RememberedEntityId(env, q);
      RecordIngest(B.RememberRef(env, q), "remember", B.RememberDigest(env, q), env.targetNote("entity_id", [entity]));
      id := Some(entity);
    }

    /** False when the brain is off or the status is not supported; then nothing has changed. */
    method UpdateTaskRecord(q: B.UpdateRequest) returns (accepted: bool)
      requires Valid()
      modifies this
      ensures Valid()
      ensures accepted <==> env.enabled && q.status in {"open", "in_progress", "blocked", "done", "cancelled"}
      ensures View() == if accepted then B.UpdateTask(env, old(View()), q) else old(View())
    {
      if !env.enabled || !B.ValidStatus(q.status) {
        return false;
      }
      var id := if q.taskId == "" then "task:" + env.hash(q.summary) else q.taskId;
      var existing := B.Find(B.Listed(tasks, true), id);
      var scope, links, known, due := "{}", "[]", id, None;
      if existing.Some? {
        var t := existing.value.body;
        scope, links, known, due := t.scope, t.links, t.summary, t.dueAt;
      }
      if q.links != "" {
        links := q.links;
      }
      if q.dueAt.Some? {
        due := q.dueAt;
      }
      var summary := B.NonEmptyOr(q.summary, known);
      var ref := B.DefaultSourceRef(env, q.sourceRef, id, "task-update");
      UpsertTask(id, B.Task(B.PreferredTitle(summary, summary), summary, q.status,
        if q.priority == "" then "normal" else q.priority, due, scope, links, 0.8, 0.95, ref));
      LinkRecord(id, "task", env.parseLinks(links), ref);
      accepted := true;
    }

    /** Exactly the faded rows of each table are archived; none is lost or changed otherwise. */
    method ApplyRetention()
      requires Valid()
      modifies this
      ensures Valid()
      ensures Retained(env, old(View()), View())
      ensures View() == B.Retain(env, old(View()))
    {
      ghost var before := View();
      var cutoff := B.Cutoff(env, now);
      entities := B.Archive(B.FadedEntity(cutoff), entities, now);
      facts := B.Archive(B.FadedFact(cutoff), facts, now + 1);
      tasks := B.Archive(B.FadedTask(cutoff), tasks, now + 2);
      now := now + 3;
      ghost var after := B.Retain(env, before);
      assert entities == after.entities && facts == after.facts && tasks == after.tasks;
      assert View() == after;
      RetentionIs(env, before);
    }

    /** The id finds nothing in any namespace afterwards; every other key finds what it found. */
    method DeleteProjections(id: string)
      requires UniqueKeys(index)
      modifies this`index
      ensures UniqueKeys(index)
      ensures Dropped(old(index), index, id)
      ensures index == B.DropProjections(old(index), id)
    {
      DropUnique(index, id);
      ProjectionsDrop(index, id);
      index := B.DropEntry(index, "brain-entities", id);
      index := B.DropEntry(index, "brain-facts", id);
      index := B.DropEntry(index, "brain-tasks", id);
      index := B.DropEntry(index, "brain-suggestions", "suggestion:" + id);
    }

    /** Exactly the rows of the deletion are gone, and the id's index entries; a complete index stays
        complete exactly when the kind fits the id. */
    method ForgetDelete(target: B.Target, id: string)
      requires Valid()
      modifies this
      ensures Valid()
      ensures ForgottenDeleted(old(View()), View(), target, id) && Dropped(old(index), index, id)
      ensures old(Indexed(env, View())) ==> (Indexed(env, View()) <==> Fits(old(View()), target, id))
      ensures View() == B.ForgetDelete(old(View()), target, id)
    {
      ghost var before := View();
      match target {
        case OfEntity =>
          facts := B.Keep(B.Not(B.OwnedBy(id)), facts);
          relations := B.Keep(B.Not(B.Touching(id)), relations);
          entities := B.Keep(B.OtherId(id), entities);
        case OfTask =>
          tasks := B.Keep(B.OtherId(id), tasks);
          relations := B.Keep(B.Not(B.Touching(id)), relations);
        case OfFact => facts := B.Keep(B.OtherId(id), facts);
        case OfRelation => relations := B.Keep(B.OtherId(id), relations);
      }
      DeleteProjections(id);
      now := now + 1;
      assert View() == B.ForgetDelete(before, target, id);
      DeletionIs(env, before, target, id);
    }

    /** Exactly the named row is archived, and with an entity its facts and relations. */
    method ForgetArchive(target: B.Target, id: string)
      requires Valid()
      modifies this
      ensures Valid()
      ensures ForgottenArchived(old(View()), View(), target, id)
      ensures View() == B.ForgetArchive(old(View()), target, id)
    {
      ghost var before := View();
      match target {
        case OfEntity =>
          entities := B.Archive(B.IsId(id), entities, now);
          facts := B.Archive(B.OwnedBy(id), facts, now + 1);
          relations := B.Archive(B.Touching(id), relations, now + 2);
          now := now + 2;
        case OfTask => tasks := B.Archive(B.IsId(id), tasks, now);
        case OfFact => facts := B.Archive(B.IsId(id), facts, now);
        case OfRelation => relations := B.Archive(B.IsId(id), relations, now);
      }
      now := now + 1;
      assert View() == B.ForgetArchive(before, target, id);
      ArchivingIs(env, before, target, id);
    }

    /** False when the brain is off, or for an unsupported kind or mode; then nothing has changed. */
    method Forget(kind: string, id: string, mode: string) returns (forgotten: bool)
      requires Valid()
      modifies this
      ensures Valid()
      ensures forgotten <==> && env.enabled && mode in {"", "archive", "delete"}
                             && kind in {"person", "environment", "artifact", "", "entity", "task", "fact", "relation"}
      ensures View() == if forgotten then B.Forget(old(View()), kind, id, mode) else old(View())
    {
      var target := B.ForgetTarget(kind);
      if !env.enabled || target.None? {
        return false;
      }
      if mode == "" || mode == "archive" {
        ForgetArchive(target.value, id);
        return true;
      }
      if mode == "delete" {
        ForgetDelete(target.value, id);
        return true;
      }
      forgotten := false;
    }

    // ----- recall and suggestions -----

    /** Recall: retention, ranked hits, four bounded stages; none when the brain is off. */
    method Recall(query: string, scope: string, limit: nat, includeArchived: bool)
      returns (r: Option<RecallResult>, ghost selected: set<string>)
      requires Valid()
      modifies this
      ensures Valid()
      ensures r.Some? <==> env.enabled
      ensures View() == if env.enabled then B.Retain(env, old(View())) else old(View())
      ensures r.Some? ==> Recalled(env, View(), query, scope, if limit == 0 then 1 else limit, includeArchived, r.value, selected)
    {
      selected := {};
      if !env.enabled {
        return None, selected;
      }
      ApplyRetention();
      var max := B.AtLeastOne(limit);
      var es, fs := B.Listed(entities, includeArchived), B.Listed(facts, includeArchived);
      var ts, rs := B.Listed(tasks, false), B.Listed(relations, includeArchived);
      var entityHits := B.QueryMemory(env, index, "brain-entities", query, max * 3);
      var factHits := B.QueryMemory(env, index, "brain-facts", query, max * 3);
      var taskHits := B.QueryMemory(env, index, "brain-tasks", query, max * 3);
      HitsDistinct(env, index, "brain-entities", query, max * 3);
      var direct, chosen := MatchEntities(env, es, entityHits, scope, max);
      var found, got, owners := MatchFacts(env, es, fs, factHits, scope, max, direct, chosen);
      var work, ids := MatchTasks(env, ts, taskHits, scope, max, owners);
      var expanded := ExpandRelations(es, rs, ids, max, got);
      r := Some(RecallResult(expanded, found, B.Take(B.Keep(SelectsRow(ids), rs), max * 2), work,
                             RecallSummary(|expanded|, |found|, |work|)));
      selected := ids;
    }

    method IndexSuggestions(suggestions: seq<B.Suggestion>)
      requires UniqueKeys(index)
      modifies this`index
      ensures UniqueKeys(index)
      ensures index == B.IndexSuggestions(env, old(index), suggestions)
    {
      ghost var before := index;
      for i := 0 to |suggestions|
        invariant UniqueKeys(index)
        invariant index == B.IndexSuggestions(env, before, suggestions[..i])
      {
        var g := suggestions[i];
        assert suggestions[..i + 1][..i] == suggestions[..i];
        UpsertProjection("brain-suggestions", g.id, g.summary + " " + g.reason + " " + g.context);
      }
      assert suggestions[..|suggestions|] == suggestions;
    }

    /** The stable top list of a store that retention has just passed over, and one projection each. */
    method SuggestNow(scope: string, limit: nat) returns (ranked: seq<B.Suggestion>)
      requires Valid()
      modifies this`index, this`now
      ensures Valid()
      ensures ranked == B.Suggestions(env, old(View()), scope, limit) && AreBestOpen(env, old(View()), scope, limit, ranked)
      ensures View() == old(View()).(index := B.IndexSuggestions(env, old(index), ranked), now := old(now) + 1)
    {
      var s := B.Store(entities, facts, relations, tasks, index, log, now);
      assert s == View();
      ranked := RankTasks(env, s, scope, limit);
      ghost var at := SuggestsTheBest(env, s, scope, limit);
      assert AreBestOpen(env, s, scope, limit, ranked);
      IndexSuggestions(ranked);
      now := now + 1;
      assert View() == s.(index := index, now := now);
    }

    /** Suggest: retention, then the list; none when the brain is off. */
    method Suggest(scope: string, limit: nat) returns (suggestions: Option<seq<B.Suggestion>>)
      requires Valid()
      modifies this
      ensures Valid()
      ensures suggestions == if env.enabled then Some(B.Suggestions(env, B.Retain(env, old(View())), scope, limit)) else None
      ensures suggestions.Some? ==> AreBestOpen(env, B.Retain(env, old(View())), scope, limit, suggestions.value)
      ensures View() == if env.enabled then B.Suggest(env, old(View()), scope, limit) else old(View())
    {
      if !env.enabled {
        return None;
      }
      ApplyRetention();
      var ranked := SuggestNow(scope, limit);
      suggestions := Some(ranked);
    }
  }

  lemma DeletionIs(env: B.Env, s: B.Store, target: B.Target, id: string)
    requires Sound(s) && UniqueTriples(s.relations)
    ensures var s' := B.ForgetDelete(s, target, id);
            && Sound(s') && UniqueTriples(s'.relations)
            && ForgottenDeleted(s, s', target, id) && Dropped(s.index, s'.index, id)
            && (Indexed(env, s) ==> (Indexed(env, s') <==> Fits(s, target, id)))
  {
    KeepDelete(s, target, id);
    ForgetTriples(s, target, id);
    ForgetDeletes(s, target, id);
    ProjectionsDrop(s.index, id);
    if Indexed(env, s) {
      DeleteKeepsIndexExactlyWhen(env, s, target, id);
    }
  }

  lemma ArchivingIs(env: B.Env, s: B.Store, target: B.Target, id: string)
    requires Sound(s) && UniqueTriples(s.relations)
    ensures var s' := B.ForgetArchive(s, target, id);
            Sound(s') && UniqueTriples(s'.relations) && ForgottenArchived(s, s', target, id)
  {
    KeepForgetArchive(env, false, s, target, id);
    ForgetTriples(s, target, id);
    ForgetArchives(s, target, id);
  }

  lemma RetentionIs(env: B.Env, s: B.Store)
    requires Sound(s) && UniqueTriples(s.relations)
    ensures var s' := B.Retain(env, s);
            Sound(s') && UniqueTriples(s'.relations) && Retained(env, s, s')
  {
    KeepRetain(env, false, s);
    RetainRetains(env, s);
  }

  method RankTasks(env: B.Env, s: B.Store, scope: string, limit: nat) returns (suggestions: seq<B.Suggestion>)
    ensures suggestions == B.Suggestions(env, s, scope, limit)
  {
    var rows := B.Eligible(env, s, scope);
    var order := TopK(B.Scores(env, s.now, rows), B.AtLeastOne(limit));
    suggestions := [];
    for i := 0 to |order|
      invariant suggestions == B.Suggestions(env, s, scope, limit)[..i]
    {
      suggestions := suggestions + [B.MakeSuggestion(env, s, rows[order[i]])];
    }
    assert B.Suggestions(env, s, scope, limit)[..|order|] == B.Suggestions(env, s, scope, limit);
  }
}
