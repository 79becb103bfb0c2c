/** The invariant carried through every operation and over whole runs. */
module BrainRuns {
  import opened Options
  import opened Brain
  import opened BrainInvariant

  lemma ListedMembers<T>(rows: seq<Row<T>>, includeArchived: bool)
    ensures forall i :: 0 <= i < |Listed(rows, includeArchived)| ==>
              Listed(rows, includeArchived)[i] in rows && (Listed(rows, includeArchived)[i].archived ==> includeArchived)
    ensures forall r :: r in Listed(rows, includeArchived) ==> r in rows && HasId(rows, r.id)
  {
    KeepMembers(Visible(includeArchived), Take(rows, WINDOW));
  }

  // ----- ingestion -----

  lemma KeepContact(env: Env, full: bool, s: Store, m: Message)
    requires Good(env, full, s)
    ensures Good(env, full, IngestContact(env, s, m))
  {
    var scope, ref, contact := MessageScope(env, m), MessageRef(env, m), ContactId(env, m);
    var e := Entity("person", "contact", m.sender,
      "Observed through " + m.connector + " in channel " + m.channelId, scope, "[]", 0.58, 0.96, ref);
    KeepEntity(env, full, s, contact, e);
    var s1 := UpsertEntity(s, contact, e);
    var s2 := UpsertRelation(env, s1, Relation("knows", env.ownerId, contact, env.channelNote(m.connector, m.channelId), 0.92));
    var s3 := UpsertRelation(env, s2, Relation("mentioned_with", contact, env.workspaceId, env.sourceNote(ref), 0.65));
    KeepElsewhere(env, full, s1, s3);
    KeepFact(env, full, s3, MessageFactId(env, m), Fact(contact, m.body, scope, 0.62, 0.84, ref));
  }

  lemma {:induction false} KeepArtifacts(env: Env, full: bool, s: Store, m: Message, artifacts: seq<string>)
    requires Good(env, full, s)
    ensures Good(env, full, IngestArtifacts(env, s, m, artifacts))
  {
    if artifacts != [] {
      var n := |artifacts| - 1;
      KeepArtifacts(env, full, s, m, artifacts[..n]);
      var before := IngestArtifacts(env, s, m, artifacts[..n]);
      var e := Entity("artifact", "reference", artifacts[n], "Referenced in inbound " + m.connector + " message",
                      MessageScope(env, m), "[]", 0.56, 0.85, MessageRef(env, m));
      KeepEntity(env, full, before, ArtifactId(env, artifacts[n]), e);
      KeepElsewhere(env, full, UpsertEntity(before, ArtifactId(env, artifacts[n]), e), IngestArtifacts(env, s, m, artifacts));
    }
  }

  lemma {:induction false} KeepEnvironments(env: Env, full: bool, s: Store, m: Message, mentions: seq<(string, string)>)
    requires Good(env, full, s)
    ensures Good(env, full, IngestEnvironments(env, s, m, mentions))
  {
    if mentions != [] {
      var n := |mentions| - 1;
      KeepEnvironments(env, full, s, m, mentions[..n]);
      var before := IngestEnvironments(env, s, m, mentions[..n]);
      var e := Entity("environment", mentions[n].0, mentions[n].1, "Mentioned " + mentions[n].0 + " context",
                      MessageScope(env, m), "[]", 0.52, 0.78, MessageRef(env, m));
      KeepEntity(env, full, before, EnvironmentId(env, mentions[n]), e);
      KeepElsewhere(env, full, UpsertEntity(before, EnvironmentId(env, mentions[n]), e),
                    IngestEnvironments(env, s, m, mentions));
    }
  }

  lemma KeepIngest(env: Env, full: bool, s: Store, m: Message)
    requires Good(env, full, s)
    ensures Good(env, full, IngestMessage(env, s, m))
  {
    KeepContact(env, full, s, m);
    var s1 := IngestContact(env, s, m);
    KeepArtifacts(env, full, s1, m, env.artifactsIn(m.body));
    var s2 := IngestArtifacts(env, s1, m, env.artifactsIn(m.body));
    KeepEnvironments(env, full, s2, m, env.environmentsIn(m.body));
    var s3 := IngestEnvironments(env, s2, m, env.environmentsIn(m.body));
    if env.taskIn(m.body).Some? {
      var t := MessageTask(env, s3.now, m, env.taskIn(m.body).value);
      KeepTask(env, full, s3, MergeTarget(env, s3, t), t);
      KeepElsewhere(env, full, MergeTask(env, s3, t), IngestRows(env, s, m));
    }
    KeepElsewhere(env, full, IngestRows(env, s, m), IngestMessage(env, s, m));
  }

  lemma KeepReply(env: Env, full: bool, s: Store, m: Message, reply: string)
    requires Good(env, full, s)
    ensures Good(env, full, IngestReply(env, s, m, reply))
  {
    if env.commitmentIn(reply).Some? {
      var t := ReplyTask(env, s.now, m, reply, env.commitmentIn(reply).value);
      KeepTask(env, full, s, MergeTarget(env, s, t), t);
      KeepElsewhere(env, full, MergeTask(env, s, t), IngestReply(env, s, m, reply));
    }
  }

  lemma {:induction false} FirstRelatedMember(env: Env, target: string, summary: string, rows: seq<Row<Task>>)
    ensures var found := FirstRelated(env, target, summary, rows);
            found.Some? ==> exists i :: 0 <= i < |rows| && rows[i] == found.value
  {
    if rows != [] && !RelatedToTool(env, target, summary, rows[0].body) {
      FirstRelatedMember(env, target, summary, rows[1..]);
      var found := FirstRelated(env, target, summary, rows[1..]);
      if found.Some? {
        var i :| 0 <= i < |rows[1..]| && rows[1..][i] == found.value;
        assert rows[i + 1] == found.value;
      }
    }
  }

  lemma KeepToolFacts(env: Env, full: bool, s: Store, target: string, priority: string, summary: string, data: string)
    requires Good(env, full, s)
    ensures Good(env, full, ToolFacts(env, s, target, priority, summary, data))
  {
    var ref, artifact := ToolRef(env, target, summary, data), ToolArtifactId(env, target);
    var scope, result := env.toolScope(target, priority), NonEmptyOr(summary, target);
    var e := Entity("artifact", "tool-result", target, "Successful tool execution: " + result, scope, "[]", 0.68, 0.92, ref);
    var f := Fact(artifact, Truncate(result + " " + data, 400), scope, 0.7, 0.9, ref);
    KeepEntity(env, full, s, artifact, e);
    var s1 := UpsertEntity(s, artifact, e);
    KeepFact(env, full, s1, "fact:" + artifact + ":" + env.hash(ref), f);
    var s2 := UpsertFact(s1, "fact:" + artifact + ":" + env.hash(ref), f);
    KeepFact(env, full, s2, "fact:" + env.workspaceId + ":" + env.hash(target),
      Fact(env.workspaceId, "Tool " + target + " succeeded with " + result, scope, 0.58, 0.86, ref));
  }

  lemma KeepTool(env: Env, full: bool, s: Store, target: string, priority: string, summary: string, data: string)
    requires Good(env, full, s)
    ensures Good(env, full, IngestTool(env, s, target, priority, summary, data))
  {
    var s3 := ToolFacts(env, s, target, priority, summary, data);
    KeepToolFacts(env, full, s, target, priority, summary, data);
    var result, rows := NonEmptyOr(summary, target), Listed(s3.tasks, false);
    var found := FirstRelated(env, target, result, rows);
    FirstRelatedMember(env, target, result, rows);
    if found.Some? {
      ListedMembers(s3.tasks, false);
      assert found.value in s3.tasks;
      var ref := ToolRef(env, target, summary, data);
      KeepTask(env, full, s3, found.value.id, found.value.body.(status := "done", confidence := 0.96, sourceRef := ref));
    }
    KeepElsewhere(env, full, ToolRows(env, s, target, priority, summary, data), IngestTool(env, s, target, priority, summary, data));
  }

  // ----- direct operations -----

  lemma {:induction false} KeepLinks(env: Env, full: bool, s: Store, id: string, kind: string, links: seq<string>, ref: string)
    requires Good(env, full, s)
    ensures Good(env, full, LinkRecord(env, s, id, kind, links, ref))
  {
    if links != [] {
      var n := |links| - 1;
      KeepLinks(env, full, s, id, kind, links[..n], ref);
      KeepElsewhere(env, full, LinkRecord(env, s, id, kind, links[..n], ref), LinkRecord(env, s, id, kind, links, ref));
    }
  }

  lemma KeepRememberEntity(env: Env, full: bool, s: Store, q: RememberRequest)
    requires Good(env, full, s)
    ensures Good(env, full, RememberEntity(env, s, q))
  {
    var scope, links := if q.scope == "" then "{}" else q.scope, if q.links == "" then "[]" else q.links;
    var id, ref := RememberedEntityId(env, q), RememberRef(env, q);
    var e := Entity(q.kind, q.subtype, PreferredTitle(q.title, q.content), q.content,
                    scope, links, Max(q.importance, 0.4), 0.95, ref);
    var f := Fact(id, q.content, scope, Max(q.importance, 0.35), 0.9, ref);
    var factId := "fact:" + id + ":" + env.hash(ref + ":" + q.content);
    KeepEntity(env, full, s, id, e);
    KeepFact(env, full, UpsertEntity(s, id, e), factId, f);
    KeepLinks(env, full, UpsertFact(UpsertEntity(s, id, e), factId, f), id, q.kind, env.parseLinks(links), ref);
  }

  lemma KeepRemember(env: Env, full: bool, s: Store, q: RememberRequest)
    requires Good(env, full, s)
    ensures Good(env, full, Remember(env, s, q))
  {
    KeepRetain(env, full, s);
    var s1 := Retain(env, s);
    if !RememberRejects(q) {
      if q.kind == "task" {
        var t := RememberedTask(env, s1.now, q);
        KeepTask(env, full, s1, MergeTarget(env, s1, t), t);
        KeepElsewhere(env, full, MergeTask(env, s1, t), Remember(env, s, q));
      } else {
        KeepRememberEntity(env, full, s1, q);
        KeepElsewhere(env, full, RememberEntity(env, s1, q), Remember(env, s, q));
      }
    }
  }

  lemma KeepUpdate(env: Env, full: bool, s: Store, q: UpdateRequest)
    requires Good(env, full, s)
    ensures Good(env, full, UpdateTask(env, s, q))
  {
    if ValidStatus(q.status) {
      var id := if q.taskId == "" then "task:" + env.hash(q.summary) else q.taskId;
      var existing := Find(Listed(s.tasks, true), id);
      var scope := if existing.Some? then existing.value.body.scope else "{}";
      var links := if q.links != "" then q.links else if existing.Some? then existing.value.body.links else "[]";
      var summary := NonEmptyOr(q.summary, if existing.Some? then existing.value.body.summary else id);
      var due := if q.dueAt.Some? then q.dueAt else if existing.Some? then existing.value.body.dueAt else None;
      var ref := DefaultSourceRef(env, q.sourceRef, id, "task-update");
      var t := Task(PreferredTitle(summary, summary), summary, q.status,
        if q.priority == "" then "normal" else q.priority, due, scope, links, 0.8, 0.95, ref);
      KeepTask(env, full, s, id, t);
      KeepLinks(env, full, UpsertTask(env, s, id, t), id, "task", env.parseLinks(links), ref);
    }
  }

  lemma KeepForgetArchive(env: Env, full: bool, s: Store, target: Target, id: string)
    requires Good(env, full, s)
    ensures Good(env, full, ForgetArchive(s, target, id))
  {
    match target
    case OfEntity =>
      ArchiveKeeps(IsId(id), s.entities, s.now);
      ArchiveKeeps(OwnedBy(id), s.facts, s.now + 1);
      KeepBodies(env, full, s, ForgetArchive(s, target, id));
    case OfTask => ArchiveKeeps(IsId(id), s.tasks, s.now); KeepBodies(env, full, s, ForgetArchive(s, target, id));
    case OfFact => ArchiveKeeps(IsId(id), s.facts, s.now); KeepBodies(env, full, s, ForgetArchive(s, target, id));
    case OfRelation => KeepElsewhere(env, full, s, ForgetArchive(s, target, id));
  }

  predicate HasId<T>(rows: seq<Row<T>>, id: string) {
    exists i :: 0 <= i < |rows| && rows[i].id == id
  }

  /** No row that the deletion leaves behind carries the deleted id. */
  ghost predicate Fits(s: Store, target: Target, id: string) {
    match target
    case OfEntity =>
      && (forall i :: 0 <= i < |s.facts| ==> s.facts[i].id == id ==> s.facts[i].body.entityId == id)
      && !HasId(s.tasks, id)
    case OfTask => !HasId(s.entities, id) && !HasId(s.facts, id)
    case OfFact => !HasId(s.entities, id) && !HasId(s.tasks, id)
    case OfRelation => !HasId(s.entities, id) && !HasId(s.facts, id) && !HasId(s.tasks, id)
  }

  ghost predicate NoRow(s: Store, id: string) {
    !HasId(s.entities, id) && !HasId(s.facts, id) && !HasId(s.tasks, id)
  }

  /** The rows a deletion leaves, before the index entries are dropped. */
  lemma DeletedRows(s: Store, target: Target, id: string)
    requires Sound(s)
    ensures var s' := ForgetDelete(s, target, id);
            && UniqueIds(s'.entities) && UniqueIds(s'.facts) && UniqueIds(s'.tasks)
            && SameBodies(s.entities, s'.entities) && SameBodies(s.facts, s'.facts) && SameBodies(s.tasks, s'.tasks)
            && (Fits(s, target, id) <==> NoRow(s', id))
  {
    match target
    case OfEntity => KeptRows(OtherId(id), s.entities); KeptRows(Not(OwnedBy(id)), s.facts);
    case OfTask => KeptRows(OtherId(id), s.tasks);
    case OfFact => KeptRows(OtherId(id), s.facts);
    case OfRelation =>
  }

  lemma KeptRows<T>(p: Row<T> -> bool, rows: seq<Row<T>>)
    requires UniqueIds(rows)
    ensures UniqueIds(Keep(p, rows)) && SameBodies(rows, Keep(p, rows))
    ensures forall id :: HasId(Keep(p, rows), id) <==> exists i :: 0 <= i < |rows| && rows[i].id == id && p(rows[i])
  {
    KeepUnique(p, rows);
    KeepMembers(p, rows);
    var kept := Keep(p, rows);
    forall id
      ensures HasId(kept, id) <==> exists i :: 0 <= i < |rows| && rows[i].id == id && p(rows[i])
    {
      if HasId(kept, id) {
        var k :| 0 <= k < |kept| && kept[k].id == id;
        assert kept[k] in rows;
      }
      if i :| 0 <= i < |rows| && rows[i].id == id && p(rows[i]) {
        assert rows[i] in kept;
      }
    }
  }

  lemma LookupDropped(index: seq<Entry>, id: string, namespace: string, key: string)
    requires namespace == "brain-entities" || namespace == "brain-facts" || namespace == "brain-tasks"
    ensures Lookup(DropProjections(index, id), namespace, key)
            == if key == id then None else Lookup(index, namespace, key)
  {
    var i1 := DropEntry(index, "brain-entities", id);
    var i2 := DropEntry(i1, "brain-facts", id);
    var i3 := DropEntry(i2, "brain-tasks", id);
    LookupDrop(index, "brain-entities", id, namespace, key);
    LookupDrop(i1, "brain-facts", id, namespace, key);
    LookupDrop(i2, "brain-tasks", id, namespace, key);
    LookupDrop(i3, "brain-suggestions", "suggestion:" + id, namespace, key);
  }

  /** Dropping the id's entries keeps a table covered exactly when no row of it carries the id. */
  lemma DroppedCovered<T>(rows: seq<Row<T>>, index: seq<Entry>, id: string, namespace: string, text: T -> string)
    requires Covered(rows, index, namespace, text)
    requires namespace == "brain-entities" || namespace == "brain-facts" || namespace == "brain-tasks"
    ensures Covered(rows, DropProjections(index, id), namespace, text) <==> !HasId(rows, id)
  {
    forall i | 0 <= i < |rows|
      ensures Lookup(DropProjections(index, id), namespace, rows[i].id)
              == if rows[i].id == id then None else Some(text(rows[i].body))
    {
      LookupDropped(index, id, namespace, rows[i].id);
    }
  }

  lemma DropUnique(index: seq<Entry>, id: string)
    requires UniqueKeys(index)
    ensures UniqueKeys(DropProjections(index, id))
  {
    var i1 := DropEntry(index, "brain-entities", id);
    var i2 := DropEntry(i1, "brain-facts", id);
    var i3 := DropEntry(i2, "brain-tasks", id);
    KeepUniqueKeys(OtherKey("brain-entities", id), index);
    KeepUniqueKeys(OtherKey("brain-facts", id), i1);
    KeepUniqueKeys(OtherKey("brain-tasks", id), i2);
    KeepUniqueKeys(OtherKey("brain-suggestions", "suggestion:" + id), i3);
  }

  /** Deleting keeps the index complete exactly when no surviving row carries the deleted id. */
  lemma DeleteKeepsIndexExactlyWhen(env: Env, s: Store, target: Target, id: string)
    requires Sound(s) && Indexed(env, s)
    ensures Sound(ForgetDelete(s, target, id))
    ensures Indexed(env, ForgetDelete(s, target, id)) <==> Fits(s, target, id)
  {
    var s' := ForgetDelete(s, target, id);
    KeepDelete(s, target, id);
    DeletedRows(s, target, id);
    BodiesCovered(s.entities, s'.entities, s.index, "brain-entities", EntityText);
    BodiesCovered(s.facts, s'.facts, s.index, "brain-facts", FactText);
    BodiesCovered(s.tasks, s'.tasks, s.index, "brain-tasks", TaskProjection(env));
    DroppedCovered(s'.entities, s.index, id, "brain-entities", EntityText);
    DroppedCovered(s'.facts, s.index, id, "brain-facts", FactText);
    DroppedCovered(s'.tasks, s.index, id, "brain-tasks", TaskProjection(env));
  }

  lemma KeepDelete(s: Store, target: Target, id: string)
    requires Sound(s)
    ensures Sound(ForgetDelete(s, target, id))
  {
    DeletedRows(s, target, id);
    DropUnique(s.index, id);
  }

  /** The other direction fails: deleting an entity removes its facts but leaves their index entries. */
  lemma DeletedFactsStayIndexed(env: Env, s: Store, id: string, i: nat)
    requires Sound(s) && Indexed(env, s)
    requires i < |s.facts| && s.facts[i].body.entityId == id && s.facts[i].id != id
    ensures var s' := ForgetDelete(s, OfEntity, id);
            && !HasId(s'.facts, s.facts[i].id)
            && Lookup(s'.index, "brain-facts", s.facts[i].id) == Some(FactText(s.facts[i].body))
  {
    KeptRows(Not(OwnedBy(id)), s.facts);
    LookupDropped(s.index, id, "brain-facts", s.facts[i].id);
  }

  lemma {:induction false} KeepSuggestions(env: Env, full: bool, s: Store, suggestions: seq<Suggestion>)
    requires Good(env, full, s)
    ensures Good(env, full, s.(index := IndexSuggestions(env, s.index, suggestions)))
  {
    if suggestions != [] {
      var n := |suggestions| - 1;
      KeepSuggestions(env, full, s, suggestions[..n]);
      var mid, g := s.(index := IndexSuggestions(env, s.index, suggestions[..n])), suggestions[n];
      KeepSuggestion(env, full, mid, Entry("brain-suggestions", g.id, g.summary + " " + g.reason + " " + g.context));
    }
  }

  lemma KeepSuggest(env: Env, full: bool, s: Store, scope: string, limit: nat)
    requires Good(env, full, s)
    ensures Good(env, full, Suggest(env, s, scope, limit))
  {
    KeepRetain(env, full, s);
    var s1 := Retain(env, s);
    KeepSuggestions(env, full, s1, Suggestions(env, s1, scope, limit));
    var s2 := s1.(index := IndexSuggestions(env, s1.index, Suggestions(env, s1, scope, limit)));
    KeepElsewhere(env, full, s2, Suggest(env, s, scope, limit));
  }

  lemma KeepBaseline(env: Env, full: bool, s: Store)
    requires Good(env, full, s)
    ensures Good(env, full, Baseline(env, s))
  {
    var ref := "brain:baseline";
    var e1 := Entity("person", "owner", "Local Owner", "Primary local OpenPinch operator", "{}", "[]", 0.95, 0.99, ref);
    var e2 := Entity("environment", "runtime", env.osName + " runtime",
                     "OpenPinch runtime on " + env.osName, env.runtimeScope, "[]", 0.82, 0.98, ref);
    var e3 := Entity("environment", "workspace", env.workspaceTitle,
                     "Workspace rooted at " + env.workspacePath, env.workspaceScope, "[]", 0.84, 0.98, ref);
    var e4 := Entity("environment", "project", env.workspaceTitle,
                     "Project context for " + env.workspaceTitle, env.projectScope, "[]", 0.8, 0.94, ref);
    KeepEntity(env, full, s, env.ownerId, e1);
    var s1 := UpsertEntity(s, env.ownerId, e1);
    KeepEntity(env, full, s1, env.runtimeId, e2);
    var s2 := UpsertEntity(s1, env.runtimeId, e2);
    KeepEntity(env, full, s2, env.workspaceId, e3);
    var s3 := UpsertEntity(s2, env.workspaceId, e3);
    KeepEntity(env, full, s3, env.projectId, e4);
    KeepElsewhere(env, full, UpsertEntity(s3, env.projectId, e4), Baseline(env, s));
  }

  // ----- runs -----

  /** What index coverage asks of callers: a deletion's kind fits its id, and direct memory writes stay
      out of the reserved namespaces. */
  ghost predicate Behaves(s: Store, a: Action) {
    match a
    case DoForget(kind, id, mode) =>
      mode == "delete" && ForgetTarget(kind).Some? ==> Fits(s, ForgetTarget(kind).value, id)
    case DoMemory(namespace, _, _) => namespace !in {"brain-entities", "brain-facts", "brain-tasks"}
    case _ => true
  }

  lemma KeepForget(env: Env, full: bool, s: Store, kind: string, id: string, mode: string)
    requires Good(env, full, s) && (full ==> Behaves(s, DoForget(kind, id, mode)))
    ensures Good(env, full, Forget(s, kind, id, mode))
  {
    var target := ForgetTarget(kind);
    if target.Some? {
      if mode == "" || mode == "archive" {
        KeepForgetArchive(env, full, s, target.value, id);
      } else if mode == "delete" {
        KeepDelete(s, target.value, id);
        if full {
          DeleteKeepsIndexExactlyWhen(env, s, target.value, id);
        }
      }
    }
  }

  lemma KeepPerform(env: Env, full: bool, s: Store, a: Action)
    requires Good(env, full, s) && (full ==> Behaves(s, a))
    ensures Good(env, full, Perform(env, s, a))
  {
    match a
    case DoRemember(q) => KeepRemember(env, full, s, q);
    case DoIngest(m) => KeepIngest(env, full, s, m);
    case DoReply(m, reply) => KeepReply(env, full, s, m, reply);
    case DoTool(target, priority, _, summary, data) => KeepTool(env, full, s, target, priority, summary, data);
    case DoUpdate(q) => KeepUpdate(env, full, s, q);
    case DoForget(kind, id, mode) => KeepForget(env, full, s, kind, id, mode);
    case DoRead => KeepRetain(env, full, s);
    case DoSuggest(scope, limit) => KeepSuggest(env, full, s, scope, limit);
    case DoMemory(namespace, key, text) => KeepSuggestion(env, full, s, Entry(namespace, key, text));
    case DoWait(time) => KeepElsewhere(env, full, s, Perform(env, s, a));
  }

  lemma KeepStep(env: Env, full: bool, s: Store, a: Action)
    requires Good(env, full, s) && (full ==> Behaves(s, a))
    ensures Good(env, full, Step(env, s, a))
  {
    if Permitted(env, a) {
      KeepPerform(env, full, s, a);
    }
  }

  lemma InitGood(env: Env, full: bool)
    ensures Good(env, full, Init(env))
  {
    KeepBaseline(env, full, EMPTY);
  }

  /** Callers keep to their side of the contract throughout. */
  ghost predicate AllBehave(states: seq<Store>, acts: seq<Action>) {
    |states| == |acts| + 1 && forall j :: 0 <= j < |acts| ==> Behaves(states[j], acts[j])
  }

  ghost predicate Leads(env: Env, s: Store, a: Action, s': Store) {
    s' == Step(env, s, a)
  }

  lemma KeepStepTo(env: Env, full: bool, s: Store, a: Action, s': Store)
    requires Good(env, full, s) && (full ==> Behaves(s, a)) && Leads(env, s, a, s')
    ensures Good(env, full, s')
  {
    KeepStep(env, full, s, a);
  }

  lemma RunGood(env: Env, full: bool, states: seq<Store>, acts: seq<Action>, k: nat)
    requires IsRun(env, states, acts) && k < |states|
    requires full ==> AllBehave(states, acts)
    ensures Good(env, full, states[k])
  {
    InitGood(env, full);
    for j := 0 to k
      invariant Good(env, full, states[j])
    {
      assert Leads(env, states[j], acts[j], states[j + 1]);
      KeepStepTo(env, full, states[j], acts[j], states[j + 1]);
    }
  }

  /** Index coverage over all runs whose callers behave. */
  lemma IndexCoverage(env: Env, states: seq<Store>, acts: seq<Action>, k: nat)
    requires IsRun(env, states, acts) && k < |states|
    requires AllBehave(states, acts)
    ensures Indexed(env, states[k])
  {
    RunGood(env, true, states, acts, k);
  }

  /** In every run, whatever callers do: ids stay unique, every task has salience at least 0.45 and
      confidence at least 0.72, and every blocked task has exactly 0.8 and 0.95. */
  lemma TaskFloors(env: Env, states: seq<Store>, acts: seq<Action>, k: nat)
    requires IsRun(env, states, acts) && k < |states|
    ensures Sound(states[k])
  {
    RunGood(env, false, states, acts, k);
  }
}
