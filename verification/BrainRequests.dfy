/** What replies, tool results and direct requests leave in the tables, said of their arguments alone. */
module BrainRequests {
  import opened Options
  import opened Text
  import opened Brain
  import opened BrainInvariant
  import opened BrainScope
  import opened BrainOpenTasks
  import opened BrainRecords

  // ----- titles and references -----

  /** `primary` without the white space around it, or `fallback` if nothing is left of it. */
  ghost predicate Chosen(primary: string, fallback: string, text: string) {
    if Blank(primary) then IsCore(fallback, text) else IsCore(primary, text)
  }

  lemma ChosenIs(primary: string, fallback: string)
    ensures Chosen(primary, fallback, NonEmptyOr(primary, fallback))
    ensures forall text :: Chosen(primary, fallback, text) ==> text == NonEmptyOr(primary, fallback)
  {
    TrimIs(primary);
    TrimIs(fallback);
    BlankIs(primary);
    forall text | Chosen(primary, fallback, text)
      ensures text == NonEmptyOr(primary, fallback)
    {
      CoreIs(if Blank(primary) then fallback else primary, text);
    }
  }

  /** A title is that text, cut to 80 characters with three dots at the end if it is longer. */
  lemma TitleIs(primary: string, fallback: string, text: string)
    requires Chosen(primary, fallback, text)
    ensures |text| <= 80 ==> PreferredTitle(primary, fallback) == text
    ensures |text| > 80 ==> PreferredTitle(primary, fallback) == text[..77] + "..."
  {
    ChosenIs(primary, fallback);
  }

  // ----- replies -----

  /** A reply in which a commitment is found leaves it as the newest task: in progress, unarchived, linked and
      assigned to the owner; a reply without one leaves nothing. */
  lemma RepliedTaskIs(env: Env, s: Store, m: Message, reply: string)
    requires env.enabled && env.autoCommitments
    ensures var s', ref := Step(env, s, DoReply(m, reply)), "assistant:" + m.connector + ":" + m.channelId + ":" + env.hash(reply);
            if env.commitmentIn(reply).None? then s' == s
            else
              var summary := env.commitmentIn(reply).value;
              && s'.tasks != [] && !s'.tasks[0].archived && s'.tasks[0].updatedAt == s.now
              && s'.tasks[0].body == Task(PreferredTitle(summary, reply), summary, "in_progress", env.priorityIn(reply),
                   DueFrom(env, s.now, reply), env.messageScope(m.connector, m.channelId, m.sender),
                   env.encodeLinks([env.ownerId]), 0.74, 0.72, ref)
              && (forall r :: r in s.tasks && r.id != s'.tasks[0].id ==> r in s'.tasks)
              && Linked(s'.relations, "assigned_to", s'.tasks[0].id, env.ownerId)
              && Logged(s.log, s'.log, ref, "assistant", Fingerprint(env.letters, reply), env.targetNote("task_id", [s'.tasks[0].id]))
  {
    StepOfReply(env, s, m, reply);
    if env.commitmentIn(reply).Some? {
      ReplyRows(env, s, m, reply);
    }
  }

  lemma StepOfReply(env: Env, s: Store, m: Message, reply: string)
    requires env.enabled && env.autoCommitments
    ensures Step(env, s, DoReply(m, reply)) == IngestReply(env, s, m, reply)
  {
  }

  lemma ReplyRows(env: Env, s: Store, m: Message, reply: string)
    requires env.commitmentIn(reply).Some?
    ensures var s', t := IngestReply(env, s, m, reply), ReplyTask(env, s.now, m, reply, env.commitmentIn(reply).value);
            && s'.tasks != [] && s'.tasks[0] == Row(MergeTarget(env, s, t), false, s.now, t)
            && (forall r :: r in s.tasks && r.id != s'.tasks[0].id ==> r in s'.tasks)
            && Linked(s'.relations, "assigned_to", s'.tasks[0].id, env.ownerId)
  {
    var t := ReplyTask(env, s.now, m, reply, env.commitmentIn(reply).value);
    var id := MergeTarget(env, s, t);
    KeepMembers(OtherId(id), s.tasks);
    RelationLinks(env, MergeTask(env, s, t), Relation("assigned_to", id, env.ownerId, env.sourceNote(ReplyRef(env, m, reply)), 0.78));
  }

  // ----- tool results -----

  lemma StepOfTool(env: Env, s: Store, target: string, priority: string, summary: string, data: string)
    requires env.enabled && env.autoTools
    ensures Step(env, s, DoTool(target, priority, true, summary, data)) == IngestTool(env, s, target, priority, summary, data)
  {
  }

  /** A successful tool result closes the task it is about, and no other: the first one found is done now and
      otherwise as it was; if there is none, the tasks stay as they are. */
  lemma ClosedTaskIs(env: Env, s: Store, target: string, priority: string, summary: string, data: string, result: string) returns (p: nat)
    requires env.enabled && env.autoTools && Chosen(summary, target, result)
    ensures var s' := Step(env, s, DoTool(target, priority, true, summary, data));
            if exists q: nat :: AboutTool(env, s, target, result, q) then
              && AboutTool(env, s, target, result, p) && (forall q: nat :: q < p ==> !AboutTool(env, s, target, result, q))
              && Newest(s'.tasks, s.tasks[p].id, s.tasks[p].body.(status := "done", confidence := 0.96,
                   sourceRef := "tool:" + target + ":" + env.hash(summary + ":" + data)))
              && (forall r :: r in s.tasks && r.id != s.tasks[p].id ==> r in s'.tasks)
            else s'.tasks == s.tasks
  {
    p := ToolTaskIs(env, s, target, result);
    ToolTasks(env, s, target, priority, summary, data, result);
    StepOfTool(env, s, target, priority, summary, data);
    if FirstRelated(env, target, result, Listed(s.tasks, false)).Some? {
      KeepMembers(OtherId(s.tasks[p].id), s.tasks);
    }
  }

  lemma ToolTasks(env: Env, s: Store, target: string, priority: string, summary: string, data: string, result: string)
    requires Chosen(summary, target, result)
    ensures var found := FirstRelated(env, target, result, Listed(s.tasks, false));
            var s3 := ToolFacts(env, s, target, priority, summary, data);
            IngestTool(env, s, target, priority, summary, data).tasks
            == if found.None? then s.tasks
               else Put(s.tasks, Row(found.value.id, false, s3.now, found.value.body.(status := "done", confidence := 0.96,
                      sourceRef := "tool:" + target + ":" + env.hash(summary + ":" + data))))
  {
    ChosenIs(summary, target);
    assert ToolFacts(env, s, target, priority, summary, data).tasks == s.tasks;
  }

  /** It also leaves the tool as an artifact, the result as a fact about it, and that it worked as a fact about
      the workspace; and a log row. */
  lemma ToolFactsAre(env: Env, s: Store, target: string, priority: string, summary: string, data: string, result: string)
    requires env.enabled && env.autoTools && Chosen(summary, target, result)
    ensures var s' := Step(env, s, DoTool(target, priority, true, summary, data));
            var artifact, ref := "artifact:tool:" + env.hash(target), "tool:" + target + ":" + env.hash(summary + ":" + data);
            && Newest(s'.entities, artifact, Entity("artifact", "tool-result", target, "Successful tool execution: " + result,
                 env.toolScope(target, priority), "[]", 0.68, 0.92, ref))
            && Newest(s'.facts, "fact:" + env.workspaceId + ":" + env.hash(target),
                 Fact(env.workspaceId, "Tool " + target + " succeeded with " + result, env.toolScope(target, priority), 0.58, 0.86, ref))
            && Logged(s.log, s'.log, ref, "tool", Fingerprint(env.letters, summary + " " + data), env.targetNote("artifact_id", [artifact]))
  {
    ToolRecords(env, s, target, priority, summary, data, result);
    var s', rows := IngestTool(env, s, target, priority, summary, data), ToolRows(env, s, target, priority, summary, data);
    assert s'.entities == rows.entities && s'.facts == rows.facts && rows.log == s.log;
    StepOfTool(env, s, target, priority, summary, data);
  }

  lemma ToolRecords(env: Env, s: Store, target: string, priority: string, summary: string, data: string, result: string)
    requires Chosen(summary, target, result)
    ensures var s3, rows := ToolFacts(env, s, target, priority, summary, data), ToolRows(env, s, target, priority, summary, data);
            var artifact, ref := "artifact:tool:" + env.hash(target), "tool:" + target + ":" + env.hash(summary + ":" + data);
            && Newest(s3.entities, artifact, Entity("artifact", "tool-result", target, "Successful tool execution: " + result,
                 env.toolScope(target, priority), "[]", 0.68, 0.92, ref))
            && Newest(s3.facts, "fact:" + env.workspaceId + ":" + env.hash(target),
                 Fact(env.workspaceId, "Tool " + target + " succeeded with " + result, env.toolScope(target, priority), 0.58, 0.86, ref))
            && s3.log == s.log && rows.entities == s3.entities && rows.facts == s3.facts && rows.log == s3.log
  {
    ChosenIs(summary, target);
  }

  /** A failed result, or one ingested while the setting is off, leaves nothing. */
  lemma ToolIgnoredExactlyWhen(env: Env, s: Store, target: string, priority: string, success: bool, summary: string, data: string)
    ensures Step(env, s, DoTool(target, priority, success, summary, data)) == s
            <==> !(env.enabled && env.autoTools && success)
  {
    assert Permitted(env, DoTool(target, priority, success, summary, data)) ==>
      Step(env, s, DoTool(target, priority, success, summary, data)).now > s.now;
  }

  // ----- remember -----

  function Ref(env: Env, q: RememberRequest): string {
    if q.sourceRef != "" then q.sourceRef
    else "remember:" + env.hash(q.kind + ":" + q.subtype + ":" + q.title + ":" + q.content)
  }

  function Digest(env: Env, q: RememberRequest): string {
    env.hash(q.kind + ":" + q.subtype + ":" + q.title + ":" + q.content + ":" + Ref(env, q))
  }

  lemma RefIs(env: Env, q: RememberRequest)
    ensures RememberRef(env, q) == Ref(env, q) && Ref(env, q) != "" && RememberDigest(env, q) == Digest(env, q)
  {
    assert q.sourceRef == "" ==> Ref(env, q)[0] == 'r';
  }

  function ScopeOf(q: RememberRequest): string {
    if q.scope == "" then "{}" else q.scope
  }

  lemma StepOfRemember(env: Env, s: Store, q: RememberRequest)
    requires env.enabled
    ensures Step(env, s, DoRemember(q)) == Remember(env, s, q)
  {
  }

  /** A task remembered is the newest, open and unarchived, at least 0.45 salient; the other tasks are as
      retention leaves them. */
  lemma RememberedTaskIs(env: Env, s: Store, q: RememberRequest, summary: string)
    requires env.enabled && q.kind == "task" && Chosen(q.content, q.title, summary)
    ensures var s', before := Step(env, s, DoRemember(q)), Retain(env, s);
            && s'.tasks != [] && !s'.tasks[0].archived && s'.tasks[0].updatedAt == before.now
            && s'.tasks[0].body == Task(PreferredTitle(q.title, q.content), summary, "open", env.priorityIn(q.content),
                 DueFrom(env, before.now, q.content), ScopeOf(q), q.links,
                 if q.importance < 0.45 then 0.45 else q.importance, 0.92, Ref(env, q))
            && (forall r :: r in before.tasks && r.id != s'.tasks[0].id ==> r in s'.tasks)
            && s'.entities == before.entities && s'.facts == before.facts
            && Logged(s.log, s'.log, Ref(env, q), "remember", Digest(env, q), env.targetNote("task_id", [s'.tasks[0].id]))
  {
    StepOfRemember(env, s, q);
    TaskRemembered(env, s, Retain(env, s), q, summary);
  }

  lemma TaskRemembered(env: Env, s: Store, before: Store, q: RememberRequest, summary: string)
    requires before == Retain(env, s) && q.kind == "task" && Chosen(q.content, q.title, summary)
    ensures var s', t := Remember(env, s, q), Task(PreferredTitle(q.title, q.content), summary, "open", env.priorityIn(q.content),
              DueFrom(env, before.now, q.content), ScopeOf(q), q.links,
              if q.importance < 0.45 then 0.45 else q.importance, 0.92, Ref(env, q));
            && s'.tasks == Put(before.tasks, Row(MergeTarget(env, before, t), false, before.now, t))
            && (forall r :: r in before.tasks && r.id != s'.tasks[0].id ==> r in s'.tasks)
            && s'.entities == before.entities && s'.facts == before.facts
            && Logged(s.log, s'.log, Ref(env, q), "remember", Digest(env, q), env.targetNote("task_id", [s'.tasks[0].id]))
  {
    RefIs(env, q);
    RequestIs(env, before.now, q, summary);
    var t := RememberedTask(env, before.now, q);
    KeepMembers(OtherId(MergeTarget(env, before, t)), before.tasks);
    assert Remember(env, s, q) == LogRemember(env, MergeTask(env, before, t), q, "task_id", RememberedId(env, before, q));
  }

  lemma RequestIs(env: Env, now: int, q: RememberRequest, summary: string)
    requires Chosen(q.content, q.title, summary)
    ensures RememberedTask(env, now, q) == Task(PreferredTitle(q.title, q.content), summary, "open", env.priorityIn(q.content),
              DueFrom(env, now, q.content), ScopeOf(q), q.links, if q.importance < 0.45 then 0.45 else q.importance, 0.92, Ref(env, q))
  {
    RefIs(env, q);
    ChosenIs(q.content, q.title);
  }

  /** The kinds and subtypes that `remember` takes. */
  predicate Taken(q: RememberRequest) {
    || q.kind in {"task", "person", "artifact"}
    || (q.kind == "environment" && q.subtype in {"", "runtime", "workspace", "deployment", "project", "team", "place"})
  }

  lemma TakenIs(q: RememberRequest)
    ensures Taken(q) <==> !RememberRejects(q)
  {
  }

  /** Any other record taken is the newest entity, with a fact about it, and linked to what the request names. */
  lemma RememberedEntityIs(env: Env, s: Store, q: RememberRequest)
    requires env.enabled && Taken(q) && q.kind != "task"
    ensures var s', before := Step(env, s, DoRemember(q)), Retain(env, s);
            var id := q.kind + ":" + q.subtype + ":" + env.hash(q.title + ":" + ScopeOf(q));
            && Newest(s'.entities, id, Entity(q.kind, q.subtype, PreferredTitle(q.title, q.content), q.content, ScopeOf(q),
                 if q.links == "" then "[]" else q.links, if q.importance < 0.4 then 0.4 else q.importance, 0.95, Ref(env, q)))
            && Newest(s'.facts, "fact:" + id + ":" + env.hash(Ref(env, q) + ":" + q.content),
                 Fact(id, q.content, ScopeOf(q), if q.importance < 0.35 then 0.35 else q.importance, 0.9, Ref(env, q)))
            && AllLinked(s'.relations, "mentioned_with", id, env.parseLinks(if q.links == "" then "[]" else q.links))
            && s'.tasks == before.tasks
            && Logged(s.log, s'.log, Ref(env, q), "remember", Digest(env, q), env.targetNote("entity_id", [id]))
  {
    StepOfRemember(env, s, q);
    TakenIs(q);
    RefIs(env, q);
    EntityRemembered(env, Retain(env, s), q);
  }

  lemma EntityRemembered(env: Env, before: Store, q: RememberRequest)
    ensures var s', id := RememberEntity(env, before, q), RememberedEntityId(env, q);
            && Newest(s'.entities, id, Entity(q.kind, q.subtype, PreferredTitle(q.title, q.content), q.content, ScopeOf(q),
                 if q.links == "" then "[]" else q.links, Max(q.importance, 0.4), 0.95, RememberRef(env, q)))
            && Newest(s'.facts, "fact:" + id + ":" + env.hash(RememberRef(env, q) + ":" + q.content),
                 Fact(id, q.content, ScopeOf(q), Max(q.importance, 0.35), 0.9, RememberRef(env, q)))
            && (q.kind != "task" ==> AllLinked(s'.relations, "mentioned_with", id, env.parseLinks(if q.links == "" then "[]" else q.links)))
            && s'.tasks == before.tasks && s'.log == before.log
  {
    var id, ref, links := RememberedEntityId(env, q), RememberRef(env, q), if q.links == "" then "[]" else q.links;
    var s1 := UpsertEntity(before, id, Entity(q.kind, q.subtype, PreferredTitle(q.title, q.content), q.content,
      ScopeOf(q), links, Max(q.importance, 0.4), 0.95, ref));
    var s2 := UpsertFact(s1, "fact:" + id + ":" + env.hash(ref + ":" + q.content),
      Fact(id, q.content, ScopeOf(q), Max(q.importance, 0.35), 0.9, ref));
    LinksOnly(env, s2, id, q.kind, env.parseLinks(links), ref);
  }

  /** Linking writes relations only, one to each id. */
  lemma LinksOnly(env: Env, s: Store, id: string, kind: string, links: seq<string>, ref: string)
    ensures var s' := LinkRecord(env, s, id, kind, links, ref);
            && s'.entities == s.entities && s'.facts == s.facts && s'.tasks == s.tasks && s'.log == s.log
            && AllLinked(s'.relations, if kind == "task" then "about" else "mentioned_with", id, links)
  {
    LinksElsewhere(env, s, id, kind, links, ref);
    LinksAll(env, s, id, kind, links, ref);
  }

  lemma {:induction false} LinksElsewhere(env: Env, s: Store, id: string, kind: string, links: seq<string>, ref: string)
    ensures var s' := LinkRecord(env, s, id, kind, links, ref);
            s'.entities == s.entities && s'.facts == s.facts && s'.tasks == s.tasks && s'.log == s.log
  {
    if links != [] {
      LinksElsewhere(env, s, id, kind, links[..|links| - 1], ref);
    }
  }

  lemma {:induction false} LinksAll(env: Env, s: Store, id: string, kind: string, links: seq<string>, ref: string)
    ensures AllLinked(LinkRecord(env, s, id, kind, links, ref).relations, if kind == "task" then "about" else "mentioned_with", id, links)
  {
    if links != [] {
      var n := |links| - 1;
      LinksAll(env, s, id, kind, links[..n], ref);
      var verb := if kind == "task" then "about" else "mentioned_with";
      OneLinkMore(env, LinkRecord(env, s, id, kind, links[..n], ref), verb, id, links, env.sourceNote(ref));
      LastRecorded(env, s, id, kind, verb, links, ref);
    }
  }

  lemma OneLinkMore(env: Env, s: Store, kind: string, fromId: string, toIds: seq<string>, note: string)
    requires toIds != [] && AllLinked(s.relations, kind, fromId, toIds[..|toIds| - 1])
    ensures AllLinked(UpsertRelation(env, s, Relation(kind, fromId, toIds[|toIds| - 1], note, 0.74)).relations, kind, fromId, toIds)
  {
    RelationLinks(env, s, Relation(kind, fromId, toIds[|toIds| - 1], note, 0.74));
    assert forall i :: 0 <= i < |toIds| - 1 ==> toIds[..|toIds| - 1][i] == toIds[i];
  }

  lemma LastRecorded(env: Env, s: Store, id: string, kind: string, verb: string, links: seq<string>, ref: string)
    requires links != [] && verb == if kind == "task" then "about" else "mentioned_with"
    ensures LinkRecord(env, s, id, kind, links, ref)
            == UpsertRelation(env, LinkRecord(env, s, id, kind, links[..|links| - 1], ref),
                 Relation(verb, id, links[|links| - 1], env.sourceNote(ref), 0.74))
  {
  }

  /** A request of any other kind leaves only what retention does. */
  lemma RefusedRequestIs(env: Env, s: Store, q: RememberRequest)
    requires env.enabled && !Taken(q)
    ensures Step(env, s, DoRemember(q)) == Retain(env, s)
  {
    StepOfRemember(env, s, q);
    TakenIs(q);
  }

  // ----- update -----

  /** The stored task an update overlays: the row of this id among the newest 512, archived or not. */
  ghost predicate Overlays(s: Store, id: string, p: nat) {
    p < |s.tasks| && p < 512 && s.tasks[p].id == id
  }

  lemma {:induction false} FindAt<T>(rows: seq<Row<T>>, id: string, p: nat)
    requires UniqueIds(rows) && p < |rows| && rows[p].id == id
    ensures Find(rows, id) == Some(rows[p])
  {
    if p > 0 {
      assert rows[1..][p - 1] == rows[p];
      FindAt(rows[1..], id, p - 1);
    }
  }

  lemma {:induction false} FindNone<T>(rows: seq<Row<T>>, id: string)
    requires forall p :: 0 <= p < |rows| ==> rows[p].id != id
    ensures Find(rows, id).None?
  {
    if rows != [] {
      assert forall p :: 0 <= p < |rows[1..]| ==> rows[1..][p] == rows[p + 1];
      FindNone(rows[1..], id);
    }
  }

  lemma {:induction false} KeepsAll<T>(p: T -> bool, xs: seq<T>)
    requires forall i :: 0 <= i < |xs| ==> p(xs[i])
    ensures Keep(p, xs) == xs
  {
    if xs != [] {
      KeepsAll(p, xs[1..]);
    }
  }

  lemma StoredIs(s: Store, id: string)
    requires UniqueIds(s.tasks)
    ensures forall p: nat :: Overlays(s, id, p) ==> Find(Listed(s.tasks, true), id) == Some(s.tasks[p])
    ensures (forall p: nat :: !Overlays(s, id, p)) ==> Find(Listed(s.tasks, true), id).None?
  {
    var window := Take(s.tasks, WINDOW);
    KeepsAll(Visible(true), window);
    forall p: nat | Overlays(s, id, p)
      ensures Find(window, id) == Some(s.tasks[p])
    {
      FindAt(window, id, p);
    }
    if forall p: nat :: !Overlays(s, id, p) {
      forall p | 0 <= p < |window|
        ensures window[p].id != id
      {
        assert !Overlays(s, id, p);
      }
      FindNone(window, id);
    }
  }

  /** A task written anew over what is stored of it, or over nothing. */
  function Overlaid(env: Env, q: UpdateRequest, id: string, stored: Option<Task>, summary: string): Task {
    Task(PreferredTitle(summary, summary), summary, q.status, if q.priority == "" then "normal" else q.priority,
      if q.dueAt.Some? then q.dueAt else if stored.Some? then stored.value.dueAt else None,
      if stored.Some? then stored.value.scope else "{}",
      if q.links != "" then q.links else if stored.Some? then stored.value.links else "[]", 0.8, 0.95,
      if q.sourceRef == "" then "task-update:" + env.hash(id) else q.sourceRef)
  }

  /** An update with a known status writes the task anew under its id; with any other status it changes nothing. */
  lemma UpdatedTaskIs(env: Env, s: Store, q: UpdateRequest, stored: Option<Task>, summary: string)
    requires env.enabled && UniqueIds(s.tasks)
    requires var id := if q.taskId == "" then "task:" + env.hash(q.summary) else q.taskId;
             && (if stored.None? then forall p: nat :: !Overlays(s, id, p) else exists p: nat :: Overlays(s, id, p) && s.tasks[p].body == stored.value)
             && Chosen(q.summary, if stored.Some? then stored.value.summary else id, summary)
    ensures var s', id := Step(env, s, DoUpdate(q)), if q.taskId == "" then "task:" + env.hash(q.summary) else q.taskId;
            if q.status in {"open", "in_progress", "blocked", "done", "cancelled"} then
              && Newest(s'.tasks, id, Overlaid(env, q, id, stored, summary))
              && (forall r :: r in s.tasks && r.id != id ==> r in s'.tasks)
              && AllLinked(s'.relations, "about", id, env.parseLinks(Overlaid(env, q, id, stored, summary).links))
            else s' == s
  {
    var id := if q.taskId == "" then "task:" + env.hash(q.summary) else q.taskId;
    StoredIs(s, id);
    StepOfUpdate(env, s, q);
    if q.status in {"open", "in_progress", "blocked", "done", "cancelled"} {
      var found := Find(Listed(s.tasks, true), id);
      assert stored == if found.None? then None else Some(found.value.body);
      UpdateTasks(env, s, q, id, stored, summary);
      KeepMembers(OtherId(id), s.tasks);
    }
  }

  lemma StepOfUpdate(env: Env, s: Store, q: UpdateRequest)
    requires env.enabled
    ensures Step(env, s, DoUpdate(q)) == UpdateTask(env, s, q)
  {
  }

  lemma UpdateTasks(env: Env, s: Store, q: UpdateRequest, id: string, stored: Option<Task>, summary: string)
    requires id == if q.taskId == "" then "task:" + env.hash(q.summary) else q.taskId
    requires q.status in {"open", "in_progress", "blocked", "done", "cancelled"}
    requires var found := Find(Listed(s.tasks, true), id);
             stored == if found.None? then None else Some(found.value.body)
    requires Chosen(q.summary, if stored.Some? then stored.value.summary else id, summary)
    ensures var s', t := UpdateTask(env, s, q), Overlaid(env, q, id, stored, summary);
            && s'.tasks == Put(s.tasks, Row(id, false, s.now, t))
            && AllLinked(s'.relations, "about", id, env.parseLinks(t.links))
  {
    var t := Overlaid(env, q, id, stored, summary);
    OverlaidIs(env, q, id, Find(Listed(s.tasks, true), id), stored, summary);
    LinksOnly(env, UpsertTask(env, s, id, t), id, "task", env.parseLinks(t.links), t.sourceRef);
  }

  lemma OverlaidIs(env: Env, q: UpdateRequest, id: string, found: Option<Row<Task>>, stored: Option<Task>, summary: string)
    requires id == if q.taskId == "" then "task:" + env.hash(q.summary) else q.taskId
    requires stored == if found.None? then None else Some(found.value.body)
    requires Chosen(q.summary, if stored.Some? then stored.value.summary else id, summary)
    ensures UpdatedTask(env, q, found) == Overlaid(env, q, id, stored, summary)
  {
    ChosenOnly(q.summary, if stored.Some? then stored.value.summary else id, summary);
    OverlaidSame(env, q, id, found, stored, summary);
  }

  lemma ChosenOnly(primary: string, fallback: string, text: string)
    requires Chosen(primary, fallback, text)
    ensures text == NonEmptyOr(primary, fallback)
  {
    ChosenIs(primary, fallback);
  }

  lemma OverlaidSame(env: Env, q: UpdateRequest, id: string, found: Option<Row<Task>>, stored: Option<Task>, summary: string)
    requires id == if q.taskId == "" then "task:" + env.hash(q.summary) else q.taskId
    requires stored == if found.None? then None else Some(found.value.body)
    requires summary == NonEmptyOr(q.summary, if stored.Some? then stored.value.summary else id)
    ensures UpdatedTask(env, q, found) == Overlaid(env, q, id, stored, summary)
  {
    assert UpdatedId(env, q) == id;
    assert DefaultSourceRef(env, q.sourceRef, id, "task-update") == Overlaid(env, q, id, stored, summary).sourceRef;
  }

  // ----- settings -----

  /** What a call of the brain needs to be switched on. */
  predicate Needs(env: Env, a: Action) {
    && env.enabled
    && (a.DoIngest? ==> env.autoMessages) && (a.DoReply? ==> env.autoCommitments) && (a.DoTool? ==> env.autoTools && a.success)
  }

  /** A brain switched off does nothing, whatever is asked of it; only memory entries of others and time come in. */
  lemma SwitchedOffIs(env: Env, s: Store, a: Action)
    requires !Needs(env, a)
    ensures match a
            case DoMemory(namespace, key, text) => Step(env, s, a).index[0] == Entry(namespace, key, text)
            case DoWait(time) => Step(env, s, a) == s.(now := s.now + time)
            case _ => Step(env, s, a) == s
  {
  }
}
