/** What one statement does to a table or to the index, in terms of what is found there afterwards. */
module BrainTables {
  import opened Options
  import opened Brain
  import opened BrainInvariant

  // ----- rows -----

  /** The row is the newest, and the only one of its id; all other rows are still there. */
  ghost predicate Wrote<T(!new)>(before: seq<Row<T>>, after: seq<Row<T>>, row: Row<T>) {
    && after != [] && after[0] == row
    && forall r :: r in after <==> r == row || (r in before && r.id != row.id)
  }

  lemma PutWrites<T(!new)>(rows: seq<Row<T>>, row: Row<T>)
    ensures Wrote(rows, Put(rows, row), row)
  {
    KeepMembers(OtherId(row.id), rows);
  }

  // ----- relations -----

  predicate SameTriple(a: Relation, b: Relation) {
    a.kind == b.kind && a.fromId == b.fromId && a.toId == b.toId
  }

  /** One relation per kind and endpoints. */
  ghost predicate UniqueTriples(rows: seq<Row<Relation>>) {
    forall i, j :: 0 <= i < j < |rows| ==> !SameTriple(rows[i].body, rows[j].body)
  }

  lemma {:induction false} KeepTriples(p: Row<Relation> -> bool, rows: seq<Row<Relation>>)
    requires UniqueTriples(rows)
    ensures UniqueTriples(Keep(p, rows))
  {
    if rows != [] {
      KeepTriples(p, rows[1..]);
      KeepMembers(p, rows[1..]);
      var rest := Keep(p, rows[1..]);
      forall j | 0 <= j < |rest|
        ensures !SameTriple(rows[0].body, rest[j].body)
      {
        assert rest[j] in rows[1..];
      }
    }
  }

  lemma ArchiveTriples(p: Row<Relation> -> bool, rows: seq<Row<Relation>>, now: int)
    requires UniqueTriples(rows)
    ensures UniqueTriples(Archive(p, rows, now))
  {
    var hit, rest := Keep(p, rows), Keep(Not(p), rows);
    KeepTriples(p, rows);
    KeepTriples(Not(p), rows);
    KeepMembers(p, rows);
    KeepMembers(Not(p), rows);
    forall i, j | 0 <= i < |hit| && 0 <= j < |rest|
      ensures !SameTriple(hit[i].body, rest[j].body)
    {
      var x :| 0 <= x < |rows| && rows[x] == hit[i];
      var y :| 0 <= y < |rows| && rows[y] == rest[j];
      assert x != y;
    }
  }

  /** The relation is the newest, unarchived, and the only one of its triple; all others are still there. */
  ghost predicate Related(before: seq<Row<Relation>>, after: seq<Row<Relation>>, rel: Relation) {
    && after != [] && after[0].body == rel && !after[0].archived
    && forall r :: r in after <==> r == after[0] || (r in before && !SameTriple(r.body, rel))
  }

  lemma RelationWrites(env: Env, s: Store, rel: Relation)
    requires UniqueTriples(s.relations)
    ensures var after := UpsertRelation(env, s, rel).relations;
            Related(s.relations, after, rel) && UniqueTriples(after)
  {
    KeepMembers(OtherTriple(rel), s.relations);
    KeepTriples(OtherTriple(rel), s.relations);
    var rest := Keep(OtherTriple(rel), s.relations);
    forall j | 0 <= j < |rest|
      ensures !SameTriple(rel, rest[j].body)
    {
      assert OtherTriple(rel)(rest[j]);
    }
  }

  // ----- the index -----

  /** The key finds this text, and every other key finds what it found. */
  ghost predicate Projected(before: seq<Entry>, after: seq<Entry>, namespace: string, key: string, text: string) {
    forall n, k :: Lookup(after, n, k) == if n == namespace && k == key then Some(text) else Lookup(before, n, k)
  }

  lemma PutProjects(index: seq<Entry>, e: Entry)
    ensures Projected(index, PutEntry(index, e), e.namespace, e.key, e.text)
  {
    forall n, k
      ensures Lookup(PutEntry(index, e), n, k) == if n == e.namespace && k == e.key then Some(e.text) else Lookup(index, n, k)
    {
      LookupPut(index, e, n, k);
    }
  }

  /** A task's two projections. */
  ghost predicate TaskProjected(env: Env, before: seq<Entry>, after: seq<Entry>, id: string, t: Task) {
    forall n, k ::
      Lookup(after, n, k)
      == if n == "brain-suggestions" && k == "suggestion:" + id then Some(t.summary + " " + t.priority)
         else if n == "brain-tasks" && k == id then Some(TaskText(env, t))
         else Lookup(before, n, k)
  }

  lemma TaskProjects(env: Env, s: Store, id: string, t: Task)
    ensures TaskProjected(env, s.index, UpsertTask(env, s, id, t).index, id, t)
  {
    var first := Entry("brain-tasks", id, TaskText(env, t));
    var second := Entry("brain-suggestions", "suggestion:" + id, t.summary + " " + t.priority);
    PutProjects(s.index, first);
    PutProjects(PutEntry(s.index, first), second);
  }

  /** The keys a deletion drops. */
  predicate IsDropped(id: string, namespace: string, key: string) {
    (namespace in {"brain-entities", "brain-facts", "brain-tasks"} && key == id)
    || (namespace == "brain-suggestions" && key == "suggestion:" + id)
  }

  /** Dropped keys find nothing, every other key finds what it found. */
  ghost predicate Dropped(before: seq<Entry>, after: seq<Entry>, id: string) {
    forall n, k :: Lookup(after, n, k) == if IsDropped(id, n, k) then None else Lookup(before, n, k)
  }

  lemma ProjectionsDrop(index: seq<Entry>, id: string)
    ensures Dropped(index, DropProjections(index, id), id)
  {
    var i1 := DropEntry(index, "brain-entities", id);
    var i2 := DropEntry(i1, "brain-facts", id);
    var i3 := DropEntry(i2, "brain-tasks", id);
    forall n, k
      ensures Lookup(DropProjections(index, id), n, k) == if IsDropped(id, n, k) then None else Lookup(index, n, k)
    {
      LookupDrop(index, "brain-entities", id, n, k);
      LookupDrop(i1, "brain-facts", id, n, k);
      LookupDrop(i2, "brain-tasks", id, n, k);
      LookupDrop(i3, "brain-suggestions", "suggestion:" + id, n, k);
    }
  }

  // ----- whole deletions and archivings -----

  /** What `forget` archives: exactly the row, and with an entity its facts and its relations. */
  ghost predicate ForgottenArchived(s: Store, s': Store, target: Target, id: string) {
    && ArchivedExactly((r: Row<Entity>) => target == OfEntity && r.id == id, s.entities, s'.entities, s.now)
    && ArchivedExactly((r: Row<Fact>) => if target == OfEntity then r.body.entityId == id else target == OfFact && r.id == id,
                       s.facts, s'.facts, if target == OfEntity then s.now + 1 else s.now)
    && ArchivedExactly((r: Row<Relation>) => if target == OfEntity then id in {r.body.fromId, r.body.toId} else target == OfRelation && r.id == id,
                       s.relations, s'.relations, if target == OfEntity then s.now + 2 else s.now)
    && ArchivedExactly((r: Row<Task>) => target == OfTask && r.id == id, s.tasks, s'.tasks, s.now)
    && s'.index == s.index && s'.log == s.log
  }

  lemma SameArchived<T(!new)>(p: Row<T> -> bool, q: Row<T> -> bool, before: seq<Row<T>>, after: seq<Row<T>>, now: int)
    requires ArchivedExactly(p, before, after, now) && forall r: Row<T> :: p(r) <==> q(r)
    ensures ArchivedExactly(q, before, after, now)
  {
    forall b: Row<T> | b in before
      ensures Marked(q, b, now) in after
    {
      assert Marked(p, b, now) in after;
    }
  }

  lemma NoneArchived<T(!new)>(q: Row<T> -> bool, rows: seq<Row<T>>, now: int)
    requires forall r: Row<T> :: !q(r)
    ensures ArchivedExactly(q, rows, rows, now)
  {
  }

  lemma ForgetArchives(s: Store, target: Target, id: string)
    ensures ForgottenArchived(s, ForgetArchive(s, target, id), target, id)
  {
    var entity, task := (r: Row<Entity>) => target == OfEntity && r.id == id, (r: Row<Task>) => target == OfTask && r.id == id;
    var fact := (r: Row<Fact>) => if target == OfEntity then r.body.entityId == id else target == OfFact && r.id == id;
    var rel := (r: Row<Relation>) => if target == OfEntity then id in {r.body.fromId, r.body.toId} else target == OfRelation && r.id == id;
    var s' := ForgetArchive(s, target, id);
    match target
    case OfEntity =>
      ArchiveIs(IsId(id), s.entities, s.now);
      SameArchived(IsId(id), entity, s.entities, s'.entities, s.now);
      ArchiveIs(OwnedBy(id), s.facts, s.now + 1);
      SameArchived(OwnedBy(id), fact, s.facts, s'.facts, s.now + 1);
      ArchiveIs(Touching(id), s.relations, s.now + 2);
      SameArchived(Touching(id), rel, s.relations, s'.relations, s.now + 2);
      NoneArchived(task, s.tasks, s.now);
    case OfTask =>
      ArchiveIs(IsId(id), s.tasks, s.now);
      SameArchived(IsId(id), task, s.tasks, s'.tasks, s.now);
    case OfFact =>
      ArchiveIs(IsId(id), s.facts, s.now);
      SameArchived(IsId(id), fact, s.facts, s'.facts, s.now);
    case OfRelation =>
      ArchiveIs(IsId(id), s.relations, s.now);
      SameArchived(IsId(id), rel, s.relations, s'.relations, s.now);
  }

  /** What `forget` deletes: the row, with an entity its facts and relations, with a task its relations. */
  ghost predicate ForgottenDeleted(s: Store, s': Store, target: Target, id: string) {
    && (forall r :: r in s'.entities <==> r in s.entities && !(target == OfEntity && r.id == id))
    && (forall r :: r in s'.facts <==> r in s.facts && !(if target == OfEntity then r.body.entityId == id else target == OfFact && r.id == id))
    && (forall r :: r in s'.relations <==>
          (r in s.relations
           && !(if target == OfEntity || target == OfTask then id in {r.body.fromId, r.body.toId} else target == OfRelation && r.id == id)))
    && (forall r :: r in s'.tasks <==> r in s.tasks && !(target == OfTask && r.id == id))
    && s'.log == s.log
  }

  lemma ForgetDeletes(s: Store, target: Target, id: string)
    ensures ForgottenDeleted(s, ForgetDelete(s, target, id), target, id)
  {
    match target
    case OfEntity =>
      KeepMembers(OtherId(id), s.entities);
      KeepMembers(Not(OwnedBy(id)), s.facts);
      KeepMembers(Not(Touching(id)), s.relations);
    case OfTask =>
      KeepMembers(OtherId(id), s.tasks);
      KeepMembers(Not(Touching(id)), s.relations);
    case OfFact => KeepMembers(OtherId(id), s.facts);
    case OfRelation => KeepMembers(OtherId(id), s.relations);
  }

  /** What each kind and mode of `forget` does, and that no other does anything. */
  lemma ForgetMeans(s: Store, kind: string, id: string, mode: string)
    ensures var s' := Forget(s, kind, id, mode);
            var entity := kind in {"person", "environment", "artifact", "", "entity"};
            var target := if entity then OfEntity else if kind == "task" then OfTask else if kind == "fact" then OfFact else OfRelation;
            if !entity && kind !in {"task", "fact", "relation"} then s' == s
            else if mode in {"", "archive"} then ForgottenArchived(s, s', target, id)
            else if mode == "delete" then ForgottenDeleted(s, s', target, id) && Dropped(s.index, s'.index, id)
            else s' == s
  {
    if ForgetTarget(kind).Some? {
      ForgetArchives(s, ForgetTarget(kind).value, id);
      ForgetDeletes(s, ForgetTarget(kind).value, id);
      ProjectionsDrop(s.index, id);
    }
  }

  lemma ForgetTriples(s: Store, target: Target, id: string)
    requires UniqueTriples(s.relations)
    ensures UniqueTriples(ForgetArchive(s, target, id).relations) && UniqueTriples(ForgetDelete(s, target, id).relations)
  {
    ArchiveTriples(Touching(id), s.relations, s.now + 2);
    ArchiveTriples(IsId(id), s.relations, s.now);
    KeepTriples(Not(Touching(id)), s.relations);
    KeepTriples(OtherId(id), s.relations);
  }

  /** What retention archives: exactly the unarchived entities and facts under 0.35 salience and the unarchived
      tasks under 0.5 that are done or cancelled, if they were last written more than `archiveDecayDays` days ago;
      a day is 86,400,000,000 microseconds. */
  ghost predicate Retained(env: Env, s: Store, s': Store) {
    var span := env.archiveDecayDays * 86_400_000_000;
    && ArchivedExactly((r: Row<Entity>) => !r.archived && r.body.salience < 0.35 && s.now - r.updatedAt > span,
                       s.entities, s'.entities, s.now)
    && ArchivedExactly((r: Row<Fact>) => !r.archived && r.body.salience < 0.35 && s.now - r.updatedAt > span,
                       s.facts, s'.facts, s.now + 1)
    && ArchivedExactly((r: Row<Task>) => !r.archived && r.body.salience < 0.5 && r.body.status in {"done", "cancelled"}
                                         && s.now - r.updatedAt > span,
                       s.tasks, s'.tasks, s.now + 2)
    && s'.relations == s.relations && s'.index == s.index && s'.log == s.log
  }

  lemma RetainRetains(env: Env, s: Store)
    ensures Retained(env, s, Retain(env, s))
  {
    var cutoff, span, s' := Cutoff(env, s.now), env.archiveDecayDays * 86_400_000_000, Retain(env, s);
    ArchiveIs(FadedEntity(cutoff), s.entities, s.now);
    SameArchived(FadedEntity(cutoff), (r: Row<Entity>) => !r.archived && r.body.salience < 0.35 && s.now - r.updatedAt > span,
      s.entities, s'.entities, s.now);
    ArchiveIs(FadedFact(cutoff), s.facts, s.now + 1);
    SameArchived(FadedFact(cutoff), (r: Row<Fact>) => !r.archived && r.body.salience < 0.35 && s.now - r.updatedAt > span,
      s.facts, s'.facts, s.now + 1);
    ArchiveIs(FadedTask(cutoff), s.tasks, s.now + 2);
    SameArchived(FadedTask(cutoff), (r: Row<Task>) => !r.archived && r.body.salience < 0.5 && r.body.status in {"done", "cancelled"}
                                                      && s.now - r.updatedAt > span, s.tasks, s'.tasks, s.now + 2);
  }

  lemma InitTriples(env: Env)
    ensures UniqueTriples(Init(env).relations)
  {
    var ref, s := "brain:baseline", EMPTY.(now := 4);
    var a := Relation("owns", env.ownerId, env.workspaceId, env.sourceNote(ref), 0.96);
    var b := Relation("belongs_to", env.workspaceId, env.projectId, env.sourceNote(ref), 0.94);
    var c := Relation("runs_in", env.projectId, env.runtimeId, env.sourceNote(ref), 0.93);
    var s1 := UpsertRelation(env, s, a);
    var s2 := UpsertRelation(env, s1, b);
    RelationWrites(env, s, a);
    RelationWrites(env, s1, b);
    RelationWrites(env, s2, c);
    assert Init(env).relations == UpsertRelation(env, s2, c).relations;
  }
}
