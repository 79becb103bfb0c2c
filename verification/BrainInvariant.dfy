/** What every brain operation keeps: primary keys, task floors, and the index that follows the rows. */
module BrainInvariant {
  import opened Options
  import opened Brain

  // ----- primary keys -----

  ghost predicate UniqueIds<T>(rows: seq<Row<T>>) {
    forall i, j :: 0 <= i < j < |rows| ==> rows[i].id != rows[j].id
  }

  ghost predicate UniqueKeys(index: seq<Entry>) {
    forall i, j :: 0 <= i < j < |index| ==> index[i].namespace != index[j].namespace || index[i].key != index[j].key
  }

  lemma {:induction false} KeepUnique<T>(p: Row<T> -> bool, rows: seq<Row<T>>)
    requires UniqueIds(rows)
    ensures UniqueIds(Keep(p, rows))
  {
    if rows != [] {
      KeepUnique(p, rows[1..]);
      KeepMembers(p, rows[1..]);
      var rest := Keep(p, rows[1..]);
      forall j | 0 <= j < |rest|
        ensures rest[j].id != rows[0].id
      {
        assert rest[j] in rows[1..];
      }
    }
  }

  lemma {:induction false} KeepUniqueKeys(p: Entry -> bool, index: seq<Entry>)
    requires UniqueKeys(index)
    ensures UniqueKeys(Keep(p, index))
  {
    if index != [] {
      KeepUniqueKeys(p, index[1..]);
      KeepMembers(p, index[1..]);
      var rest := Keep(p, index[1..]);
      forall j | 0 <= j < |rest|
        ensures rest[j].namespace != index[0].namespace || rest[j].key != index[0].key
      {
        assert rest[j] in rest;
        assert rest[j] in index[1..];
      }
    }
  }

  lemma PutUnique<T>(rows: seq<Row<T>>, row: Row<T>)
    requires UniqueIds(rows)
    ensures UniqueIds(Put(rows, row))
    ensures forall i :: 0 < i < |Put(rows, row)| ==> Put(rows, row)[i] in rows && Put(rows, row)[i].id != row.id
    ensures forall r :: r in rows && r.id != row.id ==> r in Put(rows, row)
  {
    var rest := Keep(OtherId(row.id), rows);
    KeepUnique(OtherId(row.id), rows);
    KeepMembers(OtherId(row.id), rows);
    forall j | 0 <= j < |rest|
      ensures rest[j].id != row.id
    {
      assert OtherId(row.id)(rest[j]);
    }
  }

  lemma PutEntryUnique(index: seq<Entry>, e: Entry)
    requires UniqueKeys(index)
    ensures UniqueKeys(PutEntry(index, e))
  {
    var other := OtherKey(e.namespace, e.key);
    KeepUniqueKeys(other, index);
    KeepMembers(other, index);
    assert forall j :: 0 <= j < |Keep(other, index)| ==> Keep(other, index)[j] in Keep(other, index);
  }

  /** A bulk archive keeps every row's id and body. */
  lemma ArchiveKeeps<T>(p: Row<T> -> bool, rows: seq<Row<T>>, now: int)
    requires UniqueIds(rows)
    ensures UniqueIds(Archive(p, rows, now))
    ensures SameBodies(rows, Archive(p, rows, now))
  {
    var hit, rest := Keep(p, rows), Keep(Not(p), rows);
    KeepUnique(p, rows);
    KeepUnique(Not(p), rows);
    KeepMembers(p, rows);
    KeepMembers(Not(p), rows);
    var marked, later := MarkArchived(hit, now), Archive(p, rows, now);
    forall i, j | 0 <= i < |marked| && 0 <= j < |rest|
      ensures marked[i].id != rest[j].id
    {
    }
    forall i | 0 <= i < |later|
      ensures HasBody(rows, later[i])
    {
      var was := if i < |hit| then hit[i] else rest[i - |hit|];
      var j :| 0 <= j < |rows| && rows[j] == was;
    }
  }

  function Marked<T>(p: Row<T> -> bool, r: Row<T>, now: int): Row<T> {
    if p(r) then r.(archived := true, updatedAt := now) else r
  }

  /** Exactly the rows that `p` picked are archived now; every row keeps its id and body, none is lost. */
  ghost predicate ArchivedExactly<T>(p: Row<T> -> bool, before: seq<Row<T>>, after: seq<Row<T>>, now: int) {
    && |after| == |before|
    && forall b: Row<T> :: b in before ==> Marked(p, b, now) in after
  }

  lemma {:induction false} KeepParts<T>(p: T -> bool, xs: seq<T>)
    ensures |Keep(p, xs)| + |Keep(Not(p), xs)| == |xs|
  {
    if xs != [] {
      KeepParts(p, xs[1..]);
    }
  }

  lemma ArchiveIs<T>(p: Row<T> -> bool, rows: seq<Row<T>>, now: int)
    ensures ArchivedExactly(p, rows, Archive(p, rows, now), now)
  {
    var hit, rest := Keep(p, rows), Keep(Not(p), rows);
    KeepParts(p, rows);
    KeepMembers(p, rows);
    KeepMembers(Not(p), rows);
    forall b | b in rows
      ensures Marked(p, b, now) in Archive(p, rows, now)
    {
      if p(b) {
        var i :| 0 <= i < |hit| && hit[i] == b;
        assert MarkArchived(hit, now)[i] == Marked(p, b, now);
      } else {
        assert b in rest;
      }
    }
  }

  // ----- lookups -----

  lemma {:induction false} LookupKeep(p: Entry -> bool, index: seq<Entry>, namespace: string, key: string)
    requires forall x: Entry :: x.namespace == namespace && x.key == key ==> p(x)
    ensures Lookup(Keep(p, index), namespace, key) == Lookup(index, namespace, key)
  {
    if index != [] {
      LookupKeep(p, index[1..], namespace, key);
      var rest := Keep(p, index[1..]);
      assert ([index[0]] + rest)[1..] == rest;
    }
  }

  lemma LookupPut(index: seq<Entry>, e: Entry, namespace: string, key: string)
    ensures Lookup(PutEntry(index, e), namespace, key)
            == if e.namespace == namespace && e.key == key then Some(e.text) else Lookup(index, namespace, key)
  {
    if e.namespace != namespace || e.key != key {
      LookupKeep(OtherKey(e.namespace, e.key), index, namespace, key);
      assert PutEntry(index, e)[1..] == DropEntry(index, e.namespace, e.key);
    }
  }

  lemma LookupDrop(index: seq<Entry>, dropped: string, id: string, namespace: string, key: string)
    ensures Lookup(DropEntry(index, dropped, id), namespace, key)
            == if dropped == namespace && id == key then None else Lookup(index, namespace, key)
  {
    if dropped == namespace && id == key {
      LookupGone(index, dropped, id);
    } else {
      LookupKeep(OtherKey(dropped, id), index, namespace, key);
    }
  }

  lemma {:induction false} LookupGone(index: seq<Entry>, namespace: string, key: string)
    ensures Lookup(DropEntry(index, namespace, key), namespace, key) == None
  {
    if index != [] {
      LookupGone(index[1..], namespace, key);
      var rest := DropEntry(index[1..], namespace, key);
      assert ([index[0]] + rest)[1..] == rest;
    }
  }

  // ----- the index follows the rows -----

  ghost predicate Covered<T>(rows: seq<Row<T>>, index: seq<Entry>, namespace: string, text: T -> string) {
    forall i :: 0 <= i < |rows| ==> Lookup(index, namespace, rows[i].id) == Some(text(rows[i].body))
  }

  function TaskProjection(env: Env): Task -> string {
    (t: Task) => TaskText(env, t)
  }

  /** Every entity, fact and task row, archived or not, has an index entry under its id whose text is
      the projection of its current fields. */
  ghost predicate Indexed(env: Env, s: Store) {
    && Covered(s.entities, s.index, "brain-entities", EntityText)
    && Covered(s.facts, s.index, "brain-facts", FactText)
    && Covered(s.tasks, s.index, "brain-tasks", TaskProjection(env))
  }

  lemma PutCovered<T>(rows: seq<Row<T>>, index: seq<Entry>, namespace: string, text: T -> string, row: Row<T>)
    requires UniqueIds(rows) && Covered(rows, index, namespace, text)
    ensures Covered(Put(rows, row), PutEntry(index, Entry(namespace, row.id, text(row.body))), namespace, text)
  {
    var rows', entry := Put(rows, row), Entry(namespace, row.id, text(row.body));
    PutUnique(rows, row);
    forall i | 0 <= i < |rows'|
      ensures Lookup(PutEntry(index, entry), namespace, rows'[i].id) == Some(text(rows'[i].body))
    {
      LookupPut(index, entry, namespace, rows'[i].id);
      if i > 0 {
        var j :| 0 <= j < |rows| && rows[j] == rows'[i];
      }
    }
  }

  /** Writing under another namespace disturbs nothing. */
  lemma OtherCovered<T>(rows: seq<Row<T>>, index: seq<Entry>, namespace: string, text: T -> string, e: Entry)
    requires Covered(rows, index, namespace, text) && e.namespace != namespace
    ensures Covered(rows, PutEntry(index, e), namespace, text)
  {
    forall i | 0 <= i < |rows|
      ensures Lookup(PutEntry(index, e), namespace, rows[i].id) == Some(text(rows[i].body))
    {
      LookupPut(index, e, namespace, rows[i].id);
    }
  }

  lemma OtherIndexed(env: Env, s: Store, e: Entry)
    requires Indexed(env, s)
    requires e.namespace != "brain-entities" && e.namespace != "brain-facts" && e.namespace != "brain-tasks"
    ensures Indexed(env, s.(index := PutEntry(s.index, e)))
  {
    OtherCovered(s.entities, s.index, "brain-entities", EntityText, e);
    OtherCovered(s.facts, s.index, "brain-facts", FactText, e);
    OtherCovered(s.tasks, s.index, "brain-tasks", TaskProjection(env), e);
  }

  /** Every row of `later` has an id and a body that some row of `rows` has. */
  ghost predicate SameBodies<T>(rows: seq<Row<T>>, later: seq<Row<T>>) {
    forall i :: 0 <= i < |later| ==> HasBody(rows, later[i])
  }

  ghost predicate HasBody<T>(rows: seq<Row<T>>, r: Row<T>) {
    exists j :: 0 <= j < |rows| && rows[j].id == r.id && rows[j].body == r.body
  }

  lemma BodiesCovered<T>(rows: seq<Row<T>>, rows': seq<Row<T>>, index: seq<Entry>, namespace: string, text: T -> string)
    requires Covered(rows, index, namespace, text)
    requires SameBodies(rows, rows')
    ensures Covered(rows', index, namespace, text)
  {
    forall i | 0 <= i < |rows'|
      ensures Lookup(index, namespace, rows'[i].id) == Some(text(rows'[i].body))
    {
      assert HasBody(rows, rows'[i]);
    }
  }

  // ----- task floors -----

  predicate TaskFloor(t: Task) {
    && t.salience >= 0.45
    && t.confidence >= 0.72
    && (t.status == "blocked" ==> t.salience == 0.8 && t.confidence == 0.95)
  }

  ghost predicate Floors(rows: seq<Row<Task>>) {
    forall i :: 0 <= i < |rows| ==> TaskFloor(rows[i].body)
  }

  // ----- the invariant and the single writes -----

  ghost predicate Sound(s: Store) {
    && UniqueIds(s.entities) && UniqueIds(s.facts) && UniqueIds(s.tasks) && UniqueKeys(s.index)
    && Floors(s.tasks)
  }

  /** `Sound` always, and `Indexed` as well when `full`. */
  ghost predicate Good(env: Env, full: bool, s: Store) {
    Sound(s) && (full ==> Indexed(env, s))
  }

  lemma KeepEntity(env: Env, full: bool, s: Store, id: string, e: Entity)
    requires Good(env, full, s)
    ensures Good(env, full, UpsertEntity(s, id, e))
  {
    var row, entry := Row(id, false, s.now, e), Entry("brain-entities", id, EntityText(e));
    PutUnique(s.entities, row);
    PutEntryUnique(s.index, entry);
    if full {
      PutCovered(s.entities, s.index, "brain-entities", EntityText, row);
      OtherCovered(s.facts, s.index, "brain-facts", FactText, entry);
      OtherCovered(s.tasks, s.index, "brain-tasks", TaskProjection(env), entry);
    }
  }

  lemma KeepFact(env: Env, full: bool, s: Store, id: string, f: Fact)
    requires Good(env, full, s)
    ensures Good(env, full, UpsertFact(s, id, f))
  {
    var row, entry := Row(id, false, s.now, f), Entry("brain-facts", id, FactText(f));
    PutUnique(s.facts, row);
    PutEntryUnique(s.index, entry);
    if full {
      OtherCovered(s.entities, s.index, "brain-entities", EntityText, entry);
      PutCovered(s.facts, s.index, "brain-facts", FactText, row);
      OtherCovered(s.tasks, s.index, "brain-tasks", TaskProjection(env), entry);
    }
  }

  lemma KeepTask(env: Env, full: bool, s: Store, id: string, t: Task)
    requires Good(env, full, s) && TaskFloor(t)
    ensures Good(env, full, UpsertTask(env, s, id, t))
  {
    var row, entry := Row(id, false, s.now, t), Entry("brain-tasks", id, TaskText(env, t));
    PutUnique(s.tasks, row);
    PutEntryUnique(s.index, entry);
    var mid := s.(tasks := Put(s.tasks, row), index := PutEntry(s.index, entry));
    if full {
      OtherCovered(s.entities, s.index, "brain-entities", EntityText, entry);
      OtherCovered(s.facts, s.index, "brain-facts", FactText, entry);
      PutCovered(s.tasks, s.index, "brain-tasks", TaskProjection(env), row);
    }
    KeepSuggestion(env, full, mid, Entry("brain-suggestions", "suggestion:" + id, t.summary + " " + t.priority));
  }

  lemma KeepSuggestion(env: Env, full: bool, s: Store, e: Entry)
    requires Good(env, full, s)
    requires full ==> e.namespace != "brain-entities" && e.namespace != "brain-facts" && e.namespace != "brain-tasks"
    ensures Good(env, full, s.(index := PutEntry(s.index, e)))
  {
    PutEntryUnique(s.index, e);
    if full {
      OtherIndexed(env, s, e);
    }
  }

  /** Relations and the clock are outside the invariant. */
  lemma KeepElsewhere(env: Env, full: bool, s: Store, s': Store)
    requires Good(env, full, s)
    requires s'.entities == s.entities && s'.facts == s.facts && s'.tasks == s.tasks && s'.index == s.index
    ensures Good(env, full, s')
  {
  }

  /** Rows may disappear, be archived and change order, as long as ids keep their bodies. */
  lemma KeepBodies(env: Env, full: bool, s: Store, s': Store)
    requires Good(env, full, s) && s'.index == s.index
    requires UniqueIds(s'.entities) && UniqueIds(s'.facts) && UniqueIds(s'.tasks)
    requires SameBodies(s.entities, s'.entities)
    requires SameBodies(s.facts, s'.facts)
    requires SameBodies(s.tasks, s'.tasks)
    ensures Good(env, full, s')
  {
    if full {
      BodiesCovered(s.entities, s'.entities, s.index, "brain-entities", EntityText);
      BodiesCovered(s.facts, s'.facts, s.index, "brain-facts", FactText);
      BodiesCovered(s.tasks, s'.tasks, s.index, "brain-tasks", TaskProjection(env));
    }
  }

  lemma KeepRetain(env: Env, full: bool, s: Store)
    requires Good(env, full, s)
    ensures Good(env, full, Retain(env, s))
  {
    var cutoff := Cutoff(env, s.now);
    ArchiveKeeps(FadedEntity(cutoff), s.entities, s.now);
    ArchiveKeeps(FadedFact(cutoff), s.facts, s.now + 1);
    ArchiveKeeps(FadedTask(cutoff), s.tasks, s.now + 2);
    KeepBodies(env, full, s, Retain(env, s));
  }
}
