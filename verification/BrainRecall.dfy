/** Multi-stage bounded recall, as loops over hits and relations, and what its result promises. */
module BrainRecall {
  import opened Text
  import opened Ranking
  import opened Brain
  import opened BrainInvariant
  import opened BrainRuns

  datatype RecallResult = RecallResult(
    entities: seq<Row<Entity>>, facts: seq<Row<Fact>>, relations: seq<Row<Relation>>, tasks: seq<Row<Task>>,
    summary: string)

  /** `build_recall_summary`, from the numbers of entities, facts and tasks. */
  function RecallSummary(entities: nat, facts: nat, tasks: nat): string {
    var parts :=
      (if entities == 0 then [] else [Decimal(entities) + " entities"])
      + (if facts == 0 then [] else [Decimal(facts) + " facts"])
      + (if tasks == 0 then [] else [Decimal(tasks) + " tasks"]);
    if parts == [] then "no relevant brain context found" else "matched " + Join(", ", parts)
  }

  /** The listed rows that ranked hits name, in hit order. */
  function Resolve<T>(rows: seq<Row<T>>, hits: seq<Entry>): seq<Row<T>> {
    if hits == [] then []
    else
      var found, before := Find(rows, hits[|hits| - 1].key), Resolve(rows, hits[..|hits| - 1]);
      if found.Some? then before + [found.value] else before
  }

  function EntityInScope(env: Env, scope: string): Row<Entity> -> bool {
    (r: Row<Entity>) => ScopeMatches(env, r.body.scope, scope)
  }

  function FactInScope(env: Env, scope: string): Row<Fact> -> bool {
    (r: Row<Fact>) => ScopeMatches(env, r.body.scope, scope)
  }

  function TaskInScope(env: Env, scope: string): Row<Task> -> bool {
    (r: Row<Task>) => ScopeMatches(env, r.body.scope, scope)
  }

  /** The first `limit` hits that are listed and pass `p`. */
  function Matched<T>(p: Row<T> -> bool, rows: seq<Row<T>>, hits: seq<Entry>, limit: nat): seq<Row<T>> {
    Take(Keep(p, Resolve(rows, hits)), limit)
  }

  lemma {:induction false} KeepAppend<T>(p: T -> bool, xs: seq<T>, x: T)
    ensures Keep(p, xs + [x]) == Keep(p, xs) + if p(x) then [x] else []
  {
    if xs == [] {
      assert xs + [x] == [x];
      assert Keep(p, [x][1..]) == [];
    } else {
      KeepAppend(p, xs[1..], x);
      assert (xs + [x])[1..] == xs[1..] + [x];
    }
  }

  /** One more hit adds its row if there is room and it is listed and passes. */
  lemma MatchedNext<T>(p: Row<T> -> bool, rows: seq<Row<T>>, hits: seq<Entry>, i: nat, limit: nat)
    requires i < |hits|
    ensures var found := Find(rows, hits[i].key);
            Matched(p, rows, hits[..i + 1], limit)
            == Matched(p, rows, hits[..i], limit)
               + if |Matched(p, rows, hits[..i], limit)| < limit && found.Some? && p(found.value) then [found.value] else []
  {
    assert hits[..i + 1][..i] == hits[..i];
    var found := Find(rows, hits[i].key);
    if found.Some? {
      KeepAppend(p, Resolve(rows, hits[..i]), found.value);
    }
  }

  /** Once full, further hits change nothing. */
  lemma {:induction false} MatchedFull<T>(p: Row<T> -> bool, rows: seq<Row<T>>, hits: seq<Entry>, i: nat, limit: nat)
    requires i <= |hits| && |Matched(p, rows, hits[..i], limit)| >= limit
    ensures Matched(p, rows, hits, limit) == Matched(p, rows, hits[..i], limit)
    decreases |hits| - i
  {
    if i == |hits| {
      assert hits[..i] == hits;
    } else {
      MatchedNext(p, rows, hits, i, limit);
      MatchedFull(p, rows, hits, i + 1, limit);
    }
  }

  lemma {:induction false} FindIs<T>(rows: seq<Row<T>>, id: string)
    ensures Find(rows, id).Some? <==> HasId(rows, id)
    ensures Find(rows, id).Some? ==> Find(rows, id).value in rows && Find(rows, id).value.id == id
  {
    if rows != [] {
      FindIs(rows[1..], id);
      assert rows == [rows[0]] + rows[1..];
      if HasId(rows, id) && rows[0].id != id {
        var i :| 0 <= i < |rows| && rows[i].id == id;
        assert rows[1..][i - 1].id == id;
      }
      if HasId(rows[1..], id) {
        var i :| 0 <= i < |rows[1..]| && rows[1..][i].id == id;
        assert rows[i + 1].id == id;
      }
    }
  }

  /** Everything matched is listed, passes, and is named by some hit. */
  lemma {:induction false} MatchedSound<T>(p: Row<T> -> bool, rows: seq<Row<T>>, hits: seq<Entry>, limit: nat)
    ensures |Matched(p, rows, hits, limit)| <= limit
    ensures forall k :: 0 <= k < |Matched(p, rows, hits, limit)| ==>
              var r := Matched(p, rows, hits, limit)[k];
              r in rows && p(r) && exists h :: 0 <= h < |hits| && hits[h].key == r.id
  {
    if hits == [] {
      assert Keep(p, Resolve(rows, hits)) == [];
    } else {
      var n := |hits| - 1;
      MatchedSound(p, rows, hits[..n], limit);
      MatchedNext(p, rows, hits, n, limit);
      FindIs(rows, hits[n].key);
      assert hits[..n + 1] == hits;
      var before := Matched(p, rows, hits[..n], limit);
      forall k | 0 <= k < |Matched(p, rows, hits, limit)|
        ensures var r := Matched(p, rows, hits, limit)[k];
                r in rows && p(r) && exists h :: 0 <= h < |hits| && hits[h].key == r.id
      {
        if k < |before| {
          var h :| 0 <= h < n && hits[..n][h].key == before[k].id;
          assert hits[h].key == before[k].id;
        } else {
          assert hits[n].key == Matched(p, rows, hits, limit)[k].id;
        }
      }
    }
  }

  ghost predicate DistinctKeys(hits: seq<Entry>) {
    forall i, j :: 0 <= i < j < |hits| ==> hits[i].key != hits[j].key
  }

  lemma {:induction false} MatchedUnique<T>(p: Row<T> -> bool, rows: seq<Row<T>>, hits: seq<Entry>, limit: nat)
    requires DistinctKeys(hits)
    ensures UniqueIds(Matched(p, rows, hits, limit))
  {
    if hits == [] {
      assert Keep(p, Resolve(rows, hits)) == [];
    } else {
      var n := |hits| - 1;
      MatchedUnique(p, rows, hits[..n], limit);
      MatchedSound(p, rows, hits[..n], limit);
      MatchedNext(p, rows, hits, n, limit);
      FindIs(rows, hits[n].key);
      assert hits[..n + 1] == hits;
      var before := Matched(p, rows, hits[..n], limit);
      forall k | 0 <= k < |before|
        ensures before[k].id != hits[n].key
      {
        var h :| 0 <= h < n && hits[..n][h].key == before[k].id;
        assert hits[h].key != hits[n].key;
      }
    }
  }

  /** The hits of one namespace never name a key twice. */
  lemma HitsDistinct(env: Env, index: seq<Entry>, namespace: string, query: string, limit: nat)
    requires UniqueKeys(index)
    ensures DistinctKeys(QueryMemory(env, index, namespace, query, limit))
  {
    var kept := Keep(InNamespace(namespace), index);
    KeepUniqueKeys(InNamespace(namespace), index);
    KeepMembers(InNamespace(namespace), index);
    var rows := MemoryRows(index, namespace);
    forall i, j | 0 <= i < j < |rows|
      ensures rows[i].key != rows[j].key
    {
      assert rows[i] == kept[i] && rows[j] == kept[j];
    }
    TopKIsTopK(MemoryScores(env, query, rows), AtLeastOne(limit));
    var order := TopK(MemoryScores(env, query, rows), AtLeastOne(limit));
    forall i, j | 0 <= i < j < |order|
      ensures rows[order[i]].key != rows[order[j]].key
    {
      assert Before(MemoryScores(env, query, rows), order[i], order[j]);
      assert order[i] < order[j] || order[j] < order[i];
    }
  }

  // ----- adding neighbours while there is room -----

  function AddEntity(es: seq<Row<Entity>>, got: seq<Row<Entity>>, id: string, limit: nat): seq<Row<Entity>> {
    var found := Find(es, id);
    if found.Some? && !HasId(got, found.value.id) && |got| < limit then got + [found.value] else got
  }

  /** A result list under construction: listed rows, no id twice, within the limit. */
  ghost predicate Building(es: seq<Row<Entity>>, direct: seq<Row<Entity>>, got: seq<Row<Entity>>, limit: nat) {
    && direct <= got
    && |got| <= limit
    && UniqueIds(got)
    && forall k :: 0 <= k < |got| ==> got[k] in es
  }

  /** If the list ended with room to spare, a listed `id` is in it. */
  ghost predicate Reached(es: seq<Row<Entity>>, got: seq<Row<Entity>>, id: string, limit: nat) {
    |got| < limit && HasId(es, id) ==> HasId(got, id)
  }

  lemma AddKeeps(es: seq<Row<Entity>>, direct: seq<Row<Entity>>, got: seq<Row<Entity>>, id: string, limit: nat)
    requires Building(es, direct, got, limit)
    ensures Building(es, direct, AddEntity(es, got, id, limit), limit)
    ensures Reached(es, AddEntity(es, got, id, limit), id, limit)
    ensures forall other :: Reached(es, got, other, limit) ==> Reached(es, AddEntity(es, got, id, limit), other, limit)
  {
    FindIs(es, id);
    var later := AddEntity(es, got, id, limit);
    forall other | HasId(got, other)
      ensures HasId(later, other)
    {
      var k :| 0 <= k < |got| && got[k].id == other;
      assert later[k].id == other;
    }
    if later != got {
      assert later[|got|].id == id;
    }
  }

  /** The entities of these ids, added in order. */
  function AddAll(es: seq<Row<Entity>>, got: seq<Row<Entity>>, ids: seq<string>, limit: nat): seq<Row<Entity>> {
    if ids == [] then got
    else AddEntity(es, AddAll(es, got, ids[..|ids| - 1], limit), ids[|ids| - 1], limit)
  }

  lemma AddNext(es: seq<Row<Entity>>, got: seq<Row<Entity>>, ids: seq<string>, id: string, limit: nat)
    ensures AddAll(es, got, ids + [id], limit) == AddEntity(es, AddAll(es, got, ids, limit), id, limit)
  {
    assert (ids + [id])[..|ids|] == ids;
  }

  lemma {:induction false} AllAdded(es: seq<Row<Entity>>, direct: seq<Row<Entity>>, got: seq<Row<Entity>>, ids: seq<string>, limit: nat)
    requires Building(es, direct, got, limit)
    ensures var later := AddAll(es, got, ids, limit);
            && Building(es, direct, later, limit)
            && (forall id :: id in ids || Reached(es, got, id, limit) ==> Reached(es, later, id, limit))
            && (forall k :: 0 <= k < |later| ==> later[k] in got || later[k].id in ids)
  {
    if ids != [] {
      var n := |ids| - 1;
      AllAdded(es, direct, got, ids[..n], limit);
      AddKeeps(es, direct, AddAll(es, got, ids[..n], limit), ids[n], limit);
      FindIs(es, ids[n]);
      assert ids == ids[..n] + [ids[n]];
    }
  }

  function OwnerIds(facts: seq<Row<Fact>>): (r: seq<string>)
    ensures |r| == |facts| && forall k :: 0 <= k < |r| ==> r[k] == facts[k].body.entityId
  {
    seq(|facts|, k requires 0 <= k < |facts| => facts[k].body.entityId)
  }

  function Owners(facts: seq<Row<Fact>>): set<string> {
    set k | 0 <= k < |facts| :: facts[k].body.entityId
  }

  lemma OwnersAppend(facts: seq<Row<Fact>>, f: Row<Fact>)
    ensures Owners(facts + [f]) == Owners(facts) + {f.body.entityId}
  {
    var more := facts + [f];
    assert more[|facts|] == f;
    assert forall k :: 0 <= k < |facts| ==> more[k] == facts[k];
  }

  function EntityIds(rows: seq<Row<Entity>>): set<string> {
    set k | 0 <= k < |rows| :: rows[k].id
  }

  lemma EntityIdsAppend(rows: seq<Row<Entity>>, r: Row<Entity>)
    ensures EntityIds(rows + [r]) == EntityIds(rows) + {r.id}
  {
    var more := rows + [r];
    assert more[|rows|] == r;
    assert forall k :: 0 <= k < |rows| ==> more[k] == rows[k];
  }

  /** The ids tasks select: their own and those they link to. */
  function TaskSelection(env: Env, tasks: seq<Row<Task>>): set<string> {
    if tasks == [] then {}
    else
      var t := tasks[|tasks| - 1];
      TaskSelection(env, tasks[..|tasks| - 1]) + {t.id} + (set id | id in env.parseLinks(t.body.links))
  }

  predicate Selects(selected: set<string>, rel: Relation) {
    rel.fromId in selected || rel.toId in selected
  }

  function SelectsRow(selected: set<string>): Row<Relation> -> bool {
    (r: Row<Relation>) => Selects(selected, r.body)
  }

  // ----- the stages -----

  method MatchEntities(env: Env, es: seq<Row<Entity>>, hits: seq<Entry>, scope: string, limit: nat)
    returns (got: seq<Row<Entity>>, selected: set<string>)
    requires DistinctKeys(hits)
    ensures got == Matched(EntityInScope(env, scope), es, hits, limit)
    ensures selected == EntityIds(got)
    ensures Building(es, got, got, limit)
  {
    got, selected := [], {};
    ghost var p := EntityInScope(env, scope);
    var i := 0;
    while i < |hits| && |got| < limit
      invariant i <= |hits|
      invariant got == Matched(p, es, hits[..i], limit)
      invariant selected == EntityIds(got)
    {
      MatchedNext(p, es, hits, i, limit);
      var found := Find(es, hits[i].key);
      if found.Some? && ScopeMatches(env, found.value.body.scope, scope) {
        EntityIdsAppend(got, found.value);
        got := got + [found.value];
        selected := selected + {found.value.id};
      }
      i := i + 1;
    }
    if i < |hits| {
      MatchedFull(p, es, hits, i, limit);
    } else {
      assert hits[..i] == hits;
    }
    MatchedSound(p, es, hits, limit);
    MatchedUnique(p, es, hits, limit);
  }

  lemma OwnerNext(es: seq<Row<Entity>>, direct: seq<Row<Entity>>, facts: seq<Row<Fact>>, f: Row<Fact>, limit: nat)
    ensures AddAll(es, direct, OwnerIds(facts + [f]), limit)
            == AddEntity(es, AddAll(es, direct, OwnerIds(facts), limit), f.body.entityId, limit)
    ensures Owners(facts + [f]) == Owners(facts) + {f.body.entityId}
  {
    AddNext(es, direct, OwnerIds(facts), f.body.entityId, limit);
    assert OwnerIds(facts + [f]) == OwnerIds(facts) + [f.body.entityId];
    OwnersAppend(facts, f);
  }

  method MatchFacts(env: Env, es: seq<Row<Entity>>, fs: seq<Row<Fact>>, hits: seq<Entry>, scope: string, limit: nat,
                    direct: seq<Row<Entity>>, chosen: set<string>)
    returns (facts: seq<Row<Fact>>, got: seq<Row<Entity>>, selected: set<string>)
    ensures facts == Matched(FactInScope(env, scope), fs, hits, limit)
    ensures selected == chosen + Owners(facts)
    ensures got == AddAll(es, direct, OwnerIds(facts), limit)
  {
    facts, got, selected := [], direct, chosen;
    ghost var p := FactInScope(env, scope);
    var i := 0;
    while i < |hits| && |facts| < limit
      invariant i <= |hits|
      invariant facts == Matched(p, fs, hits[..i], limit)
      invariant selected == chosen + Owners(facts)
      invariant got == AddAll(es, direct, OwnerIds(facts), limit)
    {
      MatchedNext(p, fs, hits, i, limit);
      var found := Find(fs, hits[i].key);
      if found.Some? && ScopeMatches(env, found.value.body.scope, scope) {
        var owner := found.value.body.entityId;
        OwnerNext(es, direct, facts, found.value, limit);
        facts := facts + [found.value];
        selected := selected + {owner};
        got := AddEntity(es, got, owner, limit);
      }
      i := i + 1;
    }
    if i < |hits| {
      MatchedFull(p, fs, hits, i, limit);
    } else {
      assert hits[..i] == hits;
    }
  }

  method MatchTasks(env: Env, ts: seq<Row<Task>>, hits: seq<Entry>, scope: string, limit: nat, chosen: set<string>)
    returns (tasks: seq<Row<Task>>, selected: set<string>)
    ensures tasks == Matched(TaskInScope(env, scope), ts, hits, limit)
    ensures selected == chosen + TaskSelection(env, tasks)
  {
    tasks, selected := [], chosen;
    ghost var p := TaskInScope(env, scope);
    var i := 0;
    while i < |hits| && |tasks| < limit
      invariant i <= |hits|
      invariant tasks == Matched(p, ts, hits[..i], limit)
      invariant selected == chosen + TaskSelection(env, tasks)
    {
      MatchedNext(p, ts, hits, i, limit);
      var found := Find(ts, hits[i].key);
      if found.Some? && ScopeMatches(env, found.value.body.scope, scope) {
        tasks := tasks + [found.value];
        selected := selected + {found.value.id} + (set id | id in env.parseLinks(found.value.body.links));
      }
      i := i + 1;
    }
    if i < |hits| {
      MatchedFull(p, ts, hits, i, limit);
    } else {
      assert hits[..i] == hits;
    }
  }

  /** Both ends of every relation among the first `n` that touches a selected id. */
  function Ends(rs: seq<Row<Relation>>, selected: set<string>, n: nat): seq<string>
    requires n <= |rs|
  {
    if n == 0 then []
    else if !Selects(selected, rs[n - 1].body) then Ends(rs, selected, n - 1)
    else Ends(rs, selected, n - 1) + [rs[n - 1].body.fromId] + [rs[n - 1].body.toId]
  }

  lemma {:induction false} EndsAre(rs: seq<Row<Relation>>, selected: set<string>, n: nat)
    requires n <= |rs|
    ensures forall id :: id in Ends(rs, selected, n)
              <==> exists k :: 0 <= k < n && Selects(selected, rs[k].body) && (rs[k].body.fromId == id || rs[k].body.toId == id)
  {
    if n > 0 {
      EndsAre(rs, selected, n - 1);
      var rel := rs[n - 1].body;
      forall id
        ensures id in Ends(rs, selected, n)
                <==> id in Ends(rs, selected, n - 1) || (Selects(selected, rel) && (rel.fromId == id || rel.toId == id))
      {
      }
    }
  }

  method ExpandRelations(es: seq<Row<Entity>>, rs: seq<Row<Relation>>, selected: set<string>, limit: nat, start: seq<Row<Entity>>)
    returns (got: seq<Row<Entity>>)
    ensures got == AddAll(es, start, Ends(rs, selected, |rs|), limit)
  {
    got := start;
    for i := 0 to |rs|
      invariant got == AddAll(es, start, Ends(rs, selected, i), limit)
    {
      if Selects(selected, rs[i].body) {
        got := AddEntity(es, got, rs[i].body.fromId, limit);
        got := AddEntity(es, got, rs[i].body.toId, limit);
      }
    }
  }

  /** How a recall result is joined from listed rows and ranked hits. */
  ghost predicate Joined(env: Env, es: seq<Row<Entity>>, fs: seq<Row<Fact>>, ts: seq<Row<Task>>, rs: seq<Row<Relation>>,
                         entityHits: seq<Entry>, factHits: seq<Entry>, taskHits: seq<Entry>,
                         scope: string, limit: nat, r: RecallResult, selected: set<string>)
  {
    var direct := Matched(EntityInScope(env, scope), es, entityHits, limit);
    && r.facts == Matched(FactInScope(env, scope), fs, factHits, limit)
    && r.tasks == Matched(TaskInScope(env, scope), ts, taskHits, limit)
    && selected == EntityIds(direct) + Owners(r.facts) + TaskSelection(env, r.tasks)
    && r.relations == Take(Keep(SelectsRow(selected), rs), limit * 2)
    && r.entities == AddAll(es, AddAll(es, direct, OwnerIds(r.facts), limit), Ends(rs, selected, |rs|), limit)
    && r.summary == RecallSummary(|r.entities|, |r.facts|, |r.tasks|)
  }

  /** The result of `recall` on a store that retention has just passed over. */
  ghost predicate Recalled(env: Env, s: Store, query: string, scope: string, limit: nat, includeArchived: bool,
                           r: RecallResult, selected: set<string>)
  {
    Joined(env, Listed(s.entities, includeArchived), Listed(s.facts, includeArchived), Listed(s.tasks, false),
           Listed(s.relations, includeArchived),
           QueryMemory(env, s.index, "brain-entities", query, limit * 3),
           QueryMemory(env, s.index, "brain-facts", query, limit * 3),
           QueryMemory(env, s.index, "brain-tasks", query, limit * 3),
           scope, limit, r, selected)
  }

  /** The three stages that fill the entity list, together. */
  lemma EntitiesOf(env: Env, es: seq<Row<Entity>>, entityHits: seq<Entry>, facts: seq<Row<Fact>>, rs: seq<Row<Relation>>,
                   scope: string, limit: nat, selected: set<string>)
    requires DistinctKeys(entityHits)
    ensures var direct := Matched(EntityInScope(env, scope), es, entityHits, limit);
            var got := AddAll(es, AddAll(es, direct, OwnerIds(facts), limit), Ends(rs, selected, |rs|), limit);
            && Building(es, direct, got, limit)
            && (forall id :: id in OwnerIds(facts) || id in Ends(rs, selected, |rs|) ==> Reached(es, got, id, limit))
            && (forall k :: 0 <= k < |got| ==>
                  got[k] in direct || got[k].id in OwnerIds(facts) || got[k].id in Ends(rs, selected, |rs|))
  {
    var p := EntityInScope(env, scope);
    var direct := Matched(p, es, entityHits, limit);
    MatchedSound(p, es, entityHits, limit);
    MatchedUnique(p, es, entityHits, limit);
    AllAdded(es, direct, direct, OwnerIds(facts), limit);
    AllAdded(es, direct, AddAll(es, direct, OwnerIds(facts), limit), Ends(rs, selected, |rs|), limit);
  }

  /** Some hit names the id. */
  ghost predicate Named(hits: seq<Entry>, id: string) {
    exists h :: 0 <= h < |hits| && hits[h].key == id
  }

  ghost predicate Touches(rs: seq<Row<Relation>>, selected: set<string>, id: string) {
    exists j :: 0 <= j < |rs| && Selects(selected, rs[j].body) && (rs[j].body.fromId == id || rs[j].body.toId == id)
  }

  /** At most `limit` listed entities, none twice, each a hit in scope, the owner of a returned fact, or
      an end of a relation that touches a selected id. */
  ghost predicate EntitiesSound(env: Env, es: seq<Row<Entity>>, hits: seq<Entry>, facts: seq<Row<Fact>>, rs: seq<Row<Relation>>,
                                scope: string, limit: nat, selected: set<string>, got: seq<Row<Entity>>)
  {
    && |got| <= limit && UniqueIds(got)
    && forall k :: 0 <= k < |got| ==>
         && got[k] in es
         && ((Named(hits, got[k].id) && ScopeMatches(env, got[k].body.scope, scope))
             || got[k].id in OwnerIds(facts) || Touches(rs, selected, got[k].id))
  }

  /** At most `limit` listed facts and tasks, all hits in scope, and `2 * limit` listed relations that touch a selected id. */
  ghost predicate OthersSound(env: Env, fs: seq<Row<Fact>>, ts: seq<Row<Task>>, rs: seq<Row<Relation>>,
                              factHits: seq<Entry>, taskHits: seq<Entry>, scope: string, limit: nat, r: RecallResult, selected: set<string>)
  {
    && |r.facts| <= limit && |r.tasks| <= limit && |r.relations| <= 2 * limit
    && (forall k :: 0 <= k < |r.facts| ==>
          r.facts[k] in fs && Named(factHits, r.facts[k].id) && ScopeMatches(env, r.facts[k].body.scope, scope))
    && (forall k :: 0 <= k < |r.tasks| ==>
          r.tasks[k] in ts && Named(taskHits, r.tasks[k].id) && ScopeMatches(env, r.tasks[k].body.scope, scope))
    && (forall k :: 0 <= k < |r.relations| ==> r.relations[k] in rs && Selects(selected, r.relations[k].body))
  }

  lemma EntitiesAreSound(env: Env, es: seq<Row<Entity>>, entityHits: seq<Entry>, facts: seq<Row<Fact>>, rs: seq<Row<Relation>>,
                         scope: string, limit: nat, selected: set<string>, got: seq<Row<Entity>>)
    requires DistinctKeys(entityHits)
    requires got == AddAll(es, AddAll(es, Matched(EntityInScope(env, scope), es, entityHits, limit), OwnerIds(facts), limit),
                           Ends(rs, selected, |rs|), limit)
    ensures EntitiesSound(env, es, entityHits, facts, rs, scope, limit, selected, got)
  {
    EntitiesOf(env, es, entityHits, facts, rs, scope, limit, selected);
    MatchedSound(EntityInScope(env, scope), es, entityHits, limit);
    EndsAre(rs, selected, |rs|);
  }

  lemma OthersAreSound(env: Env, fs: seq<Row<Fact>>, ts: seq<Row<Task>>, rs: seq<Row<Relation>>,
                       factHits: seq<Entry>, taskHits: seq<Entry>, scope: string, limit: nat, r: RecallResult, selected: set<string>)
    requires r.facts == Matched(FactInScope(env, scope), fs, factHits, limit)
    requires r.tasks == Matched(TaskInScope(env, scope), ts, taskHits, limit)
    requires r.relations == Take(Keep(SelectsRow(selected), rs), limit * 2)
    ensures OthersSound(env, fs, ts, rs, factHits, taskHits, scope, limit, r, selected)
  {
    MatchedSound(FactInScope(env, scope), fs, factHits, limit);
    MatchedSound(TaskInScope(env, scope), ts, taskHits, limit);
    KeepMembers(SelectsRow(selected), rs);
  }

  /** Recall is bounded and sound. */
  lemma RecallBoundedAndSound(env: Env, es: seq<Row<Entity>>, fs: seq<Row<Fact>>, ts: seq<Row<Task>>, rs: seq<Row<Relation>>,
                              entityHits: seq<Entry>, factHits: seq<Entry>, taskHits: seq<Entry>,
                              scope: string, limit: nat, r: RecallResult, selected: set<string>)
    requires Joined(env, es, fs, ts, rs, entityHits, factHits, taskHits, scope, limit, r, selected)
    requires DistinctKeys(entityHits)
    ensures EntitiesSound(env, es, entityHits, r.facts, rs, scope, limit, selected, r.entities)
    ensures OthersSound(env, fs, ts, rs, factHits, taskHits, scope, limit, r, selected)
  {
    EntitiesAreSound(env, es, entityHits, r.facts, rs, scope, limit, selected, r.entities);
    OthersAreSound(env, fs, ts, rs, factHits, taskHits, scope, limit, r, selected);
  }

  /** If there is room left, every listed owner of a returned fact and every listed endpoint of a
      relation touching a selected id is among the entities. */
  ghost predicate OneHopComplete(es: seq<Row<Entity>>, rs: seq<Row<Relation>>, limit: nat, r: RecallResult, selected: set<string>) {
    |r.entities| < limit ==>
      && (forall k :: 0 <= k < |r.facts| && HasId(es, r.facts[k].body.entityId) ==> HasId(r.entities, r.facts[k].body.entityId))
      && (forall id :: Touches(rs, selected, id) && HasId(es, id) ==> HasId(r.entities, id))
  }

  lemma RecallOneHopComplete(env: Env, es: seq<Row<Entity>>, fs: seq<Row<Fact>>, ts: seq<Row<Task>>, rs: seq<Row<Relation>>,
                             entityHits: seq<Entry>, factHits: seq<Entry>, taskHits: seq<Entry>,
                             scope: string, limit: nat, r: RecallResult, selected: set<string>)
    requires Joined(env, es, fs, ts, rs, entityHits, factHits, taskHits, scope, limit, r, selected)
    requires DistinctKeys(entityHits)
    ensures OneHopComplete(es, rs, limit, r, selected)
  {
    EntitiesOf(env, es, entityHits, r.facts, rs, scope, limit, selected);
    EndsAre(rs, selected, |rs|);
    forall k | 0 <= k < |r.facts|
      ensures Reached(es, r.entities, r.facts[k].body.entityId, limit)
    {
      assert OwnerIds(r.facts)[k] == r.facts[k].body.entityId;
    }
    forall id | Touches(rs, selected, id)
      ensures Reached(es, r.entities, id, limit)
    {
      assert id in Ends(rs, selected, |rs|);
    }
  }

  /** In every reachable store, after the retention `recall` begins with: the result is bounded, sound
      and one-hop complete, of the rows that store lists and the hits its index ranks. */
  lemma RecallInEveryRun(env: Env, states: seq<Store>, acts: seq<Action>, k: nat, query: string, scope: string, limit: nat,
                         includeArchived: bool, r: RecallResult, selected: set<string>)
    requires IsRun(env, states, acts) && k < |states|
    requires Recalled(env, Retain(env, states[k]), query, scope, limit, includeArchived, r, selected)
    ensures var s := Retain(env, states[k]);
            var es, rs := Listed(s.entities, includeArchived), Listed(s.relations, includeArchived);
            && EntitiesSound(env, es, QueryMemory(env, s.index, "brain-entities", query, limit * 3), r.facts, rs, scope, limit, selected, r.entities)
            && OthersSound(env, Listed(s.facts, includeArchived), Listed(s.tasks, false), rs,
                           QueryMemory(env, s.index, "brain-facts", query, limit * 3),
                           QueryMemory(env, s.index, "brain-tasks", query, limit * 3), scope, limit, r, selected)
            && OneHopComplete(es, rs, limit, r, selected)
  {
    TaskFloors(env, states, acts, k);
    KeepRetain(env, false, states[k]);
    RecalledIsSound(env, Retain(env, states[k]), query, scope, limit, includeArchived, r, selected);
  }

  lemma RecalledIsSound(env: Env, s: Store, query: string, scope: string, limit: nat, includeArchived: bool, r: RecallResult, selected: set<string>)
    requires Sound(s) && Recalled(env, s, query, scope, limit, includeArchived, r, selected)
    ensures var es, rs := Listed(s.entities, includeArchived), Listed(s.relations, includeArchived);
            && EntitiesSound(env, es, QueryMemory(env, s.index, "brain-entities", query, limit * 3), r.facts, rs, scope, limit, selected, r.entities)
            && OthersSound(env, Listed(s.facts, includeArchived), Listed(s.tasks, false), rs,
                           QueryMemory(env, s.index, "brain-facts", query, limit * 3),
                           QueryMemory(env, s.index, "brain-tasks", query, limit * 3), scope, limit, r, selected)
            && OneHopComplete(es, rs, limit, r, selected)
  {
    var es, fs := Listed(s.entities, includeArchived), Listed(s.facts, includeArchived);
    var ts, rs := Listed(s.tasks, false), Listed(s.relations, includeArchived);
    var entityHits := QueryMemory(env, s.index, "brain-entities", query, limit * 3);
    var factHits := QueryMemory(env, s.index, "brain-facts", query, limit * 3);
    var taskHits := QueryMemory(env, s.index, "brain-tasks", query, limit * 3);
    HitsDistinct(env, s.index, "brain-entities", query, limit * 3);
    RecallBoundedAndSound(env, es, fs, ts, rs, entityHits, factHits, taskHits, scope, limit, r, selected);
    RecallOneHopComplete(env, es, fs, ts, rs, entityHits, factHits, taskHits, scope, limit, r, selected);
  }
}
