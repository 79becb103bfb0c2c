/** What a deletion does to the index: a concrete failure, and the direction from entry to row. */
module BrainDeletion {
  import opened Brain
  import opened BrainInvariant
  import opened BrainRuns
  import opened BrainIngest

  /** From the initial store: deleting the project entity's id as a task drops the entry of the entity, whose row stays. */
  lemma DeletionUnindexes(env: Env)
    ensures Indexed(env, Init(env)) && !Indexed(env, Forget(Init(env), "task", env.projectId, "delete"))
  {
    InitGood(env, true);
    DeleteKeepsIndexExactlyWhen(env, Init(env), OfTask, env.projectId);
    assert Init(env).entities[0].id == env.projectId;
  }

  /** Every fact entry of the index names a fact row. */
  ghost predicate FactEntriesHaveRows(s: Store) {
    forall e :: e in s.index && e.namespace == "brain-facts" ==> HasId(s.facts, e.key)
  }

  /** The condition under which a deletion keeps that: an entity's own facts all share its id. */
  predicate OwnFactsShareId(s: Store, target: Target, id: string) {
    target == OfEntity ==> forall i :: 0 <= i < |s.facts| && s.facts[i].body.entityId == id ==> s.facts[i].id == id
  }

  lemma {:induction false} LookupMember(index: seq<Entry>, namespace: string, key: string)
    ensures Lookup(index, namespace, key).Some? <==> exists e :: e in index && e.namespace == namespace && e.key == key
  {
    if index != [] {
      LookupMember(index[1..], namespace, key);
      assert index == [index[0]] + index[1..];
    }
  }

  /** The fact entries after a deletion: those before, but for the deleted id. */
  lemma EntriesAfter(s: Store, target: Target, id: string, key: string)
    ensures (exists e :: e in ForgetDelete(s, target, id).index && e.namespace == "brain-facts" && e.key == key)
            <==> key != id && exists e :: e in s.index && e.namespace == "brain-facts" && e.key == key
  {
    LookupDropped(s.index, id, "brain-facts", key);
    LookupMember(s.index, "brain-facts", key);
    LookupMember(ForgetDelete(s, target, id).index, "brain-facts", key);
  }

  /** The fact rows after a deletion. */
  lemma FactsAfter(s: Store, target: Target, id: string, key: string)
    requires Sound(s)
    ensures HasId(ForgetDelete(s, target, id).facts, key)
            <==> exists i :: 0 <= i < |s.facts| && s.facts[i].id == key
                             && (target == OfEntity ==> s.facts[i].body.entityId != id) && (target == OfFact ==> key != id)
  {
    match target
    case OfEntity => KeptRows(Not(OwnedBy(id)), s.facts);
    case OfFact => KeptRows(OtherId(id), s.facts);
    case _ =>
  }

  /** Deleting keeps every fact entry a row exactly when, for an entity, all of its facts have its id;
      the entries of its other facts stay behind. */
  lemma EntriesKeepRowsExactlyWhen(env: Env, s: Store, target: Target, id: string)
    requires Sound(s) && Indexed(env, s) && FactEntriesHaveRows(s)
    ensures FactEntriesHaveRows(ForgetDelete(s, target, id)) <==> OwnFactsShareId(s, target, id)
  {
    var s' := ForgetDelete(s, target, id);
    if OwnFactsShareId(s, target, id) {
      forall e | e in s'.index && e.namespace == "brain-facts"
        ensures HasId(s'.facts, e.key)
      {
        EntriesAfter(s, target, id, e.key);
        FactsAfter(s, target, id, e.key);
      }
    } else {
      var i :| 0 <= i < |s.facts| && s.facts[i].body.entityId == id && s.facts[i].id != id;
      DeletedFactsStayIndexed(env, s, id, i);
      LookupMember(s'.index, "brain-facts", s.facts[i].id);
    }
  }

  /** The message's fact heads the facts after ingestion. */
  lemma MessageFactFirst(env: Env, s: Store, m: Message)
    ensures var s' := IngestMessage(env, s, m);
            s'.facts != [] && s'.facts[0].id == MessageFactId(env, m) && s'.facts[0].body.entityId == ContactId(env, m)
  {
    var s1 := IngestContact(env, s, m);
    ArtifactsAdd(env, s1, m, env.artifactsIn(m.body));
    EnvironmentsAdd(env, IngestArtifacts(env, s1, m, env.artifactsIn(m.body)), m, env.environmentsIn(m.body));
    assert BeforeTask(env, s, m).facts == s1.facts;
  }

  lemma FirstFactLeavesEntry(env: Env, s: Store, id: string, factId: string)
    requires Sound(s) && Indexed(env, s)
    requires s.facts != [] && s.facts[0].id == factId && s.facts[0].body.entityId == id && factId != id
    ensures var s' := Forget(s, "person", id, "delete");
            !HasId(s'.facts, factId) && Lookup(s'.index, "brain-facts", factId).Some?
  {
    DeletedFactsStayIndexed(env, s, id, 0);
  }

  lemma IdsDiffer(env: Env, m: Message)
    ensures MessageFactId(env, m) != ContactId(env, m)
  {
    assert MessageFactId(env, m)[0] == 'f' && ContactId(env, m)[0] == 'p';
  }

  lemma IngestedIsGood(env: Env, m: Message)
    ensures Good(env, true, IngestMessage(env, Init(env), m))
  {
    InitGood(env, true);
    KeepIngest(env, true, Init(env), m);
  }

  /** From the initial store: ingest a message and delete its sender; the message's fact is gone, its entry is not. */
  lemma ForgottenContactLeavesEntry(env: Env, m: Message)
    ensures var s' := Forget(IngestMessage(env, Init(env), m), "person", ContactId(env, m), "delete");
            !HasId(s'.facts, MessageFactId(env, m)) && Lookup(s'.index, "brain-facts", MessageFactId(env, m)).Some?
  {
    IngestedIsGood(env, m);
    IdsDiffer(env, m);
    MessageFactFirst(env, Init(env), m);
    FirstFactLeavesEntry(env, IngestMessage(env, Init(env), m), ContactId(env, m), MessageFactId(env, m));
  }
}
