/** Ranking of memory queries and suggestions, and why urgent work reaches the inline list. */
module BrainSuggest {
  import opened Clock
  import opened Ranking
  import opened Brain
  import opened BrainInvariant
  import opened BrainRuns

  // ----- ranking -----

  /** A memory query returns the best entries of its namespace's window, best first, ties in recency
      order, and everything left out scores no more. */
  lemma QueryRanked(env: Env, index: seq<Entry>, namespace: string, query: string, limit: nat)
    ensures var rows := MemoryRows(index, namespace);
            var scores := MemoryScores(env, query, rows);
            var order := TopK(scores, AtLeastOne(limit));
            && QueryMemory(env, index, namespace, query, limit) == seq(|order|, i requires 0 <= i < |order| => rows[order[i]])
            && IsTopK(scores, AtLeastOne(limit), order)
    ensures forall i :: 0 <= i < |QueryMemory(env, index, namespace, query, limit)| ==>
              QueryMemory(env, index, namespace, query, limit)[i] in index
              && QueryMemory(env, index, namespace, query, limit)[i].namespace == namespace
  {
    var rows := MemoryRows(index, namespace);
    TopKIsTopK(MemoryScores(env, query, rows), AtLeastOne(limit));
    KeepMembers(InNamespace(namespace), index);
  }

  /** Suggestions are the best `max(limit, 1)` eligible tasks, best first; equal scores keep recency
      order, and every eligible task left out scores no more than any suggested one. */
  lemma SuggestRanked(env: Env, s: Store, scope: string, limit: nat)
    ensures var rows := Eligible(env, s, scope);
            var order := TopK(Scores(env, s.now, rows), AtLeastOne(limit));
            && |Suggestions(env, s, scope, limit)| == |order| == Min(AtLeastOne(limit), |rows|)
            && (forall x :: 0 <= x < |order| ==> Suggestions(env, s, scope, limit)[x] == MakeSuggestion(env, s, rows[order[x]]))
            && (forall x, y :: 0 <= x < y < |order| ==> Score(env, s.now, rows[order[x]]) >= Score(env, s.now, rows[order[y]]))
            && (forall x, y :: 0 <= x < y < |order| && Score(env, s.now, rows[order[x]]) == Score(env, s.now, rows[order[y]]) ==>
                  order[x] < order[y])
            && (forall x, i: nat :: 0 <= x < |order| && i < |rows| && i !in order ==>
                  Score(env, s.now, rows[i]) <= Score(env, s.now, rows[order[x]]))
  {
    var rows := Eligible(env, s, scope);
    Ranked(Scores(env, s.now, rows), AtLeastOne(limit));
  }

  // ----- urgent work -----

  /** Blocked, overdue, or due within 24 hours. */
  predicate Urgent(now: int, t: Task) {
    t.status == "blocked" || (t.dueAt.Some? && t.dueAt.value <= now + 24 * HOUR)
  }

  lemma UrgentScore(env: Env, now: int, r: Row<Task>)
    requires TaskFloor(r.body) && Urgent(now, r.body)
    ensures Score(env, now, r) >= 0.55
  {
    assert PriorityWeight(r.body.priority) >= 0.25;
  }

  lemma {:induction false} KeepAll<T>(p: T -> bool, xs: seq<T>)
    ensures |Keep(p, xs)| <= |xs|
    ensures (forall i :: 0 <= i < |xs| ==> p(xs[i])) ==> Keep(p, xs) == xs
  {
    if xs != [] {
      KeepAll(p, xs[1..]);
    }
  }

  /** The inline list is exactly the suggestions that reach 0.55. */
  lemma InlineIs(env: Env, s: Store, scope: string, limit: nat)
    requires limit > 0
    ensures Inline(env, s, scope, limit) == Keep(Strong(), Suggestions(env, s, scope, limit))
    ensures forall g :: g in Inline(env, s, scope, limit) <==> g in Suggestions(env, s, scope, limit) && g.score >= 0.55
  {
    KeepAll(Strong(), Suggestions(env, s, scope, limit));
    KeepMembers(Strong(), Suggestions(env, s, scope, limit));
  }

  ghost predicate InlineHas(env: Env, s: Store, scope: string, limit: nat, id: string) {
    exists g :: g in Inline(env, s, scope, limit) && g.taskId == id
  }

  lemma ChosenIsInline(env: Env, s: Store, scope: string, limit: nat, x: nat)
    requires limit > 0 && x < |Suggestions(env, s, scope, limit)|
    requires Suggestions(env, s, scope, limit)[x].score >= 0.55
    ensures InlineHas(env, s, scope, limit, Suggestions(env, s, scope, limit)[x].taskId)
  {
    InlineIs(env, s, scope, limit);
    KeepMembers(Strong(), Suggestions(env, s, scope, limit));
    assert Suggestions(env, s, scope, limit)[x] in Inline(env, s, scope, limit);
  }

  lemma CrowdedOut(env: Env, s: Store, scope: string, limit: nat, i: nat)
    requires limit > 0 && i < |Eligible(env, s, scope)|
    requires Score(env, s.now, Eligible(env, s, scope)[i]) >= 0.55
    requires i !in TopK(Scores(env, s.now, Eligible(env, s, scope)), limit)
    ensures |Inline(env, s, scope, limit)| == limit
    ensures forall g :: g in Inline(env, s, scope, limit) ==> g.score >= Score(env, s.now, Eligible(env, s, scope)[i])
  {
    var rows, all := Eligible(env, s, scope), Suggestions(env, s, scope, limit);
    var order := TopK(Scores(env, s.now, rows), limit);
    SuggestRanked(env, s, scope, limit);
    forall x | 0 <= x < |all|
      ensures all[x].score >= Score(env, s.now, rows[i])
    {
      assert all[x] == MakeSuggestion(env, s, rows[order[x]]);
    }
    InlineIs(env, s, scope, limit);
    KeepAll(Strong(), all);
    TopKIsTopK(Scores(env, s.now, rows), limit);
    FullWhenOmitted(Scores(env, s.now, rows), limit, i);
  }

  lemma FullWhenOmitted(scores: seq<real>, k: nat, i: nat)
    requires i < |scores| && i !in TopK(scores, k)
    ensures |TopK(scores, k)| == k
  {
    OrderFromOrdered(scores, 0);
    var all := OrderFrom(scores, 0);
    assert i in all && all[..|all|] == all;
  }

  /** Every eligible task that is blocked, overdue or due within 24 hours clears the inline threshold, and
      is missing from the inline list only when `limit` tasks scoring at least as high fill it. */
  lemma UrgentClearsThreshold(env: Env, s: Store, scope: string, limit: nat, i: nat)
    requires Sound(s) && limit > 0
    requires i < |Eligible(env, s, scope)| && Urgent(s.now, Eligible(env, s, scope)[i].body)
    ensures var r := Eligible(env, s, scope)[i];
            && Score(env, s.now, r) >= 0.55
            && (InlineHas(env, s, scope, limit, r.id)
                || (|Inline(env, s, scope, limit)| == limit
                    && forall g :: g in Inline(env, s, scope, limit) ==> g.score >= Score(env, s.now, r)))
  {
    var rows := Eligible(env, s, scope);
    EligibleFloor(env, s, scope, i);
    UrgentScore(env, s.now, rows[i]);
    var order := TopK(Scores(env, s.now, rows), limit);
    if i in order {
      var x :| 0 <= x < |order| && order[x] == i;
      SuggestRanked(env, s, scope, limit);
      ChosenIsInline(env, s, scope, limit, x);
    } else {
      CrowdedOut(env, s, scope, limit, i);
    }
  }

  lemma EligibleFloor(env: Env, s: Store, scope: string, i: nat)
    requires Sound(s) && i < |Eligible(env, s, scope)|
    ensures TaskFloor(Eligible(env, s, scope)[i].body)
  {
    var listed := Listed(s.tasks, false);
    KeepMembers(Suggestible(env, scope), listed);
    ListedMembers(s.tasks, false);
    var k :| 0 <= k < |listed| && listed[k] == Eligible(env, s, scope)[i];
    assert listed[k] in s.tasks;
  }

  /** In every reachable store, after the retention `suggest` begins with. */
  lemma UrgentInEveryRun(env: Env, states: seq<Store>, acts: seq<Action>, k: nat, scope: string, limit: nat, i: nat)
    requires IsRun(env, states, acts) && k < |states| && limit > 0
    requires var s := Retain(env, states[k]);
             i < |Eligible(env, s, scope)| && Urgent(s.now, Eligible(env, s, scope)[i].body)
    ensures var s := Retain(env, states[k]);
            var r := Eligible(env, s, scope)[i];
            && Score(env, s.now, r) >= 0.55
            && (InlineHas(env, s, scope, limit, r.id)
                || (|Inline(env, s, scope, limit)| == limit
                    && forall g :: g in Inline(env, s, scope, limit) ==> g.score >= Score(env, s.now, r)))
  {
    TaskFloors(env, states, acts, k);
    KeepRetain(env, false, states[k]);
    UrgentClearsThreshold(env, Retain(env, states[k]), scope, limit, i);
  }
}
