/** What a memory query returns, in terms of the index, the query and their tokens alone. */
module BrainQuery {
  import opened Folds
  import opened Options
  import opened Text
  import opened Jaccard
  import opened Ranking
  import opened Brain
  import opened BrainInvariant
  import opened BrainRecall
  import opened BrainRuns
  import opened BrainScope
  import opened BrainSuggest

  /** How many tokens two texts share, among all tokens of either. */
  function Alike(env: Env, query: string, text: string): real {
    Index(TokenSet(env.letters, query), TokenSet(env.letters, text))
  }

  /** The entries of the namespace that stand before position `q`, which are newer. */
  function Newer(index: seq<Entry>, namespace: string, q: nat): nat
    requires q <= |index|
  {
    if q == 0 then 0 else Newer(index, namespace, q - 1) + One(index[q - 1].namespace == namespace)
  }

  /** One of the newest 256 entries of the namespace. */
  predicate InWindow(index: seq<Entry>, namespace: string, q: nat) {
    q < |index| && index[q].namespace == namespace && Newer(index, namespace, q) < 256
  }

  /** The first text is at least as alike, and if equally, the first entry is the newer one. */
  predicate Precedes(env: Env, index: seq<Entry>, query: string, p: nat, q: nat)
  {
    && p < |index| && q < |index|
    && (var a, b := Alike(env, query, index[p].text), Alike(env, query, index[q].text);
        a > b || (a == b && p < q))
  }

  // ----- positions of kept elements -----

  lemma {:induction false} KeepPosition<T>(p: T -> bool, xs: seq<T>, q: nat)
    requires q < |xs| && p(xs[q])
    ensures |Keep(p, xs[..q])| < |Keep(p, xs)| && Keep(p, xs)[|Keep(p, xs[..q])|] == xs[q]
  {
    if q > 0 {
      KeepPosition(p, xs[1..], q - 1);
      assert xs[..q][1..] == xs[1..][..q - 1];
    }
  }

  lemma {:induction false} KeepOrigin<T>(p: T -> bool, xs: seq<T>, x: nat) returns (q: nat)
    requires x < |Keep(p, xs)|
    ensures q < |xs| && p(xs[q]) && xs[q] == Keep(p, xs)[x] && |Keep(p, xs[..q])| == x
  {
    if p(xs[0]) && x == 0 {
      q := 0;
    } else {
      var r := KeepOrigin(p, xs[1..], if p(xs[0]) then x - 1 else x);
      q := r + 1;
      assert xs[..q][1..] == xs[1..][..r];
    }
  }

  lemma {:induction false} KeepGrows<T>(p: T -> bool, xs: seq<T>, a: nat, b: nat)
    requires a <= b <= |xs|
    ensures |Keep(p, xs[..a])| <= |Keep(p, xs[..b])|
    ensures a < b && p(xs[a]) ==> |Keep(p, xs[..a])| < |Keep(p, xs[..b])|
    decreases b
  {
    if a < b {
      KeepGrows(p, xs, a, b - 1);
      KeepAppend(p, xs[..b - 1], xs[b - 1]);
      assert xs[..b] == xs[..b - 1] + [xs[b - 1]];
    }
  }

  lemma {:induction false} NewerIs(index: seq<Entry>, namespace: string, q: nat)
    requires q <= |index|
    ensures Newer(index, namespace, q) == |Keep(InNamespace(namespace), index[..q])|
  {
    if q > 0 {
      NewerIs(index, namespace, q - 1);
      KeepAppend(InNamespace(namespace), index[..q - 1], index[q - 1]);
      assert index[..q] == index[..q - 1] + [index[q - 1]];
    }
  }

  /** The candidates of a query are the entries in the window, and stand in the order of the index. */
  lemma Candidate(index: seq<Entry>, namespace: string, x: nat) returns (q: nat)
    requires x < |MemoryRows(index, namespace)|
    ensures InWindow(index, namespace, q) && index[q] == MemoryRows(index, namespace)[x] && Newer(index, namespace, q) == x
  {
    q := KeepOrigin(InNamespace(namespace), index, x);
    NewerIs(index, namespace, q);
  }

  lemma IsCandidate(index: seq<Entry>, namespace: string, q: nat)
    requires InWindow(index, namespace, q)
    ensures Newer(index, namespace, q) < |MemoryRows(index, namespace)|
    ensures MemoryRows(index, namespace)[Newer(index, namespace, q)] == index[q]
  {
    NewerIs(index, namespace, q);
    KeepPosition(InNamespace(namespace), index, q);
  }

  lemma NewerGrows(index: seq<Entry>, namespace: string, p: nat, q: nat)
    requires InWindow(index, namespace, p) && InWindow(index, namespace, q)
    ensures Newer(index, namespace, p) < Newer(index, namespace, q) <==> p < q
  {
    NewerIs(index, namespace, p);
    NewerIs(index, namespace, q);
    KeepGrows(InNamespace(namespace), index, if p < q then p else q, if p < q then q else p);
  }

  lemma ScoreIsAlike(env: Env, query: string, rows: seq<Entry>, x: nat)
    requires x < |rows|
    ensures MemoryScores(env, query, rows)[x] == Alike(env, query, rows[x].text)
  {
    SimilarityIsJaccard(env.letters, query, rows[x].text);
  }

  // ----- the query -----

  lemma Origins(index: seq<Entry>, namespace: string, order: seq<nat>) returns (at: seq<nat>)
    requires forall x :: 0 <= x < |order| ==> order[x] < |MemoryRows(index, namespace)|
    ensures |at| == |order|
    ensures forall x :: 0 <= x < |at| ==>
              InWindow(index, namespace, at[x]) && index[at[x]] == MemoryRows(index, namespace)[order[x]]
              && Newer(index, namespace, at[x]) == order[x]
  {
    at := [];
    for i := 0 to |order|
      invariant |at| == i
      invariant forall x :: 0 <= x < i ==>
                  InWindow(index, namespace, at[x]) && index[at[x]] == MemoryRows(index, namespace)[order[x]]
                  && Newer(index, namespace, at[x]) == order[x]
    {
      var q := Candidate(index, namespace, order[i]);
      at := at + [q];
    }
  }

  lemma BeforePrecedes(env: Env, index: seq<Entry>, namespace: string, query: string, p: nat, q: nat)
    requires InWindow(index, namespace, p) && InWindow(index, namespace, q)
    ensures var rows := MemoryRows(index, namespace);
            && Newer(index, namespace, p) < |rows| && Newer(index, namespace, q) < |rows|
            && (Before(MemoryScores(env, query, rows), Newer(index, namespace, p), Newer(index, namespace, q))
                <==> Precedes(env, index, query, p, q))
  {
    var rows := MemoryRows(index, namespace);
    IsCandidate(index, namespace, p);
    IsCandidate(index, namespace, q);
    ScoreIsAlike(env, query, rows, Newer(index, namespace, p));
    ScoreIsAlike(env, query, rows, Newer(index, namespace, q));
    NewerGrows(index, namespace, p, q);
  }

  /** A query returns `max(limit, 1)` of the newest 256 entries of its namespace, or all of them if they
      are fewer: in descending order of how alike their text is to the query, the newer first among
      equals; and every entry in the window that it leaves out comes after all that it returns. */
  lemma QueryMostAlike(env: Env, index: seq<Entry>, namespace: string, query: string, limit: nat) returns (at: seq<nat>)
    ensures var r := QueryMemory(env, index, namespace, query, limit);
            && |at| == |r| <= (if limit == 0 then 1 else limit)
            && (forall x :: 0 <= x < |r| ==> InWindow(index, namespace, at[x]) && r[x] == index[at[x]])
            && (forall x, y :: 0 <= x < y < |r| ==> Precedes(env, index, query, at[x], at[y]))
            && (forall q: nat :: InWindow(index, namespace, q) && q !in at ==>
                  |r| == (if limit == 0 then 1 else limit)
                  && forall x :: 0 <= x < |r| ==> Precedes(env, index, query, at[x], q))
  {
    var rows := MemoryRows(index, namespace);
    var scores := MemoryScores(env, query, rows);
    var order := TopK(scores, AtLeastOne(limit));
    TopKIsTopK(scores, AtLeastOne(limit));
    at := Origins(index, namespace, order);
    forall x, y | 0 <= x < y < |order|
      ensures Precedes(env, index, query, at[x], at[y])
    {
      assert Before(scores, order[x], order[y]);
      BeforePrecedes(env, index, namespace, query, at[x], at[y]);
    }
    forall q: nat | InWindow(index, namespace, q) && q !in at
      ensures |order| == AtLeastOne(limit)
      ensures forall x :: 0 <= x < |order| ==> Precedes(env, index, query, at[x], q)
    {
      LeftOut(env, index, namespace, query, AtLeastOne(limit), order, at, q);
    }
  }

  lemma SamePlace(index: seq<Entry>, namespace: string, p: nat, q: nat)
    requires InWindow(index, namespace, p) && InWindow(index, namespace, q) && p != q
    ensures Newer(index, namespace, p) != Newer(index, namespace, q)
  {
    NewerGrows(index, namespace, p, q);
    NewerGrows(index, namespace, q, p);
  }

  lemma LeftOut(env: Env, index: seq<Entry>, namespace: string, query: string, k: nat, order: seq<nat>, at: seq<nat>, q: nat)
    requires order == TopK(MemoryScores(env, query, MemoryRows(index, namespace)), k) && |at| == |order|
    requires forall x :: 0 <= x < |at| ==> InWindow(index, namespace, at[x]) && Newer(index, namespace, at[x]) == order[x]
    requires InWindow(index, namespace, q) && q !in at
    ensures |order| == k
    ensures forall x :: 0 <= x < |order| ==> Precedes(env, index, query, at[x], q)
  {
    var scores, n := MemoryScores(env, query, MemoryRows(index, namespace)), Newer(index, namespace, q);
    IsCandidate(index, namespace, q);
    assert n !in order by {
      if n in order {
        var x :| 0 <= x < |order| && order[x] == n;
        assert at[x] in at;
        SamePlace(index, namespace, at[x], q);
      }
    }
    FullWhenOmitted(scores, k, n);
    TopKIsTopK(scores, k);
    forall x | 0 <= x < |order|
      ensures Precedes(env, index, query, at[x], q)
    {
      assert Before(scores, order[x], n);
      BeforePrecedes(env, index, namespace, query, at[x], q);
    }
  }

  // ----- what recall prefers -----

  /** The hits behind matched rows: in order, and none that could match is passed over while there is room. */
  ghost predicate MatchesAt<T>(p: Row<T> -> bool, rows: seq<Row<T>>, hits: seq<Entry>, limit: nat, got: seq<Row<T>>, h: seq<nat>) {
    && |h| == |got|
    && (forall k :: 0 <= k < |h| ==> h[k] < |hits| && hits[h[k]].key == got[k].id)
    && (forall k, l :: 0 <= k < l < |h| ==> h[k] < h[l])
    && (forall q: nat :: q < |hits| && q !in h && Find(rows, hits[q].key).Some? && p(Find(rows, hits[q].key).value) ==>
          |got| == limit && forall k :: 0 <= k < |h| ==> h[k] < q)
  }

  lemma {:induction false} MatchedAt<T>(p: Row<T> -> bool, rows: seq<Row<T>>, hits: seq<Entry>, limit: nat) returns (h: seq<nat>)
    ensures MatchesAt(p, rows, hits, limit, Matched(p, rows, hits, limit), h)
  {
    if hits == [] {
      assert Keep(p, Resolve(rows, hits)) == [];
      h := [];
    } else {
      var n := |hits| - 1;
      var before := Matched(p, rows, hits[..n], limit);
      var g := MatchedAt(p, rows, hits[..n], limit);
      MatchedNext(p, rows, hits, n, limit);
      MatchedSound(p, rows, hits[..n], limit);
      FindIs(rows, hits[n].key);
      assert hits[..n + 1] == hits;
      if |before| < limit && Find(rows, hits[n].key).Some? && p(Find(rows, hits[n].key).value) {
        MatchesMore(p, rows, hits, limit, before, g);
        h := g + [n];
      } else {
        MatchesSame(p, rows, hits, limit, before, g);
        h := g;
      }
    }
  }

  lemma MatchesMore<T>(p: Row<T> -> bool, rows: seq<Row<T>>, hits: seq<Entry>, limit: nat, before: seq<Row<T>>, g: seq<nat>)
    requires hits != [] && MatchesAt(p, rows, hits[..|hits| - 1], limit, before, g)
    requires |before| < limit && Find(rows, hits[|hits| - 1].key).Some?
    requires Find(rows, hits[|hits| - 1].key).value.id == hits[|hits| - 1].key
    ensures MatchesAt(p, rows, hits, limit, before + [Find(rows, hits[|hits| - 1].key).value], g + [|hits| - 1])
  {
    var n := |hits| - 1;
    assert forall q: nat :: q < n ==> hits[..n][q] == hits[q];
    assert forall q: nat :: q in g + [n] <==> q in g || q == n;
  }

  lemma MatchesSame<T>(p: Row<T> -> bool, rows: seq<Row<T>>, hits: seq<Entry>, limit: nat, before: seq<Row<T>>, g: seq<nat>)
    requires hits != [] && MatchesAt(p, rows, hits[..|hits| - 1], limit, before, g) && |before| <= limit
    requires |before| == limit || Find(rows, hits[|hits| - 1].key).None? || !p(Find(rows, hits[|hits| - 1].key).value)
    ensures MatchesAt(p, rows, hits, limit, before, g)
  {
    var n := |hits| - 1;
    forall q: nat | q < |hits| && q !in g && Find(rows, hits[q].key).Some? && p(Find(rows, hits[q].key).value)
      ensures |before| == limit && forall k :: 0 <= k < |g| ==> g[k] < q
    {
      if q < n {
        assert hits[..n][q] == hits[q];
      }
    }
  }

  lemma {:induction false} LookupAt(index: seq<Entry>, q: nat)
    requires UniqueKeys(index) && q < |index|
    ensures Lookup(index, index[q].namespace, index[q].key) == Some(index[q].text)
  {
    if q > 0 {
      assert index[1..][q - 1] == index[q];
      LookupAt(index[1..], q - 1);
    }
  }

  /** The text by which a matched row was ranked is its projection. */
  lemma MatchedText<T>(rows: seq<Row<T>>, index: seq<Entry>, namespace: string, text: T -> string, q: nat, r: Row<T>)
    requires UniqueKeys(index) && Covered(rows, index, namespace, text) && r in rows
    requires q < |index| && index[q].namespace == namespace && index[q].key == r.id
    ensures index[q].text == text(r.body)
  {
    LookupAt(index, q);
    var i :| 0 <= i < |rows| && rows[i] == r;
  }

  /** Matched rows come in descending order of how alike their projections are to the query, and a row
      that could have matched is no more alike than any of them. */
  lemma MatchedMostAlike<T>(env: Env, index: seq<Entry>, namespace: string, query: string, n: nat,
                            p: Row<T> -> bool, rows: seq<Row<T>>, limit: nat, text: T -> string)
    requires UniqueKeys(index) && UniqueIds(rows) && Covered(rows, index, namespace, text)
    ensures var got := Matched(p, rows, QueryMemory(env, index, namespace, query, n), limit);
            && (forall x, y :: 0 <= x < y < |got| ==>
                  Alike(env, query, text(got[x].body)) >= Alike(env, query, text(got[y].body)))
            && (forall x, i, q: nat ::
                  (0 <= x < |got| && 0 <= i < |rows| && p(rows[i]) && rows[i] !in got
                   && InWindow(index, namespace, q) && index[q].key == rows[i].id) ==>
                  Alike(env, query, text(got[x].body)) >= Alike(env, query, text(rows[i].body)))
  {
    var hits := QueryMemory(env, index, namespace, query, n);
    var got := Matched(p, rows, hits, limit);
    var at := QueryMostAlike(env, index, namespace, query, n);
    var h := MatchedAt(p, rows, hits, limit);
    MatchedSound(p, rows, hits, limit);
    forall x | 0 <= x < |got|
      ensures index[at[h[x]]].text == text(got[x].body)
    {
      MatchedText(rows, index, namespace, text, at[h[x]], got[x]);
    }
    forall x, y | 0 <= x < y < |got|
      ensures Alike(env, query, text(got[x].body)) >= Alike(env, query, text(got[y].body))
    {
      assert Precedes(env, index, query, at[h[x]], at[h[y]]);
    }
    forall x, i, q: nat | 0 <= x < |got| && 0 <= i < |rows| && p(rows[i]) && rows[i] !in got
      && InWindow(index, namespace, q) && index[q].key == rows[i].id
      ensures Alike(env, query, text(got[x].body)) >= Alike(env, query, text(rows[i].body))
    {
      MatchedText(rows, index, namespace, text, q, rows[i]);
      PassedOver(env, index, namespace, query, p, rows, limit, hits, at, got, h, x, i, q);
    }
  }

  lemma PassedOver<T>(env: Env, index: seq<Entry>, namespace: string, query: string, p: Row<T> -> bool, rows: seq<Row<T>>,
                      limit: nat, hits: seq<Entry>, at: seq<nat>, got: seq<Row<T>>, h: seq<nat>, x: nat, i: nat, q: nat)
    requires UniqueIds(rows) && MatchesAt(p, rows, hits, limit, got, h) && |at| == |hits| && x < |got| && i < |rows|
    requires forall y :: 0 <= y < |hits| ==> at[y] < |index| && hits[y] == index[at[y]]
    requires forall y, z :: 0 <= y < z < |hits| ==> Precedes(env, index, query, at[y], at[z])
    requires forall k :: 0 <= k < |got| ==> got[k] in rows
    requires p(rows[i]) && rows[i] !in got && q < |index| && index[q].key == rows[i].id
    requires q !in at ==> forall y :: 0 <= y < |hits| ==> Precedes(env, index, query, at[y], q)
    ensures Precedes(env, index, query, at[h[x]], q)
  {
    if q in at {
      var y :| 0 <= y < |at| && at[y] == q;
      FindIs(rows, rows[i].id);
      assert Find(rows, rows[i].id) == Some(rows[i]);
      assert forall k :: 0 <= k < |got| ==> got[k] in got && got[k] != rows[i];
      assert forall k :: 0 <= k < |got| ==> got[k].id != rows[i].id;
      assert y !in h;
    }
  }

  /** What `recall` returns of one table, in a store whose index follows its rows: in descending order of
      likeness to the query, and no listed row in scope that is left out, and whose entry is among the newest
      256 of its namespace, is more alike than one returned. */
  ghost predicate MostAlikeFirst<T(!new)>(env: Env, s: Store, namespace: string, query: string, window: seq<Row<T>>, includeArchived: bool,
                                    inScope: Row<T> -> bool, got: seq<Row<T>>, text: T -> string) {
    && (forall x, y :: 0 <= x < y < |got| ==> Alike(env, query, text(got[x].body)) >= Alike(env, query, text(got[y].body)))
    && (forall x, i, q: nat ::
          (0 <= x < |got| && 0 <= i < |window| && (includeArchived || !window[i].archived) && inScope(window[i])
           && window[i] !in got && InWindow(s.index, namespace, q) && s.index[q].key == window[i].id) ==>
            Alike(env, query, text(got[x].body)) >= Alike(env, query, text(window[i].body)))
  }

  lemma TableMostAlike<T(!new)>(env: Env, s: Store, namespace: string, query: string, n: nat, rows: seq<Row<T>>, includeArchived: bool,
                          p: Row<T> -> bool, inScope: Row<T> -> bool, limit: nat, text: T -> string)
    requires UniqueKeys(s.index) && UniqueIds(rows) && Covered(rows, s.index, namespace, text)
    requires forall r: Row<T> :: p(r) <==> inScope(r)
    ensures MostAlikeFirst(env, s, namespace, query, if |rows| <= 512 then rows else rows[..512], includeArchived, inScope,
              Matched(p, Listed(rows, includeArchived), QueryMemory(env, s.index, namespace, query, n), limit), text)
  {
    ListedOk(rows, includeArchived, s.index, namespace, text);
    var listed := Listed(rows, includeArchived);
    var got := Matched(p, listed, QueryMemory(env, s.index, namespace, query, n), limit);
    MatchedMostAlike(env, s.index, namespace, query, n, p, listed, limit, text);
    var window := if |rows| <= 512 then rows else rows[..512];
    forall x, i, q: nat | 0 <= x < |got| && 0 <= i < |window| && (includeArchived || !window[i].archived) && inScope(window[i])
      && window[i] !in got && InWindow(s.index, namespace, q) && s.index[q].key == window[i].id
      ensures Alike(env, query, text(got[x].body)) >= Alike(env, query, text(window[i].body))
    {
      KeepMembers(Visible(includeArchived), window);
      assert window[i] in window && window[i] in listed;
      var j :| 0 <= j < |listed| && listed[j] == window[i];
    }
  }

  lemma ListedOk<T>(rows: seq<Row<T>>, includeArchived: bool, index: seq<Entry>, namespace: string, text: T -> string)
    requires UniqueIds(rows) && Covered(rows, index, namespace, text)
    ensures UniqueIds(Listed(rows, includeArchived)) && Covered(Listed(rows, includeArchived), index, namespace, text)
  {
    var listed := Listed(rows, includeArchived);
    KeepUnique(Visible(includeArchived), Take(rows, WINDOW));
    ListedMembers(rows, includeArchived);
    forall i | 0 <= i < |listed|
      ensures Lookup(index, namespace, listed[i].id) == Some(text(listed[i].body))
    {
      var j :| 0 <= j < |rows| && rows[j] == listed[i];
    }
  }

  /** In every run whose callers keep to their side, of every recall: facts and tasks are the most alike to
      the query, by their texts as they are now. */
  lemma RecallMostAlike(env: Env, states: seq<Store>, acts: seq<Action>, k: nat, query: string, scope: string, limit: nat,
                        includeArchived: bool, r: RecallResult, selected: set<string>)
    requires IsRun(env, states, acts) && AllBehave(states, acts) && k < |states|
    requires Recalled(env, Retain(env, states[k]), query, scope, limit, includeArchived, r, selected)
    ensures var s := Retain(env, states[k]);
            && MostAlikeFirst(env, s, "brain-facts", query, if |s.facts| <= 512 then s.facts else s.facts[..512], includeArchived,
                 (f: Row<Fact>) => InScope(env, f.body.scope, scope), r.facts, (f: Fact) => f.content + " " + f.scope)
            && MostAlikeFirst(env, s, "brain-tasks", query, if |s.tasks| <= 512 then s.tasks else s.tasks[..512], false,
                 (t: Row<Task>) => InScope(env, t.body.scope, scope), r.tasks,
                 (t: Task) => t.title + " " + t.summary + " " + t.status + " " + t.priority + " " + env.showDue(t.dueAt))
  {
    var s := Retain(env, states[k]);
    RunGood(env, true, states, acts, k);
    KeepRetain(env, true, states[k]);
    RetainedMostAlike(env, s, query, scope, limit, includeArchived, r, selected);
  }

  lemma RetainedMostAlike(env: Env, s: Store, query: string, scope: string, limit: nat,
                          includeArchived: bool, r: RecallResult, selected: set<string>)
    requires Good(env, true, s) && Recalled(env, s, query, scope, limit, includeArchived, r, selected)
    ensures MostAlikeFirst(env, s, "brain-facts", query, if |s.facts| <= 512 then s.facts else s.facts[..512], includeArchived,
              (f: Row<Fact>) => InScope(env, f.body.scope, scope), r.facts, (f: Fact) => f.content + " " + f.scope)
    ensures MostAlikeFirst(env, s, "brain-tasks", query, if |s.tasks| <= 512 then s.tasks else s.tasks[..512], false,
              (t: Row<Task>) => InScope(env, t.body.scope, scope), r.tasks,
              (t: Task) => t.title + " " + t.summary + " " + t.status + " " + t.priority + " " + env.showDue(t.dueAt))
  {
    forall record: string
      ensures ScopeMatches(env, record, scope) <==> InScope(env, record, scope)
    {
      ScopeMeans(env, record, scope);
    }
    var factText := (f: Fact) => f.content + " " + f.scope;
    var taskText := (t: Task) => t.title + " " + t.summary + " " + t.status + " " + t.priority + " " + env.showDue(t.dueAt);
    TableMostAlike(env, s, "brain-facts", query, limit * 3, s.facts, includeArchived, FactInScope(env, scope),
      (f: Row<Fact>) => InScope(env, f.body.scope, scope), limit, factText);
    TableMostAlike(env, s, "brain-tasks", query, limit * 3, s.tasks, false, TaskInScope(env, scope),
      (t: Row<Task>) => InScope(env, t.body.scope, scope), limit, taskText);
  }

  /** And entities: the first `n` are the most alike, and all others own a returned fact or end a relation
      that touches a selected id. */
  lemma RecallEntitiesMostAlike(env: Env, states: seq<Store>, acts: seq<Action>, k: nat, query: string, scope: string, limit: nat,
                                includeArchived: bool, r: RecallResult, selected: set<string>) returns (n: nat)
    requires IsRun(env, states, acts) && AllBehave(states, acts) && k < |states|
    requires Recalled(env, Retain(env, states[k]), query, scope, limit, includeArchived, r, selected)
    ensures var s := Retain(env, states[k]);
            && n <= |r.entities|
            && MostAlikeFirst(env, s, "brain-entities", query, if |s.entities| <= 512 then s.entities else s.entities[..512],
                 includeArchived, (e: Row<Entity>) => InScope(env, e.body.scope, scope), r.entities[..n],
                 (e: Entity) => e.kind + " " + e.subtype + " " + e.title + " " + e.content + " " + e.scope)
            && forall x :: n <= x < |r.entities| ==>
                 (exists f :: 0 <= f < |r.facts| && r.facts[f].body.entityId == r.entities[x].id)
                 || Touches(Listed(s.relations, includeArchived), selected, r.entities[x].id)
  {
    var s := Retain(env, states[k]);
    RunGood(env, true, states, acts, k);
    KeepRetain(env, true, states[k]);
    n := EntitiesMostAlike(env, s, query, scope, limit, includeArchived, r, selected);
  }

  lemma EntitiesMostAlike(env: Env, s: Store, query: string, scope: string, limit: nat,
                          includeArchived: bool, r: RecallResult, selected: set<string>) returns (n: nat)
    requires Good(env, true, s) && Recalled(env, s, query, scope, limit, includeArchived, r, selected)
    ensures n <= |r.entities|
    ensures MostAlikeFirst(env, s, "brain-entities", query, if |s.entities| <= 512 then s.entities else s.entities[..512],
              includeArchived, (e: Row<Entity>) => InScope(env, e.body.scope, scope), r.entities[..n],
              (e: Entity) => e.kind + " " + e.subtype + " " + e.title + " " + e.content + " " + e.scope)
    ensures forall x :: n <= x < |r.entities| ==>
              (exists f :: 0 <= f < |r.facts| && r.facts[f].body.entityId == r.entities[x].id)
              || Touches(Listed(s.relations, includeArchived), selected, r.entities[x].id)
  {
    var direct := Matched(EntityInScope(env, scope), Listed(s.entities, includeArchived),
                          QueryMemory(env, s.index, "brain-entities", query, limit * 3), limit);
    DirectMostAlike(env, s, query, scope, limit, includeArchived);
    DirectFirst(env, s, query, scope, limit, includeArchived, r, selected);
    n := |direct|;
    assert r.entities[..n] == direct;
  }

  lemma DirectFirst(env: Env, s: Store, query: string, scope: string, limit: nat,
                    includeArchived: bool, r: RecallResult, selected: set<string>)
    requires Good(env, true, s) && Recalled(env, s, query, scope, limit, includeArchived, r, selected)
    ensures var direct := Matched(EntityInScope(env, scope), Listed(s.entities, includeArchived),
                                  QueryMemory(env, s.index, "brain-entities", query, limit * 3), limit);
            direct <= r.entities
            && forall x :: |direct| <= x < |r.entities| ==>
                 (exists f :: 0 <= f < |r.facts| && r.facts[f].body.entityId == r.entities[x].id)
                 || Touches(Listed(s.relations, includeArchived), selected, r.entities[x].id)
  {
    var es, rs := Listed(s.entities, includeArchived), Listed(s.relations, includeArchived);
    var hits := QueryMemory(env, s.index, "brain-entities", query, limit * 3);
    var direct := Matched(EntityInScope(env, scope), es, hits, limit);
    HitsDistinct(env, s.index, "brain-entities", query, limit * 3);
    EntitiesOf(env, es, hits, r.facts, rs, scope, limit, selected);
    forall x | |direct| <= x < |r.entities|
      ensures (exists f :: 0 <= f < |r.facts| && r.facts[f].body.entityId == r.entities[x].id) || Touches(rs, selected, r.entities[x].id)
    {
      Neighbour(r.entities, direct, r.facts, rs, selected, x);
    }
  }

  lemma DirectMostAlike(env: Env, s: Store, query: string, scope: string, limit: nat, includeArchived: bool)
    requires Good(env, true, s)
    ensures MostAlikeFirst(env, s, "brain-entities", query, if |s.entities| <= 512 then s.entities else s.entities[..512],
              includeArchived, (e: Row<Entity>) => InScope(env, e.body.scope, scope),
              Matched(EntityInScope(env, scope), Listed(s.entities, includeArchived),
                      QueryMemory(env, s.index, "brain-entities", query, limit * 3), limit),
              (e: Entity) => e.kind + " " + e.subtype + " " + e.title + " " + e.content + " " + e.scope)
  {
    forall record: string
      ensures ScopeMatches(env, record, scope) <==> InScope(env, record, scope)
    {
      ScopeMeans(env, record, scope);
    }
    TableMostAlike(env, s, "brain-entities", query, limit * 3, s.entities, includeArchived, EntityInScope(env, scope),
      (e: Row<Entity>) => InScope(env, e.body.scope, scope), limit,
      (e: Entity) => e.kind + " " + e.subtype + " " + e.title + " " + e.content + " " + e.scope);
  }

  lemma Neighbour(got: seq<Row<Entity>>, direct: seq<Row<Entity>>, facts: seq<Row<Fact>>, rs: seq<Row<Relation>>, selected: set<string>, x: nat)
    requires direct <= got && UniqueIds(got) && |direct| <= x < |got|
    requires got[x] in direct || got[x].id in OwnerIds(facts) || got[x].id in Ends(rs, selected, |rs|)
    ensures (exists f :: 0 <= f < |facts| && facts[f].body.entityId == got[x].id) || Touches(rs, selected, got[x].id)
  {
    assert forall i :: 0 <= i < |direct| ==> direct[i] == got[i] && got[i].id != got[x].id;
    EndsAre(rs, selected, |rs|);
    if got[x].id in OwnerIds(facts) {
      var f :| 0 <= f < |OwnerIds(facts)| && OwnerIds(facts)[f] == got[x].id;
      assert facts[f].body.entityId == got[x].id;
    }
  }

  // ----- relations and summary -----

  /** What a recall has selected: the entities that matched, the owners of its facts, and its tasks with all they
      link to. */
  ghost predicate SelectionIs(env: Env, r: RecallResult, n: nat, selected: set<string>)
    requires n <= |r.entities|
  {
    forall id :: id in selected <==>
      || (exists x :: 0 <= x < n && r.entities[x].id == id)
      || (exists x :: 0 <= x < |r.facts| && r.facts[x].body.entityId == id)
      || (exists x :: 0 <= x < |r.tasks| && (r.tasks[x].id == id || id in env.parseLinks(r.tasks[x].body.links)))
  }

  /** The relations returned are the first `2 * limit` listed ones with an end that is selected. */
  ghost predicate FirstTouching(rs: seq<Row<Relation>>, selected: set<string>, limit: nat, got: seq<Row<Relation>>) {
    && |got| <= 2 * limit
    && (forall x :: 0 <= x < |got| ==> got[x] in rs && (got[x].body.fromId in selected || got[x].body.toId in selected))
    && (forall x :: x in rs && (x.body.fromId in selected || x.body.toId in selected) && x !in got ==> |got| == 2 * limit)
  }

  lemma RecalledRelationsAre(env: Env, s: Store, query: string, scope: string, limit: nat, includeArchived: bool,
                             r: RecallResult, selected: set<string>) returns (n: nat)
    requires Sound(s) && Recalled(env, s, query, scope, limit, includeArchived, r, selected)
    ensures n <= |r.entities| && SelectionIs(env, r, n, selected)
    ensures FirstTouching(Listed(s.relations, includeArchived), selected, limit, r.relations)
  {
    var es, rs := Listed(s.entities, includeArchived), Listed(s.relations, includeArchived);
    var hits := QueryMemory(env, s.index, "brain-entities", query, limit * 3);
    var direct := Matched(EntityInScope(env, scope), es, hits, limit);
    HitsDistinct(env, s.index, "brain-entities", query, limit * 3);
    EntitiesOf(env, es, hits, r.facts, rs, scope, limit, selected);
    n := |direct|;
    SelectedAre(env, r, direct, selected);
    TouchingAre(rs, selected, limit);
  }

  lemma TouchingAre(rs: seq<Row<Relation>>, selected: set<string>, limit: nat)
    ensures FirstTouching(rs, selected, limit, Take(Keep(SelectsRow(selected), rs), limit * 2))
  {
    KeepMembers(SelectsRow(selected), rs);
    var all, got := Keep(SelectsRow(selected), rs), Take(Keep(SelectsRow(selected), rs), limit * 2);
    forall x | x in rs && (x.body.fromId in selected || x.body.toId in selected) && x !in got
      ensures |got| == 2 * limit
    {
      assert x in all;
    }
    assert forall x :: 0 <= x < |got| ==> got[x] == all[x] && all[x] in all;
  }

  lemma {:induction false} TaskSelectionIs(env: Env, tasks: seq<Row<Task>>, id: string)
    ensures id in TaskSelection(env, tasks)
            <==> exists x :: 0 <= x < |tasks| && (tasks[x].id == id || id in env.parseLinks(tasks[x].body.links))
  {
    if tasks != [] {
      var n := |tasks| - 1;
      TaskSelectionIs(env, tasks[..n], id);
      assert forall x :: 0 <= x < n ==> tasks[x] == tasks[..n][x];
    }
  }

  lemma SelectedAre(env: Env, r: RecallResult, direct: seq<Row<Entity>>, selected: set<string>)
    requires direct <= r.entities
    requires selected == EntityIds(direct) + Owners(r.facts) + TaskSelection(env, r.tasks)
    ensures SelectionIs(env, r, |direct|, selected)
  {
    forall id
      ensures id in EntityIds(direct) <==> exists x :: 0 <= x < |direct| && r.entities[x].id == id
      ensures id in Owners(r.facts) <==> exists x :: 0 <= x < |r.facts| && r.facts[x].body.entityId == id
      ensures id in TaskSelection(env, r.tasks)
              <==> exists x :: 0 <= x < |r.tasks| && (r.tasks[x].id == id || id in env.parseLinks(r.tasks[x].body.links))
    {
      assert forall x :: 0 <= x < |direct| ==> direct[x] == r.entities[x];
      TaskSelectionIs(env, r.tasks, id);
    }
  }

  /** The summary counts what was found. */
  lemma SummaryIs(entities: nat, facts: nat, tasks: nat)
    ensures var e, f, t := Decimal(entities) + " entities", Decimal(facts) + " facts", Decimal(tasks) + " tasks";
            RecallSummary(entities, facts, tasks)
            == if entities == 0 && facts == 0 && tasks == 0 then "no relevant brain context found"
               else if facts == 0 && tasks == 0 then "matched " + e
               else if entities == 0 && tasks == 0 then "matched " + f
               else if entities == 0 && facts == 0 then "matched " + t
               else if tasks == 0 then "matched " + (e + ", " + f)
               else if facts == 0 then "matched " + (e + ", " + t)
               else if entities == 0 then "matched " + (f + ", " + t)
               else "matched " + (e + ", " + (f + ", " + t))
  {
    var e, f, t := Decimal(entities) + " entities", Decimal(facts) + " facts", Decimal(tasks) + " tasks";
    var es, fs, ts := if entities == 0 then [] else [e], if facts == 0 then [] else [f], if tasks == 0 then [] else [t];
    assert [e] + [] + [] == [e] && [] + [f] + [] == [f] && [] + [] + [t] == [t];
    assert [e] + [f] + [] == [e, f] && [e] + [] + [t] == [e, t] && [] + [f] + [t] == [f, t] && [e] + [f] + [t] == [e, f, t];
    JoinTwo(e, f);
    JoinTwo(e, t);
    JoinTwo(f, t);
    assert [e, f, t][1..] == [f, t] && Join(", ", [e, f, t]) == e + ", " + Join(", ", [f, t]);
  }

  lemma JoinTwo(a: string, b: string)
    ensures Join(", ", [a, b]) == a + ", " + b
  {
    assert [a, b][1..] == [b];
  }
}
