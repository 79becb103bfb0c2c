/** Which tasks are worked on: what `suggest` returns and what a tool result closes, said of the task table. */
module BrainOpenTasks {
  import opened Options
  import opened Text
  import opened Jaccard
  import opened Ranking
  import opened Brain
  import opened BrainSuggest
  import opened BrainScope
  import opened BrainQuery

  /** An unarchived task among the newest 512 rows that is still to be done. */
  predicate StillOpen(s: Store, p: nat) {
    && p < |s.tasks| && p < 512 && !s.tasks[p].archived
    && s.tasks[p].body.status in {"open", "in_progress", "blocked"}
  }

  ghost predicate Askable(env: Env, s: Store, scope: string, p: nat) {
    StillOpen(s, p) && InScope(env, s.tasks[p].body.scope, scope)
  }

  function PriorityWorth(priority: string): real {
    var weights := map["urgent" := 1.0, "high" := 0.8, "low" := 0.25];
    if priority in weights then weights[priority] else 0.5
  }

  /** What a task scores. Time is in microseconds: an hour is 3,600,000,000 of them. */
  function Worth(env: Env, now: int, r: Row<Task>): real {
    var t := r.body;
    0.4 * t.salience + 0.2 * t.confidence + 0.25 * PriorityWorth(t.priority)
    + (if t.dueAt.Some? && t.dueAt.value <= now then 0.35
       else if t.dueAt.Some? && t.dueAt.value - now <= 86_400_000_000 then 0.2 else 0.0)
    + (if now - r.updatedAt >= env.staleTaskHours * 3_600_000_000 then 0.1 else 0.0)
    + (if t.status == "blocked" then 0.15 else 0.0)
  }

  /** The most pressing thing about a task. */
  function Why(env: Env, now: int, r: Row<Task>): string {
    var t := r.body;
    if t.status == "blocked" then "task is blocked and needs attention"
    else if t.dueAt.Some? && t.dueAt.value <= now then "task is overdue"
    else if t.dueAt.Some? && t.dueAt.value - now <= 86_400_000_000 then "task is due soon"
    else if now - r.updatedAt >= env.staleTaskHours * 3_600_000_000 then "task has gone stale"
    else t.priority + " priority task"
  }

  lemma WorthIs(env: Env, now: int, r: Row<Task>)
    ensures Worth(env, now, r) == Score(env, now, r) && Why(env, now, r) == Reason(env, now, r)
  {
  }

  /** A higher score, or the same of a task updated later. */
  ghost predicate Outranks(env: Env, s: Store, p: nat, q: nat) {
    && p < |s.tasks| && q < |s.tasks|
    && (var a, b := Worth(env, s.now, s.tasks[p]), Worth(env, s.now, s.tasks[q]);
        a > b || (a == b && p < q))
  }

  // ----- positions of listed rows -----

  function Both<T>(p: T -> bool, q: T -> bool): T -> bool {
    x => p(x) && q(x)
  }

  lemma {:induction false} KeepBoth<T>(p: T -> bool, q: T -> bool, xs: seq<T>)
    ensures Keep(q, Keep(p, xs)) == Keep(Both(p, q), xs)
  {
    if xs != [] {
      KeepBoth(p, q, xs[1..]);
      var rest := Keep(p, xs[1..]);
      assert ([xs[0]] + rest)[1..] == rest;
    }
  }

  function Wanted(env: Env, scope: string): Row<Task> -> bool {
    Both(Visible(false), Suggestible(env, scope))
  }

  lemma WantedMeans(env: Env, s: Store, scope: string, p: nat)
    requires p < |s.tasks| && p < 512
    ensures Wanted(env, scope)(s.tasks[p]) <==> Askable(env, s, scope, p)
  {
    ScopeMeans(env, s.tasks[p].body.scope, scope);
  }

  /** The position in the table of the `x`-th eligible task. */
  lemma EligibleAt(env: Env, s: Store, scope: string, x: nat) returns (p: nat)
    requires x < |Eligible(env, s, scope)|
    ensures Askable(env, s, scope, p) && s.tasks[p] == Eligible(env, s, scope)[x]
    ensures |Keep(Wanted(env, scope), s.tasks[..p])| == x
  {
    var window := Take(s.tasks, WINDOW);
    KeepBoth(Visible(false), Suggestible(env, scope), window);
    p := KeepOrigin(Wanted(env, scope), window, x);
    assert window[..p] == s.tasks[..p];
    WantedMeans(env, s, scope, p);
  }

  lemma AskableAt(env: Env, s: Store, scope: string, p: nat)
    requires Askable(env, s, scope, p)
    ensures |Keep(Wanted(env, scope), s.tasks[..p])| < |Eligible(env, s, scope)|
    ensures Eligible(env, s, scope)[|Keep(Wanted(env, scope), s.tasks[..p])|] == s.tasks[p]
  {
    var window := Take(s.tasks, WINDOW);
    KeepBoth(Visible(false), Suggestible(env, scope), window);
    WantedMeans(env, s, scope, p);
    KeepPosition(Wanted(env, scope), window, p);
    assert window[..p] == s.tasks[..p];
  }

  /** How many askable tasks stand before a position. */
  function Place(env: Env, s: Store, scope: string, p: nat): nat
    requires p <= |s.tasks|
  {
    |Keep(Wanted(env, scope), s.tasks[..p])|
  }

  lemma PlaceGrows(env: Env, s: Store, scope: string, p: nat, q: nat)
    requires Askable(env, s, scope, p) && Askable(env, s, scope, q)
    ensures Place(env, s, scope, p) < Place(env, s, scope, q) <==> p < q
  {
    WantedMeans(env, s, scope, p);
    WantedMeans(env, s, scope, q);
    KeepGrows(Wanted(env, scope), s.tasks, if p < q then p else q, if p < q then q else p);
  }

  lemma OutranksIs(env: Env, s: Store, scope: string, p: nat, q: nat)
    requires Askable(env, s, scope, p) && Askable(env, s, scope, q)
    ensures var scores := Scores(env, s.now, Eligible(env, s, scope));
            && Place(env, s, scope, p) < |scores| && Place(env, s, scope, q) < |scores|
            && (Before(scores, Place(env, s, scope, p), Place(env, s, scope, q)) <==> Outranks(env, s, p, q))
  {
    AskableAt(env, s, scope, p);
    AskableAt(env, s, scope, q);
    PlaceGrows(env, s, scope, p, q);
    WorthIs(env, s.now, s.tasks[p]);
    WorthIs(env, s.now, s.tasks[q]);
  }

  lemma Places(env: Env, s: Store, scope: string, order: seq<nat>) returns (at: seq<nat>)
    requires forall x :: 0 <= x < |order| ==> order[x] < |Eligible(env, s, scope)|
    ensures |at| == |order|
    ensures forall x :: 0 <= x < |at| ==>
              Askable(env, s, scope, at[x]) && s.tasks[at[x]] == Eligible(env, s, scope)[order[x]]
              && Place(env, s, scope, at[x]) == order[x]
  {
    at := [];
    for i := 0 to |order|
      invariant |at| == i
      invariant forall x :: 0 <= x < i ==>
                  Askable(env, s, scope, at[x]) && s.tasks[at[x]] == Eligible(env, s, scope)[order[x]]
                  && Place(env, s, scope, at[x]) == order[x]
    {
      var p := EligibleAt(env, s, scope, order[i]);
      at := at + [p];
    }
  }

  // ----- suggestions -----

  /** The title of an unarchived entity among the newest 512 rows: of the newest of its id. */
  ghost predicate HasTitle(s: Store, id: string, title: string) {
    exists p: nat :: TitledAt(s, id, p) && s.entities[p].body.title == title && forall q: nat :: q < p ==> !TitledAt(s, id, q)
  }

  predicate TitledAt(s: Store, id: string, p: nat) {
    p < |s.entities| && p < 512 && !s.entities[p].archived && s.entities[p].id == id
  }

  /** The titles of the entities linked, in order; links to nothing are passed over. */
  ghost predicate TitlesOf(s: Store, links: seq<string>, titles: seq<string>)
    decreases |links|
  {
    if links == [] then titles == []
    else if exists p: nat :: TitledAt(s, links[0], p) then
      titles != [] && HasTitle(s, links[0], titles[0]) && TitlesOf(s, links[1..], titles[1..])
    else TitlesOf(s, links[1..], titles)
  }

  lemma {:induction false} FoundAt<T>(p: Row<T> -> bool, rows: seq<Row<T>>, id: string) returns (x: nat)
    ensures var found := Find(Keep(p, rows), id);
            && (found.None? ==> forall q: nat :: q < |rows| && p(rows[q]) ==> rows[q].id != id)
            && (found.Some? ==> x < |rows| && p(rows[x]) && rows[x].id == id && found.value == rows[x]
                                && forall q: nat :: q < x && p(rows[q]) ==> rows[q].id != id)
  {
    if rows == [] || (p(rows[0]) && rows[0].id == id) {
      x := 0;
    } else {
      var y := FoundAt(p, rows[1..], id);
      x := y + 1;
      assert forall q: nat :: 0 < q < |rows| ==> rows[q] == rows[1..][q - 1];
    }
  }

  lemma {:induction false} TitlesAre(s: Store, links: seq<string>)
    ensures TitlesOf(s, links, LinkedTitles(Listed(s.entities, false), links))
  {
    if links != [] {
      TitlesAre(s, links[1..]);
      var window := Take(s.entities, WINDOW);
      var x := FoundAt(Visible(false), window, links[0]);
      var found := Find(Listed(s.entities, false), links[0]);
      var titles, rest := LinkedTitles(Listed(s.entities, false), links), LinkedTitles(Listed(s.entities, false), links[1..]);
      if found.Some? {
        assert titles[1..] == rest;
        assert TitledAt(s, links[0], x);
        forall q: nat | q < x
          ensures !TitledAt(s, links[0], q)
        {
          assert window[q] == s.entities[q];
        }
        assert HasTitle(s, links[0], found.value.body.title);
      } else {
        assert titles == rest;
        forall q: nat
          ensures !TitledAt(s, links[0], q)
        {
          assert q < |window| ==> window[q] == s.entities[q];
        }
      }
    }
  }

  /** `max(limit, 1)` of the unarchived open, ongoing and blocked tasks in scope among the newest 512 rows, or
      all of them if they are fewer: best first, the one updated last first among equals; and every such task
      left out ranks below all that are suggested. */
  ghost predicate BestOpen(env: Env, s: Store, scope: string, limit: nat, g: seq<Suggestion>, at: seq<nat>) {
    && |at| == |g| <= (if limit == 0 then 1 else limit)
    && (forall x :: 0 <= x < |g| ==>
          && Askable(env, s, scope, at[x])
          && g[x].id == "suggestion:" + s.tasks[at[x]].id
          && g[x].taskId == s.tasks[at[x]].id && g[x].summary == s.tasks[at[x]].body.summary
          && g[x].score == Worth(env, s.now, s.tasks[at[x]]) && g[x].reason == Why(env, s.now, s.tasks[at[x]])
          && exists titles :: TitlesOf(s, env.parseLinks(s.tasks[at[x]].body.links), titles) && g[x].context == env.contextOf(s.tasks[at[x]].body, titles))
    && (forall x, y :: 0 <= x < y < |g| ==> Outranks(env, s, at[x], at[y]))
    && (forall q: nat :: Askable(env, s, scope, q) && q !in at ==>
          |g| == (if limit == 0 then 1 else limit) && forall x :: 0 <= x < |g| ==> Outranks(env, s, at[x], q))
  }

  ghost predicate AreBestOpen(env: Env, s: Store, scope: string, limit: nat, g: seq<Suggestion>) {
    exists at :: BestOpen(env, s, scope, limit, g, at)
  }

  /** What is suggested. */
  lemma SuggestsTheBest(env: Env, s: Store, scope: string, limit: nat) returns (at: seq<nat>)
    ensures BestOpen(env, s, scope, limit, Suggestions(env, s, scope, limit), at)
  {
    var rows := Eligible(env, s, scope);
    var scores := Scores(env, s.now, rows);
    var order := TopK(scores, AtLeastOne(limit));
    TopKIsTopK(scores, AtLeastOne(limit));
    at := Places(env, s, scope, order);
    forall x | 0 <= x < |order|
      ensures var g := Suggestions(env, s, scope, limit)[x];
              && g.score == Worth(env, s.now, s.tasks[at[x]]) && g.reason == Why(env, s.now, s.tasks[at[x]])
              && exists titles :: TitlesOf(s, env.parseLinks(s.tasks[at[x]].body.links), titles) && g.context == env.contextOf(s.tasks[at[x]].body, titles)
    {
      WorthIs(env, s.now, s.tasks[at[x]]);
      TitlesAre(s, env.parseLinks(s.tasks[at[x]].body.links));
    }
    forall x, y | 0 <= x < y < |order|
      ensures Outranks(env, s, at[x], at[y])
    {
      assert Before(scores, order[x], order[y]);
      OutranksIs(env, s, scope, at[x], at[y]);
    }
    forall q: nat | Askable(env, s, scope, q) && q !in at
      ensures |order| == AtLeastOne(limit)
      ensures forall x :: 0 <= x < |order| ==> Outranks(env, s, at[x], q)
    {
      NotSuggested(env, s, scope, AtLeastOne(limit), order, at, q);
    }
  }

  lemma OtherPlace(env: Env, s: Store, scope: string, p: nat, q: nat)
    requires Askable(env, s, scope, p) && Askable(env, s, scope, q) && p != q
    ensures Place(env, s, scope, p) != Place(env, s, scope, q)
  {
    PlaceGrows(env, s, scope, p, q);
    PlaceGrows(env, s, scope, q, p);
  }

  lemma NotSuggested(env: Env, s: Store, scope: string, k: nat, order: seq<nat>, at: seq<nat>, q: nat)
    requires order == TopK(Scores(env, s.now, Eligible(env, s, scope)), k) && |at| == |order|
    requires forall x :: 0 <= x < |at| ==> Askable(env, s, scope, at[x]) && Place(env, s, scope, at[x]) == order[x]
    requires Askable(env, s, scope, q) && q !in at
    ensures |order| == k
    ensures forall x :: 0 <= x < |order| ==> Outranks(env, s, at[x], q)
  {
    var scores, n := Scores(env, s.now, Eligible(env, s, scope)), Place(env, s, scope, q);
    AskableAt(env, s, scope, q);
    assert n !in order by {
      if n in order {
        var x :| 0 <= x < |order| && order[x] == n;
        assert at[x] in at;
        OtherPlace(env, s, scope, at[x], q);
      }
    }
    FullWhenOmitted(scores, k, n);
    TopKIsTopK(scores, k);
    forall x | 0 <= x < |order|
      ensures Outranks(env, s, at[x], q)
    {
      assert Before(scores, order[x], n);
      OutranksIs(env, s, scope, at[x], q);
    }
  }

  // ----- what a tool result closes -----

  /** The same character, up to the case of an ASCII letter. */
  predicate SameLetter(a: char, b: char) {
    a == b || ('A' <= a <= 'Z' && b as int - a as int == 32) || ('A' <= b <= 'Z' && a as int - b as int == 32)
  }

  /** Some stretch of the text is `part`, up to case. */
  ghost predicate Mentions(text: string, part: string) {
    exists i: nat :: MentionsAt(text, part, i)
  }

  predicate MentionsAt(text: string, part: string, i: nat) {
    i + |part| <= |text| && forall k :: 0 <= k < |part| ==> SameLetter(text[i + k], part[k])
  }

  lemma SameLetterIs(a: char, b: char)
    ensures SameLetter(a, b) <==> LowerChar(a) == LowerChar(b)
  {
  }

  predicate PartAt(text: string, part: string, i: nat) {
    i + |part| <= |text| && text[i..i + |part|] == part
  }

  lemma {:induction false} ContainsIs(text: string, part: string)
    ensures ContainsText(text, part) <==> exists i: nat :: PartAt(text, part, i)
  {
    if part <= text {
      assert PartAt(text, part, 0);
    } else {
      assert !PartAt(text, part, 0);
      if text != "" {
        ContainsIs(text[1..], part);
        forall i: nat
          ensures PartAt(text[1..], part, i) <==> PartAt(text, part, i + 1)
        {
          if i + 1 + |part| <= |text| {
            assert text[1..][i..i + |part|] == text[i + 1..i + 1 + |part|];
          }
        }
        if i: nat :| PartAt(text, part, i) {
          assert PartAt(text[1..], part, i - 1);
        }
      }
    }
  }

  lemma MentionsIs(text: string, part: string)
    ensures ContainsText(Lower(text), Lower(part)) <==> Mentions(text, part)
  {
    ContainsIs(Lower(text), Lower(part));
    forall i: nat
      ensures PartAt(Lower(text), Lower(part), i) <==> MentionsAt(text, part, i)
    {
      if i + |part| <= |text| {
        AtPosition(text, part, i);
      }
    }
    if ContainsText(Lower(text), Lower(part)) {
      var i: nat :| PartAt(Lower(text), Lower(part), i);
      assert MentionsAt(text, part, i);
    }
  }

  lemma AtPosition(text: string, part: string, i: nat)
    requires i + |part| <= |text|
    ensures Lower(text)[i..i + |part|] == Lower(part) <==> MentionsAt(text, part, i)
  {
    forall k | 0 <= k < |part|
      ensures SameLetter(text[i + k], part[k]) <==> Lower(text)[i..i + |part|][k] == Lower(part)[k]
    {
      SameLetterIs(text[i + k], part[k]);
    }
  }

  /** A task that is still open and that the result is about: it names the tool, or its summary shares at
      least 0.72 of the tokens with the result's. */
  ghost predicate AboutTool(env: Env, s: Store, target: string, result: string, p: nat) {
    && StillOpen(s, p)
    && (|| Mentions(s.tasks[p].body.summary, target)
        || Mentions(s.tasks[p].body.title, target)
        || Alike(env, result, s.tasks[p].body.summary) >= 0.72)
  }

  lemma AboutToolIs(env: Env, s: Store, target: string, result: string, p: nat)
    requires p < |s.tasks| && p < 512
    ensures AboutTool(env, s, target, result, p)
            <==> !s.tasks[p].archived && RelatedToTool(env, target, result, s.tasks[p].body)
  {
    MentionsIs(s.tasks[p].body.summary, target);
    MentionsIs(s.tasks[p].body.title, target);
    SimilarityIsJaccard(env.letters, result, s.tasks[p].body.summary);
  }

  lemma {:induction false} FirstRelatedAt(env: Env, target: string, result: string, rows: seq<Row<Task>>) returns (x: nat)
    ensures var found := FirstRelated(env, target, result, rows);
            && x <= |rows| && (found.None? <==> x == |rows|)
            && (forall y :: 0 <= y < x ==> !RelatedToTool(env, target, result, rows[y].body))
            && (x < |rows| ==> found == Some(rows[x]) && RelatedToTool(env, target, result, rows[x].body))
  {
    if rows == [] || RelatedToTool(env, target, result, rows[0].body) {
      x := 0;
    } else {
      var y := FirstRelatedAt(env, target, result, rows[1..]);
      x := y + 1;
    }
  }

  /** Nothing before the first related row is about the tool. */
  lemma NotBefore(env: Env, s: Store, target: string, result: string, x: nat, p: nat, q: nat)
    requires var listed := Listed(s.tasks, false);
             x <= |listed| && forall y :: 0 <= y < x ==> !RelatedToTool(env, target, result, listed[y].body)
    requires q < p <= |Take(s.tasks, WINDOW)| && |Keep(Visible(false), Take(s.tasks, WINDOW)[..p])| == x
    ensures !AboutTool(env, s, target, result, q)
  {
    var window, v := Take(s.tasks, WINDOW), Visible(false);
    if !s.tasks[q].archived {
      assert v(window[q]);
      KeepPosition(v, window, q);
      KeepGrows(v, window, q, p);
    }
    AboutToolIs(env, s, target, result, q);
  }

  /** A tool result is about the first such task, the one updated last, or about none if there is none. */
  lemma ToolTaskIs(env: Env, s: Store, target: string, result: string) returns (p: nat)
    ensures var found := FirstRelated(env, target, result, Listed(s.tasks, false));
            && (found.None? <==> forall q: nat :: !AboutTool(env, s, target, result, q))
            && (found.Some? ==> AboutTool(env, s, target, result, p) && found.value == s.tasks[p]
                                && forall q: nat :: q < p ==> !AboutTool(env, s, target, result, q))
  {
    var window, listed := Take(s.tasks, WINDOW), Listed(s.tasks, false);
    var x := FirstRelatedAt(env, target, result, listed);
    if x < |listed| {
      p := KeepOrigin(Visible(false), window, x);
      AboutToolIs(env, s, target, result, p);
    } else {
      p := |window|;
      assert window[..p] == window;
    }
    forall q: nat | q < p
      ensures !AboutTool(env, s, target, result, q)
    {
      NotBefore(env, s, target, result, x, p, q);
    }
  }
}
