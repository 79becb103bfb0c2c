/** How far a task's summary can drift when similarity merges overwrite it, whatever happens in between. */
module BrainDrift {
  import opened Options
  import opened Folds
  import opened Text
  import opened Jaccard
  import opened Brain
  import opened BrainInvariant
  import opened BrainRuns
  import opened BrainIngest

  /** The summary of task `id`. */
  function SummaryOf(s: Store, id: string): string {
    match Find(s.tasks, id)
    case None => ""
    case Some(row) => row.body.summary
  }

  // ----- one merge -----

  /** One merge of `t` into task `id`, chosen by similarity. */
  ghost predicate Merges(env: Env, s: Store, t: Task, id: string, s': Store) {
    var found := FindSimilar(env, s, t.summary, t.scope);
    found.Some? && found.value.id == id && s' == MergeTask(env, s, t)
  }

  lemma {:induction false} FindOf<T>(rows: seq<Row<T>>, i: nat)
    requires UniqueIds(rows) && i < |rows|
    ensures Find(rows, rows[i].id) == Some(rows[i])
  {
    if i > 0 {
      FindOf(rows[1..], i - 1);
    }
  }

  /** One merge: the new summary is at least 0.72 similar to the one it overwrites. */
  lemma MergeIsClose(env: Env, s: Store, t: Task, id: string, s': Store)
    requires UniqueIds(s.tasks) && Merges(env, s, t, id, s')
    ensures SummaryOf(s', id) == t.summary
    ensures Likeness(env.letters, SummaryOf(s, id), t.summary) >= MERGE_THRESHOLD
  {
    var found := FindSimilar(env, s, t.summary, t.scope).value;
    FindSimilarMeaning(env, s, t.summary, t.scope);
    ListedMembers(s.tasks, false);
    var i :| 0 <= i < |s.tasks| && s.tasks[i] == found;
    FindOf(s.tasks, i);
    LikenessOne(env.letters, t.summary, found.body.summary);
  }

  // ----- merges with other writes in between -----

  /** Each merge starts from a store with unique ids in which the task has the summary the one before left. */
  ghost predicate MergesApart(env: Env, before: seq<Store>, inputs: seq<Task>, after: seq<Store>, id: string) {
    && |before| == |inputs| == |after|
    && (forall k :: 0 <= k < |inputs| ==> UniqueIds(before[k].tasks) && Merges(env, before[k], inputs[k], id, after[k]))
    && (forall k :: 0 < k < |inputs| ==> SummaryOf(before[k], id) == SummaryOf(after[k - 1], id))
  }

  function SummariesOf(stores: seq<Store>, id: string): (texts: seq<string>)
    ensures |texts| == |stores|
    ensures forall k :: 0 <= k < |stores| ==> texts[k] == SummaryOf(stores[k], id)
  {
    seq(|stores|, k requires 0 <= k < |stores| => SummaryOf(stores[k], id))
  }

  lemma LinkIsClose(env: Env, before: seq<Store>, inputs: seq<Task>, after: seq<Store>, id: string, k: nat)
    requires MergesApart(env, before, inputs, after, id) && k < |inputs|
    ensures Likeness(env.letters, SummariesOf(before, id)[k], SummariesOf(after, id)[k]) >= 0.72
    ensures k > 0 ==> SummariesOf(before, id)[k] == SummariesOf(after, id)[k - 1]
  {
    MergeIsClose(env, before[k], inputs[k], id, after[k]);
  }

  /** After `n` similarity merges into one task, whatever was written in between as long as it left the
      summary alone, its first and last summaries are at least `1 - 0.28 n` similar. */
  lemma MergeDrift(env: Env, before: seq<Store>, inputs: seq<Task>, after: seq<Store>, id: string)
    requires MergesApart(env, before, inputs, after, id) && inputs != []
    ensures Likeness(env.letters, SummaryOf(before[0], id), SummaryOf(after[|after| - 1], id)) >= 1.0 - 0.28 * |inputs| as real
  {
    var olds, news := SummariesOf(before, id), SummariesOf(after, id);
    forall k | 0 <= k < |olds|
      ensures Likeness(env.letters, olds[k], news[k]) >= 0.72
      ensures k > 0 ==> olds[k] == news[k - 1]
    {
      LinkIsClose(env, before, inputs, after, id, k);
    }
    LinksDrift(env.letters, olds, news, |olds| - 1);
  }

  /** The summaries `first` and `last` are equal if no merge lies between them, and drift with their number. */
  ghost predicate Drifted(letters: char -> bool, first: string, last: string, n: nat) {
    if n == 0 then first == last
    else TokenSet(letters, first) != {} && Likeness(letters, first, last) >= 1.0 - 0.28 * n as real
  }

  lemma HasTokens(letters: char -> bool, a: string, b: string)
    requires Likeness(letters, a, b) > 0.0
    ensures TokenSet(letters, a) != {} && TokenSet(letters, b) != {}
  {
    SimilarityIsJaccard(letters, a, b);
    IndexPositive(TokenSet(letters, a), TokenSet(letters, b));
  }

  /** One merge more. */
  lemma Further(letters: char -> bool, first: string, before: string, last: string, n: nat)
    requires Drifted(letters, first, before, n) && Likeness(letters, before, last) >= 0.72
    ensures Drifted(letters, first, last, n + 1)
  {
    HasTokens(letters, before, last);
    if n > 0 {
      LikenessTriangle(letters, first, before, last);
    }
  }

  lemma {:induction false} LinksDrift(letters: char -> bool, olds: seq<string>, news: seq<string>, n: nat)
    requires |olds| == |news| && n < |olds|
    requires forall k :: 0 <= k < |olds| ==> Likeness(letters, olds[k], news[k]) >= 0.72
    requires forall k :: 0 < k < |olds| ==> olds[k] == news[k - 1]
    ensures Drifted(letters, olds[0], news[n], n + 1)
  {
    if n > 0 {
      LinksDrift(letters, olds, news, n - 1);
    }
    Further(letters, olds[0], olds[n], news[n], n);
  }

  // ----- runs -----

  /** The store and the task with which a step looks for a task to merge into, if it does. */
  function Offered(env: Env, s: Store, a: Action): Option<(Store, Task)> {
    if !Permitted(env, a) then None
    else
      match a
      case DoRemember(q) =>
        var s1 := Retain(env, s);
        if q.kind == "task" then Some((s1, RememberedTask(env, s1.now, q))) else None
      case DoIngest(m) =>
        var s3 := BeforeTask(env, s, m);
        if env.taskIn(m.body).Some? then Some((s3, MessageTask(env, s3.now, m, env.taskIn(m.body).value))) else None
      case DoReply(m, reply) =>
        if env.commitmentIn(reply).Some? then Some((s, ReplyTask(env, s.now, m, reply, env.commitmentIn(reply).value))) else None
      case _ => None
  }

  /** The step merges a task into task `id` because their summaries are similar. */
  ghost predicate StepMerges(env: Env, s: Store, a: Action, id: string) {
    var offered := Offered(env, s, a);
    offered.Some? && Merges(env, offered.value.0, offered.value.1, id, MergeTask(env, offered.value.0, offered.value.1))
  }

  /** Bulk archiving leaves the body that an id finds. */
  lemma FindArchived<T>(p: Row<T> -> bool, rows: seq<Row<T>>, now: int, id: string)
    requires UniqueIds(rows)
    ensures var before, after := Find(rows, id), Find(Archive(p, rows, now), id);
            (before.None? <==> after.None?) && (before.Some? ==> after.value.body == before.value.body)
  {
    var later := Archive(p, rows, now);
    ArchiveKeeps(p, rows, now);
    ArchiveIs(p, rows, now);
    FindSome(rows, id);
    FindSome(later, id);
    assert forall j :: 0 <= j < |later| ==> HasBody(rows, later[j]);
    if i :| 0 <= i < |rows| && rows[i].id == id {
      FindOf(rows, i);
      assert Marked(p, rows[i], now) in later;
      var j :| 0 <= j < |later| && later[j] == Marked(p, rows[i], now);
      FindOf(later, j);
    }
  }

  lemma {:induction false} FindSome<T>(rows: seq<Row<T>>, id: string)
    ensures Find(rows, id).Some? <==> exists i :: 0 <= i < |rows| && rows[i].id == id
  {
    if rows != [] {
      FindSome(rows[1..], id);
      assert forall i :: 0 < i < |rows| ==> rows[i] == rows[1..][i - 1];
      if rows[0].id != id && Find(rows[1..], id).Some? {
        var i :| 0 <= i < |rows[1..]| && rows[1..][i].id == id;
        assert rows[i + 1].id == id;
      }
    }
  }

  lemma SummaryRetained(env: Env, s: Store, id: string)
    requires Sound(s)
    ensures UniqueIds(Retain(env, s).tasks) && SummaryOf(Retain(env, s), id) == SummaryOf(s, id)
  {
    ArchiveKeeps(FadedTask(Cutoff(env, s.now)), s.tasks, s.now + 2);
    FindArchived(FadedTask(Cutoff(env, s.now)), s.tasks, s.now + 2, id);
  }

  /** Up to its merge a step leaves the tasks' summaries alone. */
  lemma BeforeKeeps(env: Env, s: Store, a: Action, id: string)
    requires Sound(s) && Offered(env, s, a).Some?
    ensures var s1 := Offered(env, s, a).value.0;
            UniqueIds(s1.tasks) && SummaryOf(s1, id) == SummaryOf(s, id)
  {
    SummaryRetained(env, s, id);
    if a.DoIngest? {
      BeforeTaskAdds(env, s, a.message);
    }
  }

  /** After its merge a step leaves the tasks alone. */
  lemma AfterKeeps(env: Env, s: Store, a: Action)
    requires Offered(env, s, a).Some?
    ensures var (s1, t) := Offered(env, s, a).value;
            Step(env, s, a).tasks == MergeTask(env, s1, t).tasks
  {
  }

  lemma StepIsClose(env: Env, s: Store, a: Action, id: string, s': Store)
    requires Sound(s) && StepMerges(env, s, a, id) && Leads(env, s, a, s')
    ensures Likeness(env.letters, SummaryOf(s, id), SummaryOf(s', id)) >= 0.72
    ensures TokenSet(env.letters, SummaryOf(s, id)) != {}
  {
    BeforeKeeps(env, s, a, id);
    AfterKeeps(env, s, a);
    var (s1, t) := Offered(env, s, a).value;
    MergeIsClose(env, s1, t, id, MergeTask(env, s1, t));
    HasTokens(env.letters, SummaryOf(s, id), SummaryOf(s', id));
  }

  /** Which steps merge into task `id` by similarity. */
  ghost function MergeFlags(env: Env, states: seq<Store>, acts: seq<Action>, id: string): (flags: seq<bool>)
    requires |acts| < |states|
    ensures |flags| == |acts|
    ensures forall k :: 0 <= k < |acts| ==> flags[k] == StepMerges(env, states[k], acts[k], id)
  {
    seq(|acts|, k requires 0 <= k < |acts| => StepMerges(env, states[k], acts[k], id))
  }

  /** How many of the flags from `i` up to `j` are set. */
  function Count(flags: seq<bool>, i: nat, j: nat): nat
    requires i <= j <= |flags|
    decreases j
  {
    if i == j then 0 else Count(flags, i, j - 1) + One(flags[j - 1])
  }

  /** Only similarity merges change the summary of task `id` between `i` and `j`. */
  ghost predicate OnlyMerges(env: Env, states: seq<Store>, acts: seq<Action>, i: nat, j: nat, id: string)
    requires i <= j <= |acts| && |acts| < |states|
  {
    forall k :: i <= k < j && SummaryOf(states[k + 1], id) != SummaryOf(states[k], id) ==> StepMerges(env, states[k], acts[k], id)
  }

  /** A text either stays close or stays the same. */
  ghost predicate Linked(letters: char -> bool, before: string, after: string, merged: bool) {
    if merged then Likeness(letters, before, after) >= 0.72 else before == after
  }

  lemma {:induction false} TextsDrift(letters: char -> bool, texts: seq<string>, flags: seq<bool>, i: nat, j: nat)
    requires i <= j <= |flags| < |texts|
    requires forall k :: i <= k < j ==> Linked(letters, texts[k], texts[k + 1], flags[k])
    ensures Drifted(letters, texts[i], texts[j], Count(flags, i, j))
    decreases j
  {
    if i < j {
      TextsDrift(letters, texts, flags, i, j - 1);
      assert Linked(letters, texts[j - 1], texts[(j - 1) + 1], flags[j - 1]);
      if flags[j - 1] {
        Further(letters, texts[i], texts[j - 1], texts[j], Count(flags, i, j - 1));
      }
    }
  }

  lemma RunStepLinked(env: Env, states: seq<Store>, acts: seq<Action>, i: nat, j: nat, k: nat, id: string)
    requires IsRun(env, states, acts) && i <= k < j <= |acts| && OnlyMerges(env, states, acts, i, j, id)
    ensures Linked(env.letters, SummariesOf(states, id)[k], SummariesOf(states, id)[k + 1], MergeFlags(env, states, acts, id)[k])
  {
    TaskFloors(env, states, acts, k);
    if StepMerges(env, states[k], acts[k], id) {
      assert Leads(env, states[k], acts[k], states[k + 1]);
      StepIsClose(env, states[k], acts[k], id, states[k + 1]);
    }
  }

  /** In every run: between two points at which only similarity merges change task `id`'s summary in
      between, the summaries are equal if there was no such merge, and otherwise at least `1 - 0.28 n`
      similar, where `n` is the number of merges. */
  lemma MergeDriftInEveryRun(env: Env, states: seq<Store>, acts: seq<Action>, i: nat, j: nat, id: string)
    requires IsRun(env, states, acts) && i <= j <= |acts| && OnlyMerges(env, states, acts, i, j, id)
    ensures Drifted(env.letters, SummaryOf(states[i], id), SummaryOf(states[j], id), Count(MergeFlags(env, states, acts, id), i, j))
  {
    var texts, flags := SummariesOf(states, id), MergeFlags(env, states, acts, id);
    forall k | i <= k < j
      ensures Linked(env.letters, texts[k], texts[k + 1], flags[k])
    {
      RunStepLinked(env, states, acts, i, j, k, id);
    }
    TextsDrift(env.letters, texts, flags, i, j);
  }
}
