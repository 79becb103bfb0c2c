/** When a prompt keeps its answer: the exact condition under which a later call for it answers otherwise. */
module StickyLaws {
  import opened Options
  import opened Folds
  import opened Text
  import opened PrefixText
  import opened Orchestrator
  import opened OrchestratorLaws

  /** The answer the exact and prefix tiers have for a prompt. */
  function Stored(cfg: Config, c: Caches, prompt: string): Option<CachedAnswer> {
    if cfg.hash(prompt) in c.exact then Some(c.exact[cfg.hash(prompt)])
    else if PrefixGet(c.prefixes, prompt).Some? then Some(PrefixGet(c.prefixes, prompt).value.answer)
    else None
  }

  // ----- one call -----

  /** The call is answered by a provider, and the prefix then stored matches `prompt` and is longer than `row`'s. */
  predicate Overtakes(cfg: Config, c: Caches, call: Call, prompt: string, row: PrefixRow) {
    && Lookup(cfg, c, call).None? && LiveAnswer(cfg, call).Produced?
    && StoredPrefix(call.prompt).Some?
    && Matches(StoredPrefix(call.prompt).value, prompt)
    && PrefixLength(StoredPrefix(call.prompt).value) > PrefixLength(row.prefix)
  }

  function Answer(live: P.Live): CachedAnswer
    requires live.Produced?
  {
    CachedAnswer(live.provider, live.response)
  }

  /** A call changes the row that answers another prompt exactly when it overtakes it, and the answer
      exactly when it also answers differently. */
  lemma AnswerChangesExactlyWhen(cfg: Config, c: Caches, call: Call, prompt: string)
    requires cfg.exactOn && cfg.prefixOn && CollisionFree(cfg)
    requires cfg.hash(prompt) !in c.exact && PrefixGet(c.prefixes, prompt).Some?
    ensures var c', row := Generate(cfg, c, call).0, PrefixGet(c.prefixes, prompt).value;
            && cfg.hash(prompt) !in c'.exact
            && (PrefixGet(c'.prefixes, prompt) != Some(row) <==> Overtakes(cfg, c, call, prompt, row))
            && (Stored(cfg, c', prompt) != Stored(cfg, c, prompt)
                <==> Overtakes(cfg, c, call, prompt, row) && Answer(LiveAnswer(cfg, call)) != row.answer)
  {
    LiveAddsOneRowEach(cfg, c, call);
    if Lookup(cfg, c, call).None? && LiveAnswer(cfg, call).Produced? {
      assert call.prompt != prompt;
      if StoredPrefix(call.prompt).Some? {
        var row := PrefixRow(StoredPrefix(call.prompt).value, Answer(LiveAnswer(cfg, call)));
        assert (c.prefixes + [row])[..|c.prefixes|] == c.prefixes;
      }
    }
  }

  // ----- runs -----

  /** The prefix rows that calls `i` up to `j` stored. */
  function RowsStored(calls: seq<Call>, replies: seq<Reply>, i: nat, j: nat): seq<PrefixRow>
    requires i <= j <= |calls| && |calls| == |replies|
    decreases j
  {
    if i == j then []
    else RowsStored(calls, replies, i, j - 1) + RowStored(calls[j - 1], replies[j - 1])
  }

  lemma {:induction false} RowsStoredAre(calls: seq<Call>, replies: seq<Reply>, i: nat, j: nat, x: nat)
    requires i <= j <= |calls| && |calls| == |replies| && x < |RowsStored(calls, replies, i, j)|
    ensures exists k :: i <= k < j && WasLive(replies[k])
              && Some(RowsStored(calls, replies, i, j)[x].prefix) == StoredPrefix(calls[k].prompt)
    decreases j
  {
    if x < |RowsStored(calls, replies, i, j - 1)| {
      RowsStoredAre(calls, replies, i, j - 1, x);
    }
  }

  /** What call `k` stores. */
  function RowStored(call: Call, reply: Reply): seq<PrefixRow> {
    var prefix := StoredPrefix(call.prompt);
    if WasLive(reply) && prefix.Some? then [PrefixRow(prefix.value, reply.answer)] else []
  }

  lemma CallGrows(cfg: Config, c: Caches, call: Call, c': Caches, reply: Reply)
    requires cfg.exactOn && cfg.prefixOn && Generate(cfg, c, call) == (c', reply)
    ensures c'.prefixes == c.prefixes + RowStored(call, reply)
  {
    LiveAddsOneRowEach(cfg, c, call);
  }

  /** The prefix table only ever grows at its end. */
  lemma {:induction false} PrefixesGrow(cfg: Config, states: seq<Caches>, calls: seq<Call>, replies: seq<Reply>, i: nat, j: nat)
    requires IsRun(cfg, states, calls, replies) && cfg.exactOn && cfg.prefixOn && i <= j < |states|
    ensures states[j].prefixes == states[i].prefixes + RowsStored(calls, replies, i, j)
    decreases j
  {
    if i < j {
      PrefixesGrow(cfg, states, calls, replies, i, j - 1);
      CallGrows(cfg, states[j - 1], calls[j - 1], states[j], replies[j - 1]);
      Assoc(states[i].prefixes, RowsStored(calls, replies, i, j - 1), RowStored(calls[j - 1], replies[j - 1]));
    }
  }

  /** Which of an earlier and a later row answers. */
  function Longer(early: Option<PrefixRow>, late: Option<PrefixRow>): Option<PrefixRow> {
    if late.None? then early
    else if early.Some? && PrefixLength(early.value.prefix) >= PrefixLength(late.value.prefix) then early
    else late
  }

  lemma PrefixGetNext(rows: seq<PrefixRow>, row: PrefixRow, prompt: string)
    ensures PrefixGet(rows + [row], prompt)
            == if Matches(row.prefix, prompt) then Longer(PrefixGet(rows, prompt), Some(row)) else PrefixGet(rows, prompt)
  {
    assert (rows + [row])[..|rows|] == rows;
  }

  lemma {:induction false} PrefixGetAppend(early: seq<PrefixRow>, late: seq<PrefixRow>, prompt: string)
    ensures PrefixGet(early + late, prompt) == Longer(PrefixGet(early, prompt), PrefixGet(late, prompt))
  {
    if late == [] {
      assert early + late == early;
    } else {
      var front, last := late[..|late| - 1], late[|late| - 1];
      PrefixGetAppend(early, front, prompt);
      PrefixGetNext(early + front, last, prompt);
      PrefixGetNext(front, last, prompt);
      assert late == front + [last];
      Assoc(early, front, [last]);
    }
  }

  /** A prompt answered by a prefix keeps being answered by one, as long as no live answer of its own is stored. */
  lemma {:induction false} NeverExact(cfg: Config, states: seq<Caches>, calls: seq<Call>, replies: seq<Reply>, i: nat, j: nat, prompt: string)
    requires IsRun(cfg, states, calls, replies) && cfg.exactOn && cfg.prefixOn && CollisionFree(cfg) && i <= j < |states|
    requires cfg.hash(prompt) !in states[i].exact && PrefixGet(states[i].prefixes, prompt).Some?
    ensures cfg.hash(prompt) !in states[j].exact && PrefixGet(states[j].prefixes, prompt).Some?
    decreases j
  {
    if i < j {
      NeverExact(cfg, states, calls, replies, i, j - 1, prompt);
      assert Generate(cfg, states[j - 1], calls[j - 1]) == (states[j], replies[j - 1]);
      AnswerChangesExactlyWhen(cfg, states[j - 1], calls[j - 1], prompt);
      CallGrows(cfg, states[j - 1], calls[j - 1], states[j], replies[j - 1]);
      PrefixGetAppend(states[j - 1].prefixes, RowStored(calls[j - 1], replies[j - 1]), prompt);
    }
  }

  /** Calls `i` and `j` for one prompt answer differently exactly when the first was answered by a prefix,
      and the longest matching prefix stored in between is longer and answers differently. */
  lemma AnswersDifferExactlyWhen(cfg: Config, states: seq<Caches>, calls: seq<Call>, replies: seq<Reply>, i: nat, j: nat)
    requires IsRun(cfg, states, calls, replies) && cfg.exactOn && cfg.prefixOn && CollisionFree(cfg)
    requires i < j < |calls| && calls[j].prompt == calls[i].prompt
    requires replies[i].Answered? && replies[i].tier != "semantic"
    ensures var early := PrefixGet(states[i].prefixes, calls[i].prompt);
            var late := PrefixGet(RowsStored(calls, replies, i, j), calls[i].prompt);
            && replies[j].Answered?
            && (replies[j].answer != replies[i].answer
                <==> && replies[i].tier == "prefix" && early.Some? && late.Some?
                     && PrefixLength(late.value.prefix) > PrefixLength(early.value.prefix)
                     && late.value.answer != replies[i].answer)
  {
    var prompt := calls[i].prompt;
    assert Generate(cfg, states[i], calls[i]) == (states[i + 1], replies[i]);
    assert Generate(cfg, states[j], calls[j]) == (states[j + 1], replies[j]);
    if cfg.hash(prompt) in states[i].exact {
      ExactRowsStay(cfg, states, calls, replies, i, j, cfg.hash(prompt));
    } else if PrefixGet(states[i].prefixes, prompt).Some? {
      NeverExact(cfg, states, calls, replies, i, j, prompt);
      PrefixesGrow(cfg, states, calls, replies, i, j);
      PrefixGetAppend(states[i].prefixes, RowsStored(calls, replies, i, j), prompt);
    } else {
      LiveAnswersAreSticky(cfg, states, calls, replies, i, j);
    }
  }

  // ----- without wildcards -----

  /** What is stored of this prompt has no wildcard and no NUL. */
  predicate StoredLiterally(call: Call) {
    StoredPrefix(call.prompt).Some? ==> Literal(StoredPrefix(call.prompt).value)
  }

  lemma {:induction false} UpToNulLiteral(s: string)
    requires Literal(s)
    ensures UpToNul(s) == s
  {
    if s != "" {
      UpToNulLiteral(s[1..]);
    }
  }

  lemma {:induction false} UpToNulPrefix(p: string, s: string)
    requires Literal(p) && p <= s
    ensures p <= UpToNul(s)
  {
    if p != "" {
      assert p[0] == s[0] && p[1..] <= s[1..];
      UpToNulPrefix(p[1..], s[1..]);
      assert p == [p[0]] + p[1..];
    }
  }

  /** Two literal prefixes of one prompt: the one whose own prompt missed the other is the shorter. */
  lemma LiteralIsShorter(early: string, late: string, source: string, prompt: string)
    requires Literal(early) && Literal(late) && late <= source && !Matches(early, source)
    requires Matches(early, prompt) && Matches(late, prompt)
    ensures PrefixLength(late) < PrefixLength(early)
  {
    LiteralMatches(early, prompt);
    LiteralMatches(early, source);
    LiteralMatches(late, prompt);
    UpToNulPrefix(late, source);
    UpToNulLiteral(late);
    UpToNulLiteral(early);
  }

  /** As long as no stored prefix has a wildcard, every answer but a semantic one is final: however a
      prompt was first answered, live, exact or by a prefix, later calls for it answer the same. */
  lemma EveryAnswerIsSticky(cfg: Config, states: seq<Caches>, calls: seq<Call>, replies: seq<Reply>, i: nat, j: nat)
    requires IsRun(cfg, states, calls, replies) && cfg.exactOn && cfg.prefixOn && CollisionFree(cfg)
    requires forall k :: 0 <= k < |calls| ==> StoredLiterally(calls[k])
    requires i < j < |calls| && calls[j].prompt == calls[i].prompt
    requires replies[i].Answered? && replies[i].tier != "semantic"
    ensures replies[j].Answered? && replies[j].answer == replies[i].answer
  {
    var prompt := calls[i].prompt;
    AnswersDifferExactlyWhen(cfg, states, calls, replies, i, j);
    var early, late := PrefixGet(states[i].prefixes, prompt), PrefixGet(RowsStored(calls, replies, i, j), prompt);
    if early.Some? && late.Some? {
      LaterIsShorter(cfg, states, calls, replies, i, j, prompt);
    }
  }

  /** A live call missed every row of the table it found. */
  lemma LiveMissed(cfg: Config, c: Caches, call: Call, c': Caches, reply: Reply, y: nat)
    requires cfg.exactOn && cfg.prefixOn && Generate(cfg, c, call) == (c', reply) && WasLive(reply)
    requires y < |c.prefixes|
    ensures !Matches(c.prefixes[y].prefix, call.prompt)
  {
    PrefixGetIs(c.prefixes, call.prompt);
  }

  lemma RowIsLiteral(cfg: Config, states: seq<Caches>, calls: seq<Call>, replies: seq<Reply>, i: nat, y: nat)
    requires IsRun(cfg, states, calls, replies) && cfg.exactOn && cfg.prefixOn
    requires forall k :: 0 <= k < |calls| ==> StoredLiterally(calls[k])
    requires i <= |calls| && y < |states[i].prefixes|
    ensures Literal(states[i].prefixes[y].prefix)
  {
    PrefixesGrow(cfg, states, calls, replies, 0, i);
    RowsStoredAre(calls, replies, 0, i, y);
    var k :| 0 <= k < i && WasLive(replies[k]) && Some(RowsStored(calls, replies, 0, i)[y].prefix) == StoredPrefix(calls[k].prompt);
    assert StoredLiterally(calls[k]);
  }

  lemma LaterIsShorter(cfg: Config, states: seq<Caches>, calls: seq<Call>, replies: seq<Reply>, i: nat, j: nat, prompt: string)
    requires IsRun(cfg, states, calls, replies) && cfg.exactOn && cfg.prefixOn
    requires forall k :: 0 <= k < |calls| ==> StoredLiterally(calls[k])
    requires i <= j <= |calls|
    requires PrefixGet(states[i].prefixes, prompt).Some? && PrefixGet(RowsStored(calls, replies, i, j), prompt).Some?
    ensures PrefixLength(PrefixGet(RowsStored(calls, replies, i, j), prompt).value.prefix)
            < PrefixLength(PrefixGet(states[i].prefixes, prompt).value.prefix)
  {
    var rows := RowsStored(calls, replies, i, j);
    PrefixGetIs(states[i].prefixes, prompt);
    PrefixGetIs(rows, prompt);
    var early, late := PrefixGet(states[i].prefixes, prompt).value, PrefixGet(rows, prompt).value;
    var x :| 0 <= x < |rows| && rows[x] == late;
    var y :| 0 <= y < |states[i].prefixes| && states[i].prefixes[y] == early;
    RowsStoredAre(calls, replies, i, j, x);
    var k :| i <= k < j && WasLive(replies[k]) && Some(rows[x].prefix) == StoredPrefix(calls[k].prompt);
    RowIsLiteral(cfg, states, calls, replies, i, y);
    PrefixesGrow(cfg, states, calls, replies, i, k);
    LiveMissed(cfg, states[k], calls[k], states[k + 1], replies[k], y);
    CutExactlyWhen(calls[k].prompt);
    assert StoredLiterally(calls[k]);
    LiteralIsShorter(early.prefix, late.prefix, calls[k].prompt, prompt);
  }

  // ----- a prefix answer that changes -----

  lemma ShortPrefixes()
    ensures StoredPrefix("a") == Some("a") && StoredPrefix("_x") == Some("_x")
    ensures UpToNul("a") == "a" && UpToNul("_x") == "_x"
  {
    assert "a"[1..] == "" && Bytes("a") == 1;
    assert "_x"[1..] == "x" && "x"[1..] == "" && Bytes("_x") == 2;
    CutExactlyWhen("a");
    CutExactlyWhen("_x");
    assert UpToNul("x") == "x";
  }

  lemma ShortMatches()
    ensures Matches("a", "ax") && !Matches("a", "_x") && Matches("_x", "ax")
  {
    PrefixMatchesItsPrompts("a", "ax");
    LiteralMatches("a", "_x");
    ShortPrefixes();
    assert Lower("a")[0] == 'a' && Lower("_x")[0] == '_';
    assert "_x%"[1..] == "x%" && "x%"[1..] == "%" && "%"[1..] == "" && "ax"[1..] == "x" && "x"[1..] == "";
    assert UpToNul("%") == "%" && UpToNul("x%") == "x%" && UpToNul("_x%") == "_x%" && "_x" + "%" == "_x%";
    assert UpToNul("x") == "x" && UpToNul("ax") == "ax";
    LikeAny("");
    assert Like("x%", "x");
  }

  lemma PutStep(cfg: Config, c: Caches, prompt: string, response: string)
    requires cfg == Plain(cfg.hash) && StoredPrefix(prompt) == Some(prompt)
    requires cfg.hash(prompt) !in c.exact && PrefixGet(c.prefixes, prompt).None?
    ensures var a := CachedAnswer("local", response);
            Generate(cfg, c, Ask(prompt, response))
            == (Caches(c.exact[cfg.hash(prompt) := a], c.prefixes + [PrefixRow(prompt, a)]), Answered(a, "live"))
  {
    MissedMeansNew(c.prefixes, prompt, prompt);
  }

  const FIRST := CachedAnswer("local", "1")
  const SECOND := CachedAnswer("local", "2")

  function AfterFirst(cfg: Config): Caches {
    Caches(map[cfg.hash("a") := FIRST], [PrefixRow("a", FIRST)])
  }

  function AfterSecond(cfg: Config): Caches {
    Caches(AfterFirst(cfg).exact[cfg.hash("_x") := SECOND], [PrefixRow("a", FIRST), PrefixRow("_x", SECOND)])
  }

  lemma FirstTwoSteps(cfg: Config)
    requires cfg == Plain(cfg.hash) && CollisionFree(cfg)
    ensures Generate(cfg, EMPTY, Ask("a", "1")) == (AfterFirst(cfg), Answered(FIRST, "live"))
    ensures Generate(cfg, AfterFirst(cfg), Ask("ax", "0")) == (AfterFirst(cfg), Answered(FIRST, "prefix"))
  {
    ShortPrefixes();
    Hits(AfterFirst(cfg).prefixes, "ax", "_x", FIRST, SECOND);
    PutStep(cfg, EMPTY, "a", "1");
    assert EMPTY.exact[cfg.hash("a") := FIRST] == AfterFirst(cfg).exact;
    assert EMPTY.prefixes + [PrefixRow("a", FIRST)] == AfterFirst(cfg).prefixes;
    assert "ax" != "a" by { assert |"ax"| == 2; }
  }

  lemma LastTwoSteps(cfg: Config)
    requires cfg == Plain(cfg.hash) && CollisionFree(cfg)
    ensures Generate(cfg, AfterFirst(cfg), Ask("_x", "2")) == (AfterSecond(cfg), Answered(SECOND, "live"))
    ensures Generate(cfg, AfterSecond(cfg), Ask("ax", "0")) == (AfterSecond(cfg), Answered(SECOND, "prefix"))
  {
    ShortPrefixes();
    Hits(AfterFirst(cfg).prefixes, "ax", "_x", FIRST, SECOND);
    assert "ax" != "a" && "_x" != "a" && "_x" != "ax" by { assert |"ax"| == 2 && "_x"[0] == '_'; }
    PutStep(cfg, AfterFirst(cfg), "_x", "2");
    assert AfterFirst(cfg).prefixes + [PrefixRow("_x", SECOND)] == AfterSecond(cfg).prefixes;
  }

  /** Without the condition on wildcards: the prompt "ax" is answered by the prefix "a" until "_x" is
      stored, whose underscore matches any character. */
  lemma WildcardStealsAnswer(cfg: Config)
    requires cfg == Plain(cfg.hash) && CollisionFree(cfg)
    ensures var c1, c2 := AfterFirst(cfg), AfterSecond(cfg);
            IsRun(cfg, [EMPTY, c1, c1, c2, c2], [Ask("a", "1"), Ask("ax", "0"), Ask("_x", "2"), Ask("ax", "0")],
                  [Answered(FIRST, "live"), Answered(FIRST, "prefix"), Answered(SECOND, "live"), Answered(SECOND, "prefix")])
    ensures FIRST != SECOND
  {
    FirstTwoSteps(cfg);
    LastTwoSteps(cfg);
    assert FIRST.response[0] == '1' && SECOND.response[0] == '2';
    var c1, c2 := AfterFirst(cfg), AfterSecond(cfg);
    var states := [EMPTY, c1, c1, c2, c2];
    var calls := [Ask("a", "1"), Ask("ax", "0"), Ask("_x", "2"), Ask("ax", "0")];
    var replies := [Answered(FIRST, "live"), Answered(FIRST, "prefix"), Answered(SECOND, "live"), Answered(SECOND, "prefix")];
    forall k | 0 <= k < 4
      ensures Generate(cfg, states[k], calls[k]) == (states[k + 1], replies[k])
    {
      assert k == 0 || k == 1 || k == 2 || k == 3;
    }
  }

  lemma Hits(rows: seq<PrefixRow>, hit: string, miss: string, one: CachedAnswer, two: CachedAnswer)
    requires rows == [PrefixRow("a", one)] && hit == "ax" && miss == "_x"
    ensures PrefixGet(rows, hit) == Some(PrefixRow("a", one)) && PrefixGet(rows, miss).None?
    ensures PrefixGet([PrefixRow("a", one), PrefixRow("_x", two)], hit) == Some(PrefixRow("_x", two))
  {
    ShortMatches();
    ShortPrefixes();
    assert rows[..0] == [];
    assert PrefixGet(rows[..0], hit) == None;
    assert [PrefixRow("a", one), PrefixRow("_x", two)][..1] == rows;
  }
}
