/** What the caches guarantee over every sequence of calls. */
module OrchestratorLaws {
  import opened Options
  import opened PrefixText
  import opened Orchestrator

  // ----- looking up prefixes -----

  lemma {:induction false} PrefixGetIs(rows: seq<PrefixRow>, prompt: string)
    ensures var best := PrefixGet(rows, prompt);
            && (best.None? <==> forall i :: 0 <= i < |rows| ==> !Matches(rows[i].prefix, prompt))
            && (best.Some? ==>
                  && (exists i :: 0 <= i < |rows| && rows[i] == best.value)
                  && Matches(best.value.prefix, prompt)
                  && forall i :: 0 <= i < |rows| && Matches(rows[i].prefix, prompt) ==>
                       PrefixLength(rows[i].prefix) <= PrefixLength(best.value.prefix))
  {
    if rows != [] {
      var n := |rows| - 1;
      PrefixGetIs(rows[..n], prompt);
      assert forall i :: 0 <= i < n ==> rows[..n][i] == rows[i];
      var before, best := PrefixGet(rows[..n], prompt), PrefixGet(rows, prompt);
      if before.Some? {
        var i :| 0 <= i < n && rows[..n][i] == before.value;
        assert rows[i] == before.value;
      }
      assert best.Some? && best != before ==> rows[n] == best.value;
    }
  }

  ghost predicate PrefixesDistinct(rows: seq<PrefixRow>) {
    forall i, j :: 0 <= i < j < |rows| ==> rows[i].prefix != rows[j].prefix
  }

  /** A put leaves exactly one row of its prefix, and every other row as it was. */
  lemma PutIs(rows: seq<PrefixRow>, row: PrefixRow)
    requires PrefixesDistinct(rows)
    ensures PrefixesDistinct(PrefixPut(rows, row))
    ensures forall r :: r in PrefixPut(rows, row) <==> r == row || (r in rows && r.prefix != row.prefix)
    ensures |PrefixPut(rows, row)| == |rows| + if HasPrefix(rows, row.prefix) then 0 else 1
  {
    var after := PrefixPut(rows, row);
    if HasPrefix(rows, row.prefix) {
      var i :| 0 <= i < |rows| && rows[i].prefix == row.prefix;
      assert after[i] == row;
      forall r | r in rows && r.prefix != row.prefix
        ensures r in after
      {
        var j :| 0 <= j < |rows| && rows[j] == r;
        assert after[j] == r;
      }
    }
  }

  /** From then on every prompt that begins with the prefix is answered by a row at least as long. */
  lemma PutServes(rows: seq<PrefixRow>, row: PrefixRow, prompt: string)
    requires PrefixesDistinct(rows) && row.prefix <= prompt
    ensures var hit := PrefixGet(PrefixPut(rows, row), prompt);
            hit.Some? && PrefixLength(hit.value.prefix) >= PrefixLength(row.prefix)
  {
    PutIs(rows, row);
    PrefixGetIs(PrefixPut(rows, row), prompt);
    PrefixMatchesItsPrompts(row.prefix, prompt);
    var i :| 0 <= i < |PrefixPut(rows, row)| && PrefixPut(rows, row)[i] == row;
  }

  /** A prompt that missed the prefix table has no row under any prefix of it. */
  lemma MissedMeansNew(rows: seq<PrefixRow>, prompt: string, prefix: string)
    requires PrefixGet(rows, prompt).None? && prefix <= prompt
    ensures !HasPrefix(rows, prefix)
  {
    PrefixGetIs(rows, prompt);
    PrefixMatchesItsPrompts(prefix, prompt);
  }

  // ----- one call -----

  /** Both tables are off limits to every call that is not answered live: the call reaches its providers
      exactly when all tiers miss, and then each table gains one row and loses none. */
  lemma LiveAddsOneRowEach(cfg: Config, c: Caches, call: Call)
    requires cfg.exactOn && cfg.prefixOn
    ensures var (c', r) := Generate(cfg, c, call);
            && (Lookup(cfg, c, call).Some? || LiveAnswer(cfg, call).NotProduced? ==> c' == c && !WasLive(r) && !r.Panicked?)
            && (Lookup(cfg, c, call).None? && LiveAnswer(cfg, call).Produced? ==>
                  && cfg.hash(call.prompt) !in c.exact
                  && c'.exact == c.exact[cfg.hash(call.prompt) := CachedAnswer(LiveAnswer(cfg, call).provider, LiveAnswer(cfg, call).response)]
                  && (r.Panicked? <==> StoredPrefix(call.prompt).None?)
                  && (r.Panicked? ==> c'.prefixes == c.prefixes)
                  && (!r.Panicked? ==>
                        && WasLive(r)
                        && c'.exact[cfg.hash(call.prompt)] == r.answer
                        && !HasPrefix(c.prefixes, StoredPrefix(call.prompt).value)
                        && c'.prefixes == c.prefixes + [PrefixRow(StoredPrefix(call.prompt).value, r.answer)]))
  {
    if Lookup(cfg, c, call).None? && LiveAnswer(cfg, call).Produced? {
      CutExactlyWhen(call.prompt);
      if StoredPrefix(call.prompt).Some? {
        MissedMeansNew(c.prefixes, call.prompt, StoredPrefix(call.prompt).value);
      }
    }
  }

  /** A call panics exactly when the tiers miss, a provider answers, and a character of the prompt
      lies across byte 128; the answer is then lost to this caller. */
  lemma PanicsExactlyWhen(cfg: Config, c: Caches, call: Call)
    ensures Generate(cfg, c, call).1.Panicked?
            <==> Lookup(cfg, c, call).None? && LiveAnswer(cfg, call).Produced? && cfg.prefixOn && Straddles(call.prompt)
  {
    CutExactlyWhen(call.prompt);
  }

  // ----- runs -----

  function CountLive(replies: seq<Reply>): nat {
    if replies == [] then 0
    else CountLive(replies[..|replies| - 1]) + (if WasLive(replies[|replies| - 1]) then 1 else 0)
  }

  function CountPanics(replies: seq<Reply>): nat {
    if replies == [] then 0
    else CountPanics(replies[..|replies| - 1]) + (if replies[|replies| - 1].Panicked? then 1 else 0)
  }

  /** The prefix table has one row per live answer and the exact table one more per panic, because no
      put ever overwrites. */
  lemma {:induction false} TableSizes(cfg: Config, states: seq<Caches>, calls: seq<Call>, replies: seq<Reply>)
    requires IsRun(cfg, states, calls, replies) && cfg.exactOn && cfg.prefixOn
    ensures var c := states[|calls|];
            && |c.prefixes| == CountLive(replies)
            && |c.exact| == CountLive(replies) + CountPanics(replies)
            && PrefixesDistinct(c.prefixes)
  {
    var n := |calls|;
    if n > 0 {
      TableSizes(cfg, states[..n], calls[..n - 1], replies[..n - 1]);
      assert Generate(cfg, states[n - 1], calls[n - 1]) == (states[n], replies[n - 1]);
      LiveAddsOneRowEach(cfg, states[n - 1], calls[n - 1]);
    }
  }

  /** Both sizes equal the number of live answers exactly when no call that missed every tier, and was
      answered by a provider, had a prompt with a character across byte 128. */
  lemma SizesAgreeExactlyWhen(cfg: Config, states: seq<Caches>, calls: seq<Call>, replies: seq<Reply>)
    requires IsRun(cfg, states, calls, replies) && cfg.exactOn && cfg.prefixOn
    ensures var c := states[|calls|];
            |c.exact| == |c.prefixes| == CountLive(replies)
            <==> forall k :: 0 <= k < |calls| && Lookup(cfg, states[k], calls[k]).None? && LiveAnswer(cfg, calls[k]).Produced? ==>
                   !Straddles(calls[k].prompt)
  {
    TableSizes(cfg, states, calls, replies);
    NoPanicsExactlyWhen(replies);
    forall k | 0 <= k < |calls|
      ensures replies[k].Panicked? <==> Lookup(cfg, states[k], calls[k]).None? && LiveAnswer(cfg, calls[k]).Produced? && Straddles(calls[k].prompt)
    {
      assert Generate(cfg, states[k], calls[k]) == (states[k + 1], replies[k]);
      PanicsExactlyWhen(cfg, states[k], calls[k]);
    }
  }

  lemma {:induction false} NoPanicsExactlyWhen(replies: seq<Reply>)
    ensures CountPanics(replies) == 0 <==> forall k :: 0 <= k < |replies| ==> !replies[k].Panicked?
  {
    if replies != [] {
      NoPanicsExactlyWhen(replies[..|replies| - 1]);
    }
  }

  /** An exact row, once there, is never changed. */
  lemma {:induction false} ExactRowsStay(cfg: Config, states: seq<Caches>, calls: seq<Call>, replies: seq<Reply>, i: nat, j: nat, key: string)
    requires IsRun(cfg, states, calls, replies) && cfg.exactOn && i <= j < |states|
    requires key in states[i].exact
    ensures key in states[j].exact && states[j].exact[key] == states[i].exact[key]
    decreases j
  {
    if i < j {
      ExactRowsStay(cfg, states, calls, replies, i, j - 1, key);
      assert Generate(cfg, states[j - 1], calls[j - 1]) == (states[j], replies[j - 1]);
    }
  }

  /** Once a prompt is answered live, every later call for it returns that provider and response, from
      the exact tier; after a panic, the lost answer. */
  lemma LiveAnswersAreSticky(cfg: Config, states: seq<Caches>, calls: seq<Call>, replies: seq<Reply>, i: nat, j: nat)
    requires IsRun(cfg, states, calls, replies) && cfg.exactOn && i < j < |calls| && calls[j].prompt == calls[i].prompt
    ensures WasLive(replies[i]) ==> replies[j] == Answered(replies[i].answer, "exact")
    ensures replies[i].Panicked? ==>
              var live := LiveAnswer(cfg, calls[i]);
              live.Produced? && replies[j] == Answered(CachedAnswer(live.provider, live.response), "exact")
  {
    assert Generate(cfg, states[i], calls[i]) == (states[i + 1], replies[i]);
    assert Generate(cfg, states[j], calls[j]) == (states[j + 1], replies[j]);
    if WasLive(replies[i]) || replies[i].Panicked? {
      ExactRowsStay(cfg, states, calls, replies, i + 1, j, cfg.hash(calls[i].prompt));
    }
  }

  // ----- a concrete panic -----

  const ONE: P.ProviderConfig := P.ProviderConfig("ollama", true, false, "")

  function Ask(prompt: string, response: string): Call {
    Call(prompt, false, [], None, (i: nat) => P.Success(response), P.Failure(""))
  }

  function Plain(hash: string -> string): Config {
    Config(true, true, false, false, ["local"], map["local" := ONE], hash)
  }

  /** A prompt whose byte 128 falls inside a character: the first call panics, the next one answers. */
  lemma StraddlingPromptPanics(cfg: Config, first: string, second: string)
    requires cfg == Plain(cfg.hash)
    ensures var (c, r) := Generate(cfg, EMPTY, Ask(STRADDLING, first));
            && r.Panicked? && |c.exact| == 1 && c.prefixes == []
            && Generate(cfg, c, Ask(STRADDLING, second)) == (c, Answered(CachedAnswer("local", first), "exact"))
  {
    StraddlingHasNoCut();
  }
}
