/** Where the answer to a prompt comes from, said of the caches, the configuration and the outcomes. */
module AnswerLaws {
  import opened Options
  import opened PrefixText
  import opened Text
  import opened Orchestrator
  import P = Providers

  /** A configured provider of a known kind that is switched on. */
  predicate Available(configs: map<string, P.ProviderConfig>, name: string) {
    name in configs && configs[name].enabled && configs[name].kind in {"ollama", "llamacpp", "openai-compatible"}
  }

  /** The names asked, in order: those the caller gave; without any, those of the configuration, and for work in
      the background these from last to first. */
  ghost predicate IsOrder(cfg: Config, call: Call, order: seq<string>) {
    if call.route != [] then order == call.route
    else if call.background then Backwards(order, cfg.providerOrder)
    else order == cfg.providerOrder
  }

  ghost predicate Backwards(a: seq<string>, b: seq<string>) {
    |a| == |b| && forall i :: 0 <= i < |a| ==> a[i] == b[|a| - 1 - i]
  }

  lemma OrderIs(cfg: Config, call: Call, order: seq<string>)
    requires IsOrder(cfg, call, order)
    ensures order == LiveRoute(cfg, call)
  {
    if call.route == [] && call.background {
      var r := Reverse(cfg.providerOrder);
      assert forall i :: 0 <= i < |order| ==> order[i] == r[i];
    }
  }

  /** The first provider of the order that is available and answers. */
  ghost predicate FirstToAnswer(configs: map<string, P.ProviderConfig>, order: seq<string>, attempts: nat -> P.Outcome, i: nat) {
    && i < |order| && Available(configs, order[i]) && attempts(i).Success?
    && forall j :: 0 <= j < i ==> !(Available(configs, order[j]) && attempts(j).Success?)
  }

  /** The first name of the order that is configured to draft. */
  ghost predicate FirstToDraft(configs: map<string, P.ProviderConfig>, order: seq<string>, i: nat) {
    && i < |order| && order[i] in configs && configs[order[i]].speculative && configs[order[i]].draftModel != ""
    && forall j :: 0 <= j < i ==> order[j] !in configs || !configs[order[j]].speculative || configs[order[j]].draftModel == ""
  }

  lemma {:induction false} DrafterAt(configs: map<string, P.ProviderConfig>, order: seq<string>) returns (d: nat)
    ensures P.Drafter(configs, order).Some? ==> FirstToDraft(configs, order, d) && P.Drafter(configs, order) == Some(order[d])
    ensures P.Drafter(configs, order).None? ==> forall i: nat :: !FirstToDraft(configs, order, i)
  {
    if order != [] && !P.Drafts(configs, order[0]) {
      var k := DrafterAt(configs, order[1..]);
      d := k + 1;
      assert forall i :: 0 < i < |order| ==> order[i] == order[1..][i - 1];
    } else {
      d := 0;
    }
  }

  /** A live answer is that of the first provider of the order that is available and answers; if none does, that of
      the drafter, if drafting is on, and it is available and answered; and otherwise there is none. */
  lemma LiveAnswerIs(cfg: Config, call: Call, order: seq<string>) returns (i: nat, d: nat)
    requires IsOrder(cfg, call, order)
    ensures var live := LiveAnswer(cfg, call);
            var drafts := cfg.speculate && FirstToDraft(cfg.configs, order, d);
            && (!drafts ==> !cfg.speculate || forall x: nat :: !FirstToDraft(cfg.configs, order, x))
            && (FirstToAnswer(cfg.configs, order, call.attempts, i) || forall x: nat :: !FirstToAnswer(cfg.configs, order, call.attempts, x))
            && (if FirstToAnswer(cfg.configs, order, call.attempts, i) then
                  live == P.Produced(order[i], call.attempts(i).response, if drafts then "live+speculative" else "live")
                else if drafts && Available(cfg.configs, order[d]) && call.draft.Success? then
                  live == P.Produced(order[d], call.draft.response, "speculative-fallback")
                else live.NotProduced?)
  {
    OrderIs(cfg, call, order);
    d := DrafterAt(cfg.configs, order);
    i := RouteAt(cfg.configs, order, call.attempts);
    assert FirstToDraft(cfg.configs, order, d) ==>
      (P.Direct(cfg.configs, order[d], call.draft).Success? <==> Available(cfg.configs, order[d]) && call.draft.Success?);
  }

  lemma RouteAt(configs: map<string, P.ProviderConfig>, order: seq<string>, attempts: nat -> P.Outcome) returns (i: nat)
    ensures var routed := P.Route(configs, order, attempts);
            && (routed.Reached? ==> FirstToAnswer(configs, order, attempts, i) && routed == P.Reached(order[i], attempts(i).response))
            && (routed.Unreached? ==> forall x: nat :: !FirstToAnswer(configs, order, attempts, x))
  {
    var routed := P.Route(configs, order, attempts);
    P.RouteMeans(configs, order, attempts, routed);
    assert forall x :: 0 <= x < |order| ==>
      (P.Answers(configs, order, attempts, x) <==> Available(configs, order[x]) && attempts(x).Success?);
    if routed.Reached? {
      i :| 0 <= i < |order| && P.Answers(configs, order, attempts, i)
           && (forall j :: 0 <= j < i ==> !P.Answers(configs, order, attempts, j))
           && routed.provider == order[i] && routed.response == attempts(i).response;
    } else {
      i := 0;
    }
  }

  /** The failed attempts among the first `n` names: each available one that was asked and failed, with what it said. */
  ghost predicate FailuresOf(configs: map<string, P.ProviderConfig>, order: seq<string>, attempts: nat -> P.Outcome, n: nat,
                             errors: seq<string>, at: seq<nat>)
  {
    && |at| == |errors|
    && (forall x :: 0 <= x < |at| ==> at[x] < n && FailedAt(configs, order, attempts, at[x], errors[x]))
    && (forall x, y :: 0 <= x < y < |at| ==> at[x] < at[y])
    && (forall i: nat :: i < n && Fails(configs, order, attempts, i) ==> i in at)
  }

  predicate Fails(configs: map<string, P.ProviderConfig>, order: seq<string>, attempts: nat -> P.Outcome, i: nat) {
    i < |order| && Available(configs, order[i]) && attempts(i).Failure?
  }

  predicate FailedAt(configs: map<string, P.ProviderConfig>, order: seq<string>, attempts: nat -> P.Outcome, i: nat, error: string) {
    Fails(configs, order, attempts, i) && error == order[i] + ": " + attempts(i).error
  }

  lemma OneFailureMore(configs: map<string, P.ProviderConfig>, order: seq<string>, attempts: nat -> P.Outcome, n: nat,
                       errors: seq<string>, at: seq<nat>, error: string)
    requires FailuresOf(configs, order, attempts, n, errors, at) && FailedAt(configs, order, attempts, n, error)
    ensures FailuresOf(configs, order, attempts, n + 1, errors + [error], at + [n])
  {
    assert forall i: nat :: i in at + [n] <==> i in at || i == n;
  }

  lemma {:induction false} FailuresUpTo(configs: map<string, P.ProviderConfig>, order: seq<string>, attempts: nat -> P.Outcome, n: nat)
    returns (at: seq<nat>)
    requires n <= |order|
    ensures FailuresOf(configs, order, attempts, n, P.Errors(configs, order, attempts, n), at)
  {
    if n == 0 {
      at := [];
    } else {
      at := FailuresUpTo(configs, order, attempts, n - 1);
      if Fails(configs, order, attempts, n - 1) {
        OneFailureMore(configs, order, attempts, n - 1, P.Errors(configs, order, attempts, n - 1), at,
          order[n - 1] + ": " + attempts(n - 1).error);
        at := at + [n - 1];
      }
    }
  }

  /** What the caller is told when no provider answers: that none is available, or all that went wrong, in order. */
  lemma RefusalIs(cfg: Config, call: Call, order: seq<string>) returns (errors: seq<string>, at: seq<nat>)
    requires IsOrder(cfg, call, order)
    ensures FailuresOf(cfg.configs, order, call.attempts, |order|, errors, at)
    ensures LiveAnswer(cfg, call).NotProduced? ==>
              LiveAnswer(cfg, call).message
              == if errors == [] then "no enabled local model providers are configured"
                 else "no local model backend succeeded (" + Join("; ", errors) + ")"
  {
    OrderIs(cfg, call, order);
    P.RouteMeans(cfg.configs, order, call.attempts, P.Route(cfg.configs, order, call.attempts));
    errors := P.Errors(cfg.configs, order, call.attempts, |order|);
    at := FailuresUpTo(cfg.configs, order, call.attempts, |order|);
  }

  /** The stored prefix that answers: one that matches, and is longer than every other that does, or as long and
      stored before. */
  ghost predicate Serves(c: Caches, prompt: string, x: nat) {
    && x < |c.prefixes| && Matches(c.prefixes[x].prefix, prompt)
    && forall y :: 0 <= y < |c.prefixes| && Matches(c.prefixes[y].prefix, prompt) ==>
         var a, b := |UpToNul(c.prefixes[y].prefix)|, |UpToNul(c.prefixes[x].prefix)|;
         a < b || (a == b && x <= y)
  }

  lemma {:induction false} ServedAt(rows: seq<PrefixRow>, prompt: string) returns (x: nat)
    ensures var best := PrefixGet(rows, prompt);
            && (best.None? ==> forall y :: 0 <= y < |rows| ==> !Matches(rows[y].prefix, prompt))
            && (best.Some? ==> Serves(Caches(map[], rows), prompt, x) && best.value == rows[x])
  {
    if rows == [] {
      x := 0;
    } else {
      var n := |rows| - 1;
      var k := ServedAt(rows[..n], prompt);
      assert forall y :: 0 <= y < n ==> rows[..n][y] == rows[y];
      var best := PrefixGet(rows[..n], prompt);
      x := if Matches(rows[n].prefix, prompt) && (best.None? || PrefixLength(best.value.prefix) < PrefixLength(rows[n].prefix)) then n else k;
    }
  }

  /** The tiers, in order: a prompt answered before, exactly; the longest stored prefix that matches; what the
      semantic tier finds; and then a live answer, or its failure. What a cache answers changes nothing. */
  lemma AnswerIs(cfg: Config, c: Caches, call: Call) returns (x: nat)
    ensures var (c', r) := Generate(cfg, c, call);
            if cfg.exactOn && cfg.hash(call.prompt) in c.exact then
              c' == c && r == Answered(c.exact[cfg.hash(call.prompt)], "exact")
            else if cfg.prefixOn && exists y :: 0 <= y < |c.prefixes| && Matches(c.prefixes[y].prefix, call.prompt) then
              c' == c && Serves(c, call.prompt, x) && r == Answered(c.prefixes[x].answer, "prefix")
            else if cfg.semanticOn && call.semantic.Some? then
              c' == c && r == Answered(CachedAnswer("semantic-cache", call.semantic.value), "semantic")
            else
              match LiveAnswer(cfg, call)
              case NotProduced(message) => c' == c && r == Failed(message)
              case Produced(provider, response, tier) =>
                && (cfg.exactOn ==> c'.exact == c.exact[cfg.hash(call.prompt) := CachedAnswer(provider, response)])
                && (!cfg.exactOn ==> c'.exact == c.exact)
                && (if cfg.prefixOn && Straddles(call.prompt) then r == Panicked && c'.prefixes == c.prefixes
                    else r == Answered(CachedAnswer(provider, response), tier))
  {
    x := ServedAt(c.prefixes, call.prompt);
    CutExactlyWhen(call.prompt);
  }
}
