/** The orchestrator as the source keeps it: the cache tables updated in place around a live route. */
module OrchestratorStore {
  import opened Options
  import opened PrefixText
  import O = Orchestrator
  import opened OrchestratorLaws
  import P = Providers

  class Orchestrator {
    const cfg: O.Config
    const registry: P.ProviderRegistry
    var exact: map<string, O.CachedAnswer>
    var prefixes: seq<O.PrefixRow>

    ghost predicate Valid()
      reads this, registry
    {
      registry.Valid() && registry.configs == cfg.configs && PrefixesDistinct(prefixes)
    }

    ghost function View(): O.Caches
      reads this
    {
      O.Caches(exact, prefixes)
    }

    constructor (cfg: O.Config, registry: P.ProviderRegistry)
      requires registry.Valid() && registry.configs == cfg.configs
      ensures Valid() && this.cfg == cfg && this.registry == registry && View() == O.EMPTY
    {
      this.cfg, this.registry := cfg, registry;
      exact, prefixes := map[], [];
    }

    method CacheExactGet(hash: string) returns (hit: Option<O.CachedAnswer>)
      ensures hit == if hash in exact then Some(exact[hash]) else None
    {
      hit := if hash in exact then Some(exact[hash]) else None;
    }

    method CacheExactPut(hash: string, answer: O.CachedAnswer)
      modifies this`exact
      ensures exact == old(exact)[hash := answer]
    {
      exact := exact[hash := answer];
    }

    /** Afterwards the prefix has one row, with this answer; all other rows stay; and prompts that
        begin with the prefix are answered by a row at least as long. */
    method CachePrefixPut(prefix: string, answer: O.CachedAnswer)
      requires Valid()
      modifies this`prefixes
      ensures Valid()
      ensures forall r :: r in prefixes <==> r == O.PrefixRow(prefix, answer) || (r in old(prefixes) && r.prefix != prefix)
      ensures |prefixes| == |old(prefixes)| + if O.HasPrefix(old(prefixes), prefix) then 0 else 1
      ensures forall prompt :: prefix <= prompt ==>
                var hit := O.PrefixGet(prefixes, prompt);
                hit.Some? && O.PrefixLength(hit.value.prefix) >= O.PrefixLength(prefix)
      ensures prefixes == O.PrefixPut(old(prefixes), O.PrefixRow(prefix, answer))
    {
      ghost var row := O.PrefixRow(prefix, answer);
      PutIs(prefixes, row);
      forall prompt | prefix <= prompt
        ensures var hit := O.PrefixGet(O.PrefixPut(prefixes, row), prompt);
                hit.Some? && O.PrefixLength(hit.value.prefix) >= O.PrefixLength(prefix)
      {
        PutServes(prefixes, row, prompt);
      }
      prefixes := O.PrefixPut(prefixes, O.PrefixRow(prefix, answer));
    }

    /** The tiers in order, then the live route, then the puts; a panic leaves the exact row behind. */
    method GenerateWithRoute(call: O.Call) returns (reply: O.Reply)
      requires Valid()
      modifies this
      ensures Valid()
      ensures (View(), reply) == O.Generate(cfg, old(View()), call)
    {
      var hash := cfg.hash(call.prompt);
      if cfg.exactOn {
        var hit := CacheExactGet(hash);
        if hit.Some? {
          return O.Answered(hit.value, "exact");
        }
      }
      if cfg.prefixOn {
        var hit := O.PrefixGet(prefixes, call.prompt);
        if hit.Some? {
          return O.Answered(hit.value.answer, "prefix");
        }
      }
      if cfg.semanticOn && call.semantic.Some? {
        return O.Answered(O.CachedAnswer("semantic-cache", call.semantic.value), "semantic");
      }

      var route := call.route;
      if |route| == 0 {
        route := if call.background then O.Reverse(cfg.providerOrder) else cfg.providerOrder;
      }
      var live := registry.Live(cfg.speculate, route, call.attempts, call.draft);
      if live.NotProduced? {
        return O.Failed(live.message);
      }
      var answer := O.CachedAnswer(live.provider, live.response);
      if cfg.exactOn {
        CacheExactPut(hash, answer);
      }
      if cfg.prefixOn {
        var prefix := StoredPrefix(call.prompt);
        if prefix.None? {
          return O.Panicked;
        }
        CachePrefixPut(prefix.value, answer);
      }
      reply := O.Answered(answer, live.tier);
    }
  }
}
