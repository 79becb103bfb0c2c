/** The answer caches in front of a live route. Calls do not overlap. What the semantic tier and the
    providers answer at a call is given from outside. */
module Orchestrator {
  import opened Options
  import opened PrefixText
  import P = Providers

  datatype CachedAnswer = CachedAnswer(provider: string, response: string)
  datatype PrefixRow = PrefixRow(prefix: string, answer: CachedAnswer)

  datatype Caches = Caches(exact: map<string, CachedAnswer>, prefixes: seq<PrefixRow>)

  datatype Config = Config(
    exactOn: bool, prefixOn: bool, semanticOn: bool, speculate: bool,
    providerOrder: seq<string>, configs: map<string, P.ProviderConfig>, hash: string -> string)

  /** One call, with what the world answers to it: the semantic tier, each attempt of the route, the draft. */
  datatype Call = Call(
    prompt: string, background: bool, route: seq<string>,
    semantic: Option<string>, attempts: nat -> P.Outcome, draft: P.Outcome)

  datatype Reply =
    | Answered(answer: CachedAnswer, tier: string)
    | Failed(message: string)
    | Panicked

  predicate WasLive(r: Reply) {
    r.Answered? && r.tier in {"live", "live+speculative", "speculative-fallback"}
  }

  // ----- the tables -----

  function PrefixLength(prefix: string): nat { |UpToNul(prefix)| }

  /** The longest stored prefix that matches; among equals the first stored. */
  function PrefixGet(rows: seq<PrefixRow>, prompt: string): Option<PrefixRow> {
    if rows == [] then None
    else
      var best, last := PrefixGet(rows[..|rows| - 1], prompt), rows[|rows| - 1];
      if !Matches(last.prefix, prompt) then best
      else if best.Some? && PrefixLength(best.value.prefix) >= PrefixLength(last.prefix) then best
      else Some(last)
  }

  function HasPrefix(rows: seq<PrefixRow>, prefix: string): bool {
    exists i :: 0 <= i < |rows| && rows[i].prefix == prefix
  }

  /** Insert, or overwrite the row of the same prefix. */
  function PrefixPut(rows: seq<PrefixRow>, row: PrefixRow): seq<PrefixRow> {
    if HasPrefix(rows, row.prefix) then
      seq(|rows|, i requires 0 <= i < |rows| => if rows[i].prefix == row.prefix then row else rows[i])
    else rows + [row]
  }

  // ----- a call -----

  function Reverse(names: seq<string>): (r: seq<string>)
    ensures |r| == |names| && forall i :: 0 <= i < |r| ==> r[i] == names[|names| - 1 - i]
  {
    seq(|names|, i requires 0 <= i < |names| => names[|names| - 1 - i])
  }

  function LiveRoute(cfg: Config, call: Call): seq<string> {
    if call.route != [] then call.route
    else if call.background then Reverse(cfg.providerOrder)
    else cfg.providerOrder
  }

  /** What the cache tiers answer, first tier first. */
  function Lookup(cfg: Config, c: Caches, call: Call): Option<Reply> {
    if cfg.exactOn && cfg.hash(call.prompt) in c.exact then Some(Answered(c.exact[cfg.hash(call.prompt)], "exact"))
    else if cfg.prefixOn && PrefixGet(c.prefixes, call.prompt).Some? then
      Some(Answered(PrefixGet(c.prefixes, call.prompt).value.answer, "prefix"))
    else if cfg.semanticOn && call.semantic.Some? then
      Some(Answered(CachedAnswer("semantic-cache", call.semantic.value), "semantic"))
    else None
  }

  function LiveAnswer(cfg: Config, call: Call): P.Live {
    P.GenerateLive(cfg.configs, cfg.speculate, LiveRoute(cfg, call), call.attempts, call.draft)
  }

  /** Storing a live answer: the exact row first, then the cut of the prompt, which may panic. */
  function Remember(cfg: Config, c: Caches, prompt: string, answer: CachedAnswer, tier: string): (Caches, Reply) {
    var c1 := if cfg.exactOn then c.(exact := c.exact[cfg.hash(prompt) := answer]) else c;
    if !cfg.prefixOn then (c1, Answered(answer, tier))
    else
      match StoredPrefix(prompt)
      case None => (c1, Panicked)
      case Some(prefix) => (c1.(prefixes := PrefixPut(c1.prefixes, PrefixRow(prefix, answer))), Answered(answer, tier))
  }

  /** `generate_with_route` */
  function Generate(cfg: Config, c: Caches, call: Call): (Caches, Reply) {
    var cached := Lookup(cfg, c, call);
    if cached.Some? then (c, cached.value)
    else
      match LiveAnswer(cfg, call)
      case NotProduced(message) => (c, Failed(message))
      case Produced(provider, response, tier) => Remember(cfg, c, call.prompt, CachedAnswer(provider, response), tier)
  }

  const EMPTY: Caches := Caches(map[], [])

  ghost predicate IsRun(cfg: Config, states: seq<Caches>, calls: seq<Call>, replies: seq<Reply>) {
    && |states| == |calls| + 1 && |replies| == |calls|
    && states[0] == EMPTY
    && forall k :: 0 <= k < |calls| ==> Generate(cfg, states[k], calls[k]) == (states[k + 1], replies[k])
  }

  ghost predicate CollisionFree(cfg: Config) {
    forall p, q :: cfg.hash(p) == cfg.hash(q) ==> p == q
  }
}
