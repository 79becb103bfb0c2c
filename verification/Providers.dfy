/** The provider registry: which providers exist, and how a request is routed over them. What a provider
    answers is given from outside, one outcome per attempt. */
module Providers {
  import opened Options
  import opened Text

  datatype ProviderConfig = ProviderConfig(kind: string, enabled: bool, speculative: bool, draftModel: string)

  datatype Outcome = Success(response: string) | Failure(error: string)

  datatype Routed = Reached(provider: string, response: string) | Unreached(message: string)

  const KINDS: set<string> := {"ollama", "llamacpp", "openai-compatible"}

  const NONE_ENABLED := "no enabled local model providers are configured"

  /** A configuration of an unknown kind is kept, but makes no provider. */
  predicate Usable(configs: map<string, ProviderConfig>, name: string) {
    name in configs && configs[name].kind in KINDS && configs[name].enabled
  }

  function NoneSucceeded(errors: seq<string>): string {
    if errors == [] then NONE_ENABLED
    else "no local model backend succeeded (" + Join("; ", errors) + ")"
  }

  // ----- routing -----

  /** Attempt `i` of a route is made, and succeeds. */
  predicate Answers(configs: map<string, ProviderConfig>, order: seq<string>, attempts: nat -> Outcome, i: nat)
    requires i < |order|
  {
    Usable(configs, order[i]) && attempts(i).Success?
  }

  /** The errors of the attempts made among the first `n` names of a route. */
  function Errors(configs: map<string, ProviderConfig>, order: seq<string>, attempts: nat -> Outcome, n: nat): seq<string>
    requires n <= |order|
  {
    if n == 0 then []
    else
      var before := Errors(configs, order, attempts, n - 1);
      if Usable(configs, order[n - 1]) && attempts(n - 1).Failure? then
        before + [order[n - 1] + ": " + attempts(n - 1).error]
      else before
  }

  lemma {:induction false} ErrorsEmptyExactlyWhen(configs: map<string, ProviderConfig>, order: seq<string>, attempts: nat -> Outcome, n: nat)
    requires n <= |order|
    ensures Errors(configs, order, attempts, n) == []
            <==> forall i :: 0 <= i < n ==> !(Usable(configs, order[i]) && attempts(i).Failure?)
  {
    if n > 0 {
      ErrorsEmptyExactlyWhen(configs, order, attempts, n - 1);
    }
  }

  /** What a route leads to: its first name that is registered, enabled and succeeds; otherwise the
      errors of all attempts, or that there was nothing to attempt. */
  ghost predicate RoutesTo(configs: map<string, ProviderConfig>, order: seq<string>, attempts: nat -> Outcome, r: Routed) {
    match r
    case Reached(provider, response) =>
      exists i :: 0 <= i < |order| && Answers(configs, order, attempts, i)
                  && (forall j :: 0 <= j < i ==> !Answers(configs, order, attempts, j))
                  && provider == order[i] && response == attempts(i).response
    case Unreached(message) =>
      && (forall j :: 0 <= j < |order| ==> !Answers(configs, order, attempts, j))
      && message == NoneSucceeded(Errors(configs, order, attempts, |order|))
  }

  function RouteFrom(configs: map<string, ProviderConfig>, order: seq<string>, attempts: nat -> Outcome, i: nat): Routed
    requires i <= |order|
    decreases |order| - i
  {
    if i == |order| then Unreached(NoneSucceeded(Errors(configs, order, attempts, i)))
    else if Answers(configs, order, attempts, i) then Reached(order[i], attempts(i).response)
    else RouteFrom(configs, order, attempts, i + 1)
  }

  function Route(configs: map<string, ProviderConfig>, order: seq<string>, attempts: nat -> Outcome): Routed {
    RouteFrom(configs, order, attempts, 0)
  }

  lemma {:induction false} RouteFromMeans(configs: map<string, ProviderConfig>, order: seq<string>, attempts: nat -> Outcome, i: nat)
    requires i <= |order| && forall j :: 0 <= j < i ==> !Answers(configs, order, attempts, j)
    ensures RoutesTo(configs, order, attempts, RouteFrom(configs, order, attempts, i))
    decreases |order| - i
  {
    if i < |order| && !Answers(configs, order, attempts, i) {
      RouteFromMeans(configs, order, attempts, i + 1);
    }
  }

  /** A route has one meaning, and routing finds it. */
  lemma RouteMeans(configs: map<string, ProviderConfig>, order: seq<string>, attempts: nat -> Outcome, r: Routed)
    ensures RoutesTo(configs, order, attempts, r) <==> r == Route(configs, order, attempts)
  {
    RouteFromMeans(configs, order, attempts, 0);
  }

  // ----- drafting -----

  /** `generate_with_provider` */
  function Direct(configs: map<string, ProviderConfig>, name: string, outcome: Outcome): Outcome {
    if name !in configs || configs[name].kind !in KINDS then Failure("unknown provider " + name)
    else if !configs[name].enabled then Failure("provider " + name + " is disabled")
    else outcome
  }

  predicate Drafts(configs: map<string, ProviderConfig>, name: string) {
    name in configs && configs[name].speculative && configs[name].draftModel != ""
  }

  /** The first name of the route whose configuration asks for drafting. */
  function Drafter(configs: map<string, ProviderConfig>, order: seq<string>): (name: Option<string>)
    ensures name.Some? ==> name.value in order && Drafts(configs, name.value)
    ensures name.None? ==> forall i :: 0 <= i < |order| ==> !Drafts(configs, order[i])
  {
    if order == [] then None
    else if Drafts(configs, order[0]) then Some(order[0])
    else
      var rest := Drafter(configs, order[1..]);
      assert rest.None? ==> forall i :: 0 < i < |order| ==> order[i] == order[1..][i - 1];
      rest
  }

  datatype Live = Produced(provider: string, response: string, tier: string) | NotProduced(message: string)

  /** `generate_live` */
  function GenerateLive(configs: map<string, ProviderConfig>, speculate: bool, order: seq<string>,
                        attempts: nat -> Outcome, draft: Outcome): Live
  {
    var routed := Route(configs, order, attempts);
    var drafter := if speculate then Drafter(configs, order) else None;
    match routed
    case Reached(provider, response) => Produced(provider, response, if drafter.Some? then "live+speculative" else "live")
    case Unreached(message) =>
      if drafter.Some? && Direct(configs, drafter.value, draft).Success? then
        Produced(drafter.value, Direct(configs, drafter.value, draft).response, "speculative-fallback")
      else NotProduced(message)
  }

  /** The provider and response of a live result, or its failure. */
  function Answer(l: Live): Routed {
    match l
    case Produced(provider, response, _) => Reached(provider, response)
    case NotProduced(message) => Unreached(message)
  }

  /** Each provider gives one outcome for the whole call, to the draft and to every attempt. */
  ghost predicate OneOutcomeEach(order: seq<string>, attempts: nat -> Outcome, drafter: Option<string>, draft: Outcome) {
    && (forall i, j :: 0 <= i < j < |order| && order[i] == order[j] ==> attempts(i) == attempts(j))
    && (drafter.Some? ==> forall i :: 0 <= i < |order| && order[i] == drafter.value ==> attempts(i) == draft)
  }

  /** Drafting changes the answer exactly when the route fails but its drafter, asked separately, succeeds. */
  lemma SpeculationChangesExactlyWhen(configs: map<string, ProviderConfig>, order: seq<string>, attempts: nat -> Outcome, draft: Outcome)
    ensures var drafter := Drafter(configs, order);
            Answer(GenerateLive(configs, true, order, attempts, draft)) != Answer(GenerateLive(configs, false, order, attempts, draft))
            <==> && (forall i :: 0 <= i < |order| && Usable(configs, order[i]) ==> attempts(i).Failure?)
                 && drafter.Some? && Usable(configs, drafter.value) && draft.Success?
  {
    RouteFromMeans(configs, order, attempts, 0);
    assert forall i :: 0 <= i < |order| ==> (Answers(configs, order, attempts, i) <==> Usable(configs, order[i]) && !attempts(i).Failure?);
  }

  /** With one outcome per provider, drafting preserves the answer, or the failure. */
  lemma SpeculationPreserves(configs: map<string, ProviderConfig>, order: seq<string>, attempts: nat -> Outcome, draft: Outcome)
    requires OneOutcomeEach(order, attempts, Drafter(configs, order), draft)
    ensures Answer(GenerateLive(configs, true, order, attempts, draft)) == Route(configs, order, attempts)
    ensures Answer(GenerateLive(configs, true, order, attempts, draft)) == Answer(GenerateLive(configs, false, order, attempts, draft))
  {
    SpeculationChangesExactlyWhen(configs, order, attempts, draft);
    var drafter := Drafter(configs, order);
    if drafter.Some? {
      var i :| 0 <= i < |order| && order[i] == drafter.value;
      assert attempts(i) == draft;
    }
  }

  // ----- the registry -----

  function Enabled(configs: map<string, ProviderConfig>, names: seq<string>): seq<string> {
    if names == [] then []
    else (if Usable(configs, names[0]) then [names[0]] else []) + Enabled(configs, names[1..])
  }

  class ProviderRegistry {
    var providers: map<string, ProviderConfig>
    var configs: map<string, ProviderConfig>
    var providerOrder: seq<string>

    /** Exactly the configurations of a known kind have a provider. */
    ghost predicate Valid()
      reads this
    {
      && (forall name :: name in providers <==> name in configs && configs[name].kind in KINDS)
      && (forall name :: name in providers ==> providers[name] == configs[name])
    }

    /** `names` are the keys of the configuration in order. */
    constructor FromConfig(config: map<string, ProviderConfig>, names: seq<string>)
      requires forall name :: name in names <==> name in config
      ensures Valid() && configs == config && providerOrder == names
    {
      var made: map<string, ProviderConfig> := map[];
      var i := 0;
      while i < |names|
        invariant 0 <= i <= |names|
        invariant forall name :: name in made <==> name in names[..i] && config[name].kind in KINDS
        invariant forall name :: name in made ==> made[name] == config[name]
      {
        if config[names[i]].kind in KINDS {
          made := made[names[i] := config[names[i]]];
        }
        i := i + 1;
      }
      providers := made;
      configs := config;
      providerOrder := names;
    }

    /** `enabled_names` */
    function EnabledNames(): (r: seq<string>)
      requires Valid()
      reads this
      ensures forall n: string :: n in r <==> n in providerOrder && n in providers && providers[n].enabled
    {
      EnabledIs(configs, providerOrder);
      Enabled(configs, providerOrder)
    }

    method GenerateWithProvider(name: string, outcome: Outcome) returns (r: Outcome)
      requires Valid()
      ensures r == Direct(configs, name, outcome)
    {
      if name !in providers {
        return Failure("unknown provider " + name);
      }
      if !providers[name].enabled {
        return Failure("provider " + name + " is disabled");
      }
      r := outcome;
    }

    method GenerateWithRouting(order: seq<string>, attempts: nat -> Outcome) returns (r: Routed)
      requires Valid()
      ensures RoutesTo(configs, order, attempts, r)
      ensures r == Route(configs, order, attempts)
    {
      RouteMeans(configs, order, attempts, Route(configs, order, attempts));
      var errors: seq<string> := [];
      var i := 0;
      while i < |order|
        invariant 0 <= i <= |order|
        invariant forall j :: 0 <= j < i ==> !Answers(configs, order, attempts, j)
        invariant errors == Errors(configs, order, attempts, i)
        invariant Route(configs, order, attempts) == RouteFrom(configs, order, attempts, i)
      {
        var name := order[i];
        if name in providers && providers[name].enabled {
          match attempts(i) {
            case Success(response) => return Reached(name, response);
            case Failure(error) => errors := errors + [name + ": " + error];
          }
        }
        i := i + 1;
      }
      if errors == [] {
        return Unreached(NONE_ENABLED);
      }
      r := Unreached("no local model backend succeeded (" + Join("; ", errors) + ")");
    }

    method Live(speculate: bool, order: seq<string>, attempts: nat -> Outcome, draft: Outcome) returns (r: Live)
      requires Valid()
      ensures r == GenerateLive(configs, speculate, order, attempts, draft)
    {
      if speculate {
        var drafter := Drafter(configs, order);
        if drafter.Some? {
          var drafted := GenerateWithProvider(drafter.value, draft);
          var target := GenerateWithRouting(order, attempts);
          if target.Reached? {
            return Produced(target.provider, target.response, "live+speculative");
          } else if drafted.Success? {
            return Produced(drafter.value, drafted.response, "speculative-fallback");
          } else {
            return NotProduced(target.message);
          }
        }
      }
      var routed := GenerateWithRouting(order, attempts);
      match routed {
        case Reached(provider, response) => r := Produced(provider, response, "live");
        case Unreached(message) => r := NotProduced(message);
      }
    }
  }

  /** Enabled names are exactly the usable ones; if there are none, routing over the same names says so. */
  lemma {:induction false} EnabledIs(configs: map<string, ProviderConfig>, names: seq<string>)
    ensures forall n: string :: n in Enabled(configs, names) <==> n in names && Usable(configs, n)
    ensures Enabled(configs, names) == [] ==> forall attempts: nat -> Outcome :: Route(configs, names, attempts) == Unreached(NONE_ENABLED)
  {
    if names != [] {
      EnabledIs(configs, names[1..]);
      assert forall n: string :: n in names <==> n == names[0] || n in names[1..];
    }
    if Enabled(configs, names) == [] {
      forall attempts: nat -> Outcome
        ensures Route(configs, names, attempts) == Unreached(NONE_ENABLED)
      {
        RouteFromMeans(configs, names, attempts, 0);
        ErrorsEmptyExactlyWhen(configs, names, attempts, |names|);
        assert forall i :: 0 <= i < |names| ==> names[i] in names && !Usable(configs, names[i]);
      }
    }
  }

  function OneOn(at: seq<nat>): (r: seq<nat>)
    ensures |r| == |at| && forall x :: 0 <= x < |r| ==> r[x] == at[x] + 1
  {
    seq(|at|, x requires 0 <= x < |at| => at[x] + 1)
  }

  /** The names at these positions, which rise. */
  ghost predicate PickedAt(names: seq<string>, at: seq<nat>, picked: seq<string>) {
    && |at| == |picked|
    && (forall x :: 0 <= x < |at| ==> at[x] < |names| && names[at[x]] == picked[x])
    && (forall x, y :: 0 <= x < y < |at| ==> at[x] < at[y])
  }

  lemma PickedLater(names: seq<string>, at: seq<nat>, picked: seq<string>)
    requires names != [] && PickedAt(names[1..], at, picked)
    ensures PickedAt(names, OneOn(at), picked)
    ensures PickedAt(names, [0] + OneOn(at), [names[0]] + picked)
  {
    assert forall x :: 0 <= x < |at| ==> names[OneOn(at)[x]] == names[1..][at[x]];
  }

  /** They keep the order of the configuration: the result is the names at these positions, which rise,
      and every position of a usable name is among them. */
  lemma {:induction false} EnabledInOrder(configs: map<string, ProviderConfig>, names: seq<string>) returns (at: seq<nat>)
    ensures PickedAt(names, at, Enabled(configs, names))
    ensures forall i :: 0 <= i < |names| && Usable(configs, names[i]) ==> i in at
  {
    if names == [] {
      at := [];
    } else {
      var rest := EnabledInOrder(configs, names[1..]);
      PickedLater(names, rest, Enabled(configs, names[1..]));
      at := if Usable(configs, names[0]) then [0] + OneOn(rest) else OneOn(rest);
      forall i | 0 < i < |names| && Usable(configs, names[i])
        ensures i in at
      {
        assert names[1..][i - 1] == names[i];
        var x :| 0 <= x < |rest| && rest[x] == i - 1;
        assert OneOn(rest)[x] == i;
      }
    }
  }
}
