/** The model registry: tiers, routes and the escalation steps a request may take. */
module Router {
  import opened Wrappers
  import Pricing

  datatype Tier = Luna | Terra | Sol | Astra
  {
    function Rank(): nat {
      match this
      case Luna => 0
      case Terra => 1
      case Sol => 2
      case Astra => 3
    }
  }

  /** `explicit` says whether the configuration file set `enabled` itself. */
  datatype Model = Model(enabled: bool, explicit: bool, prices: Pricing.Prices, efforts: set<string>)

  datatype Selection = Selection(model: Tier, reasoning: string)

  datatype Primary = Deterministic | Model(selection: Selection)

  datatype Route = Route(primary: Primary, fallback: Option<Selection>, escalation: Option<Selection>,
                         final: Option<Selection>)

  datatype Error = NoRoute | NeedsFallback | PrimaryBlocked | MissingTier | NotAscending | UnsupportedEffort

  datatype Registry = Registry(models: map<Tier, Model>, routes: map<string, Route>, ceiling: Tier)

  function Present(s: Option<Selection>): seq<Selection> {
    if s.Some? then [s.value] else []
  }

  /** `Route.steps`. */
  function Steps(r: Route, allowFallback: bool): (steps: Result<seq<Selection>, Error>)
    ensures steps.Success? ==> |steps.value| > 0
  {
    if r.primary.Deterministic? then
      if !allowFallback || r.fallback.None? then Failure(NeedsFallback)
      else Success([r.fallback.value] + Present(r.escalation) + Present(r.final))
    else Success([r.primary.selection] + Present(r.escalation) + Present(r.final))
  }

  predicate Ascending(steps: seq<Selection>) {
    forall i, j :: 0 <= i < j < |steps| ==> steps[i].model.Rank() < steps[j].model.Rank()
  }

  predicate Supported(models: map<Tier, Model>, steps: seq<Selection>) {
    forall i :: 0 <= i < |steps| ==>
      steps[i].model in models && steps[i].reasoning in models[steps[i].model].efforts
  }

  predicate AllTiers(models: map<Tier, Model>) {
    forall t: Tier :: t in models
  }

  predicate RouteChecks(models: map<Tier, Model>, r: Route) {
    var s := Steps(r, true);
    s.Success? && Ascending(s.value) && Supported(models, s.value)
  }

  /** What `check_routes` leaves: every tier, ascending and supported routes, and Astra off unless asked for. */
  predicate Checked(r: Registry) {
    && AllTiers(r.models)
    && (r.models[Astra].explicit || !r.models[Astra].enabled)
    && forall name :: name in r.routes ==> RouteChecks(r.models, r.routes[name])
  }

  /** The pairwise test of the source is enough for the whole list. */
  lemma {:induction false} PairwiseIsAscending(steps: seq<Selection>)
    requires forall i :: 0 <= i < |steps| - 1 ==> steps[i].model.Rank() < steps[i + 1].model.Rank()
    ensures Ascending(steps)
  {
    if |steps| > 1 {
      PairwiseIsAscending(steps[..|steps| - 1]);
      var last := |steps| - 1;
      assert steps[last - 1].model.Rank() < steps[last].model.Rank();
      forall i, j | 0 <= i < j < |steps| ensures steps[i].model.Rank() < steps[j].model.Rank() {
        if j == last && i < last - 1 {
          assert steps[..last][i].model.Rank() < steps[..last][last - 1].model.Rank();
        } else if j < last {
          assert steps[..last][i].model.Rank() < steps[..last][j].model.Rank();
        }
      }
    }
  }

  /** One route's share of `check_routes`. */
  method CheckRoute(models: map<Tier, Model>, r: Route) returns (ok: Result<(), Error>)
    requires AllTiers(models)
    ensures ok.Success? <==> RouteChecks(models, r)
  {
    var s := Steps(r, true);
    if s.Failure? {
      return Failure(s.error);
    }
    var steps := s.value;
    for i := 0 to |steps| - 1
      invariant forall k :: 0 <= k < i ==> steps[k].model.Rank() < steps[k + 1].model.Rank()
    {
      if steps[i].model.Rank() >= steps[i + 1].model.Rank() {
        return Failure(NotAscending);
      }
    }
    PairwiseIsAscending(steps);
    for i := 0 to |steps|
      invariant forall k :: 0 <= k < i ==> steps[k].reasoning in models[steps[k].model].efforts
    {
      if steps[i].reasoning !in models[steps[i].model].efforts {
        return Failure(UnsupportedEffort);
      }
    }
    return Success(());
  }

  /** `check_routes`: Astra is disabled unless the configuration mentions it, and every route is checked. */
  method CheckRoutes(r: Registry) returns (out: Result<Registry, Error>)
    ensures out.Success? ==> Checked(out.value)
    ensures out.Success? ==> out.value.routes == r.routes && out.value.ceiling == r.ceiling
    ensures out.Success? ==> AllTiers(r.models)
    ensures out.Success? ==>
      out.value.models
        == r.models[Astra := r.models[Astra].(enabled := r.models[Astra].enabled && r.models[Astra].explicit)]
    ensures out.Success? <==> AllTiers(r.models) && forall name :: name in r.routes ==>
      RouteChecks(r.models, r.routes[name])
  {
    if !AllTiers(r.models) {
      return Failure(MissingTier);
    }
    var models := r.models;
    if !models[Astra].explicit {
      models := models[Astra := models[Astra].(enabled := false)];
    }
    assert models
      == r.models[Astra := r.models[Astra].(enabled := r.models[Astra].enabled && r.models[Astra].explicit)];
    SameEfforts(r.models, models);
    var rest := r.routes.Keys;
    while rest != {}
      invariant rest <= r.routes.Keys
      invariant forall name :: name in r.routes && name !in rest ==> RouteChecks(models, r.routes[name])
      decreases |rest|
    {
      var name :| name in rest;
      var ok := CheckRoute(models, r.routes[name]);
      if ok.Failure? {
        return Failure(ok.error);
      }
      rest := rest - {name};
    }
    return Success(r.(models := models));
  }

  /** Enabling or disabling a model does not matter to the route checks. */
  lemma SameEfforts(a: map<Tier, Model>, b: map<Tier, Model>)
    requires a.Keys == b.Keys && forall t :: t in a ==> a[t].efforts == b[t].efforts
    ensures forall r: Route :: RouteChecks(a, r) <==> RouteChecks(b, r)
  {
  }

  function Limit(r: Registry, ceiling: Option<Tier>): nat {
    if ceiling.Some? && ceiling.value.Rank() < r.ceiling.Rank() then ceiling.value.Rank() else r.ceiling.Rank()
  }

  /** A caller can lower the ceiling of the registry but not raise it. */
  predicate Usable(r: Registry, limit: nat, s: Selection) {
    s.model.Rank() <= limit && s.model in r.models && r.models[s.model].enabled
  }

  /** The selected steps are the longest usable beginning of the route: no tier is skipped. */
  ghost predicate LongestUsable(r: Registry, limit: nat, steps: seq<Selection>, selected: seq<Selection>) {
    && selected <= steps && |selected| > 0
    && (forall i :: 0 <= i < |selected| ==> Usable(r, limit, selected[i]))
    && (|selected| < |steps| ==> !Usable(r, limit, steps[|selected|]))
  }

  /** `Registry.route`. */
  method SelectRoute(r: Registry, operation: string, ceiling: Option<Tier>, allowFallback: bool)
    returns (out: Result<seq<Selection>, Error>)
    requires Checked(r)
    ensures out == Failure(NoRoute) <==> operation !in r.routes
    ensures operation in r.routes ==>
      var s := Steps(r.routes[operation], allowFallback);
      && (s.Failure? ==> out == Failure(s.error))
      && (s.Success? && out.Success? ==>
            LongestUsable(r, Limit(r, ceiling), s.value, out.value) && Ascending(out.value))
      && (s.Success? && out.Failure? ==> out.error == PrimaryBlocked && !Usable(r, Limit(r, ceiling), s.value[0]))
  {
    if operation !in r.routes {
      return Failure(NoRoute);
    }
    assert RouteChecks(r.models, r.routes[operation]);
    var limit := r.ceiling.Rank();
    if ceiling.Some? && ceiling.value.Rank() < limit {
      limit := ceiling.value.Rank();
    }
    var s := Steps(r.routes[operation], allowFallback);
    if s.Failure? {
      return Failure(s.error);
    }
    var steps := s.value;
    assert steps == Steps(r.routes[operation], true).value;
    var selected: seq<Selection> := [];
    for i := 0 to |steps|
      invariant selected == steps[..i]
      invariant forall k :: 0 <= k < i ==> Usable(r, limit, steps[k])
    {
      if steps[i].model.Rank() > limit || !r.models[steps[i].model].enabled {
        break;
      }
      selected := selected + [steps[i]];
    }
    if selected == [] {
      return Failure(PrimaryBlocked);
    }
    return Success(selected);
  }

  /** The longest usable beginning is unique, so the route is a function of registry and ceiling. */
  lemma LongestIsUnique(r: Registry, limit: nat, steps: seq<Selection>, a: seq<Selection>, b: seq<Selection>)
    requires LongestUsable(r, limit, steps, a) && LongestUsable(r, limit, steps, b)
    ensures a == b
  {
    assert !(|a| < |b|) && !(|b| < |a|);
  }

  // ---------------------------------------------------------------- what a route is

  /** Luna, Terra, Sol and Astra, in this order. */
  lemma TiersAreOrdered()
    ensures Luna.Rank() < Terra.Rank() < Sol.Rank() < Astra.Rank()
  {
  }

  /** The first step is the primary model, or where that is no model, the fallback if the caller allows it. */
  function FirstStep(r: Route, allowFallback: bool): Option<Selection> {
    if r.primary.Model? then Some(r.primary.selection) else if allowFallback then r.fallback else None
  }

  /** A route has its first step, then the escalation and the final step, those that there are. */
  lemma StepsOfRoute(r: Route, allowFallback: bool)
    ensures var s := Steps(r, allowFallback);
      && (s.Success? <==> FirstStep(r, allowFallback).Some?)
      && (s.Success? ==>
            && s.value[0] == FirstStep(r, allowFallback).value
            && |s.value| == 1 + (if r.escalation.Some? then 1 else 0) + (if r.final.Some? then 1 else 0)
            && (r.escalation.Some? ==> s.value[1] == r.escalation.value)
            && (r.final.Some? ==> s.value[|s.value| - 1] == r.final.value))
  {
  }

  /** A caller lowers the ceiling or leaves it: the lower of the two binds. */
  lemma LowerCeilingBinds(r: Registry, ceiling: Option<Tier>, s: Selection)
    ensures Usable(r, Limit(r, ceiling), s) <==>
      && s.model.Rank() <= r.ceiling.Rank() && (ceiling.Some? ==> s.model.Rank() <= ceiling.value.Rank())
      && s.model in r.models && r.models[s.model].enabled
  {
  }

  /** A checked route is strictly ascending from step to step, and every step's effort is one its model has. */
  lemma CheckedMeans(models: map<Tier, Model>, r: Route)
    ensures RouteChecks(models, r) <==>
      && Steps(r, true).Success?
      && (forall i :: 0 <= i < |Steps(r, true).value| - 1 ==>
            Steps(r, true).value[i].model.Rank() < Steps(r, true).value[i + 1].model.Rank())
      && (forall i :: 0 <= i < |Steps(r, true).value| ==>
            var s := Steps(r, true).value[i]; s.model in models && s.reasoning in models[s.model].efforts)
  {
    if Steps(r, true).Success? {
      var steps := Steps(r, true).value;
      if forall i :: 0 <= i < |steps| - 1 ==> steps[i].model.Rank() < steps[i + 1].model.Rank() {
        PairwiseIsAscending(steps);
      }
    }
  }
}
