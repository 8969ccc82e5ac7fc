/** The executor façade over the pipeline: the default three-stage chain,
    the choice between a caller's stage map and that default, and `enabled`
    defaulting to every registered stage. */
module Executors {
  import opened Common
  import opened Pipeline

  const Stage1: StageName := "stage1"
  const Stage2: StageName := "stage2"
  const Stage3: StageName := "stage3"

  /** `default_stages()`: load, transform and write, each depending on the
      one before it. */
  function DefaultRegistry(): (reg: Registry)
    ensures reg.Valid()
    ensures reg.Deps(Stage1) == [] && reg.Deps(Stage2) == [Stage1] && reg.Deps(Stage3) == [Stage2]
  {
    var reg := Registry([Stage1, Stage2, Stage3], map[Stage1 := [], Stage2 := [Stage1], Stage3 := [Stage2]]);
    assert NoDup(reg.names);
    assert Elems(reg.names) == reg.dependsOn.Keys;
    reg
  }

  /** `stages or default_stages()`: a missing or empty stage map falls back
      to the default. */
  function ChooseRegistry(given: Option<Registry>): (reg: Registry)
    ensures given.Some? && given.value.names != [] ==> reg == given.value
    ensures given.None? || given.value.names == [] ==> reg == DefaultRegistry()
  {
    if given.Some? && given.value.names != [] then given.value else DefaultRegistry()
  }

  /** `enabled` as `run` hands it on: `None` means every registered stage, in
      registration order; any list, even an empty one, is kept. */
  function EnabledOrAll(reg: Registry, enabled: Option<seq<StageName>>): (r: seq<StageName>)
    ensures enabled.Some? ==> r == enabled.value
    ensures enabled.None? ==> r == reg.names
  {
    if enabled.None? then reg.names else enabled.value
  }

  class PipelineExecutor<C, O> {
    const registry: Registry
    const bodies: StageName -> Body<C, O>

    /** `__init__`: `bodies` holds the `run` of every stage the registry may
        name, the default stages' included. */
    constructor(given: Option<Registry>, bodies: StageName -> Body<C, O>)
      ensures registry == ChooseRegistry(given) && this.bodies == bodies
    {
      registry := ChooseRegistry(given);
      this.bodies := bodies;
    }

    /** `run`: the pipeline's `run` on the defaulted `enabled`, with `order`
        and `parallel_groups` passed through unchanged. */
    method Run(ctx: C, enabled: Option<seq<StageName>>, order: Option<seq<StageName>>, groups: Option<Plan>)
      returns (r: Result<Results<O>, RunError>, ghost built: Result<Plan, PlanError>, ghost calls: seq<Call<O>>)
      ensures PlanOutcome(registry, EnabledOrAll(registry, enabled), order, groups, built)
      ensures built.Failure? ==> r == Failure(PlanFailed(built.error)) && calls == []
      ensures built.Success? ==> RunOutcome(r, calls) == RunGroups(bodies, ctx, built.value, EmptyResults())
      ensures r.Success? ==>
        r.value.Valid() && NoDup(r.value.keys) && Elems(r.value.keys) == Elems(EnabledOrAll(registry, enabled))
      ensures registry == DefaultRegistry() && enabled.None? && order.None? && groups.None? ==>
        built == Success([[Stage1], [Stage2], [Stage3]])
      ensures enabled == Some([]) && order.None? && groups.None? ==>
        built == Success([]) && r == Success(EmptyResults()) && calls == []
    {
      var stages := if enabled.None? then registry.names else enabled.value;
      r, built, calls := Pipeline.Run(registry, bodies, ctx, stages, order, groups);
      if registry == DefaultRegistry() && enabled.None? && order.None? && groups.None? {
        DefaultPlanIsChain(built);
      }
      if enabled == Some([]) && order.None? && groups.None? {
        EmptyEnabledPlansNothing(registry, built);
      }
    }
  }

  /** With the default registry, every stage enabled and neither an order
      nor groups, the plan is the chain `[[stage1], [stage2], [stage3]]`. */
  lemma DefaultPlanIsChain(r: Result<Plan, PlanError>)
    requires PlanOutcome(DefaultRegistry(), DefaultRegistry().names, None, None, r)
    ensures r == Success([[Stage1], [Stage2], [Stage3]])
  {
    var reg := DefaultRegistry();
    DefaultIsValidated();
    assert DerivedOutcome(reg, reg.names, r);
    ChainIsTopoOrder();
    assert r.Success?;
    ChainIsOnlyOrder(Flatten(r.value));
    SingletonPlanIsFlattened(r.value);
    ChainSingletons();
  }

  lemma DefaultIsValidated()
    ensures Validated(DefaultRegistry(), DefaultRegistry().names)
    ensures Elems(DefaultRegistry().names) == {Stage1, Stage2, Stage3}
  {
    var reg := DefaultRegistry();
    assert Stage1 in reg.names && Stage2 in reg.names;
  }

  lemma ChainIsTopoOrder()
    ensures IsTopoOrder(DefaultRegistry(), {Stage1, Stage2, Stage3}, [Stage1, Stage2, Stage3])
  {
    var chain := [Stage1, Stage2, Stage3];
    assert chain[..0] == [] && chain[..1] == [Stage1] && chain[..2] == [Stage1, Stage2];
    assert NoDup(chain);
  }

  lemma ChainSingletons()
    ensures Singletons([Stage1, Stage2, Stage3]) == [[Stage1], [Stage2], [Stage3]]
  {
    var p := Singletons([Stage1, Stage2, Stage3]);
    assert p[0] == [Stage1] && p[1] == [Stage2] && p[2] == [Stage3];
  }

  /** The chain is the only dependency-respecting order of the default stages. */
  lemma ChainIsOnlyOrder(s: seq<StageName>)
    requires IsTopoOrder(DefaultRegistry(), {Stage1, Stage2, Stage3}, s)
    ensures s == [Stage1, Stage2, Stage3]
  {
    var reg := DefaultRegistry();
    NoDupIffCardinality(s);
    assert |s| == 3;
    assert s[0] in {Stage1, Stage2, Stage3} && s[1] in {Stage1, Stage2, Stage3} && s[2] in {Stage1, Stage2, Stage3};
    assert DepsPlaced(reg, s[0], s[..0]);
    assert s[..0] == [];
    assert Stage1 in reg.Deps(Stage2) && Stage2 in reg.Deps(Stage3);
    assert s[0] == Stage1;
    assert DepsPlaced(reg, s[1], s[..1]);
    assert s[..1] == [Stage1];
    assert s[1] == Stage2;
    assert s[2] == Stage3;
  }

  /** An empty `enabled` list, with neither an order nor groups, plans
      nothing, whatever the registry. */
  lemma EmptyEnabledPlansNothing(reg: Registry, r: Result<Plan, PlanError>)
    requires PlanOutcome(reg, [], None, None, r)
    ensures r == Success([])
  {
    assert Validated(reg, []);
    var none: seq<StageName> := [];
    assert Elems(none) == {};
    assert IsTopoOrder(reg, Elems(none), none);
    assert r.Success?;
    var p := r.value;
    var s := Flatten(p);
    assert Elems(s) == {};
    ElemsEmpty(s);
    SingletonPlanIsFlattened(p);
    assert p == Singletons([]);
  }
}
