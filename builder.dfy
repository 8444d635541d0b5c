/**
 * BuildPipeline (builder/builder.go): turns the ordered step configurations
 * into steps by looking each name up in the registry, failing fast.
 */
module Builder {
  import opened Wrappers
  import opened Config
  import opened Processor

  datatype BuildError =
    | UnknownProcessor(index: nat, name: string)
    | FactoryFailed(index: nat, name: string, cause: string)

  /** The steps built from configs[i..], or the first failure among them. */
  function BuildFrom(registry: map<string, Factory>, configs: seq<StepConfig>, i: nat): Result<seq<Step>, BuildError>
    requires i <= |configs|
    decreases |configs| - i
  {
    if i == |configs| then Ok([])
    else
      var sc := configs[i];
      match Lookup(registry, sc.name)
      case None => Err(UnknownProcessor(i, sc.name))
      case Some(factory) =>
        match factory(sc)
        case Err(e) => Err(FactoryFailed(i, sc.name, e))
        case Ok(step) =>
          match BuildFrom(registry, configs, i + 1)
          case Err(e) => Err(e)
          case Ok(rest) => Ok([step] + rest)
  }

  /** The outcome BuildPipeline must produce for a registry snapshot and a step list. */
  function Build(registry: map<string, Factory>, configs: seq<StepConfig>): Result<seq<Step>, BuildError> {
    BuildFrom(registry, configs, 0)
  }

  /** `done` followed by whatever the rest yields; an error discards `done`. */
  function Prepend(done: seq<Step>, rest: Result<seq<Step>, BuildError>): Result<seq<Step>, BuildError> {
    match rest
    case Ok(s) => Ok(done + s)
    case Err(e) => Err(e)
  }

  /** The loop of BuildPipeline, appending one step per configuration with early error returns. */
  method BuildPipeline(registry: map<string, Factory>, configs: seq<StepConfig>) returns (r: Result<seq<Step>, BuildError>)
    ensures r == Build(registry, configs)
  {
    var steps: seq<Step> := [];
    var i := 0;
    match BuildFrom(registry, configs, 0) {
      case Ok(all) => assert [] + all == all;
      case Err(_) =>
    }
    while i < |configs|
      invariant 0 <= i <= |configs|
      invariant Build(registry, configs) == Prepend(steps, BuildFrom(registry, configs, i))
    {
      var sc := configs[i];
      var factory := Lookup(registry, sc.name);
      if factory.None? {
        return Err(UnknownProcessor(i, sc.name));
      }
      var step := factory.value(sc);
      if step.Err? {
        return Err(FactoryFailed(i, sc.name, step.error));
      }
      assert steps + ([step.value] + []) == steps + [step.value];
      match BuildFrom(registry, configs, i + 1) {
        case Ok(rest) => assert steps + ([step.value] + rest) == (steps + [step.value]) + rest;
        case Err(_) =>
      }
      steps := steps + [step.value];
      i := i + 1;
    }
    assert steps + [] == steps;
    return Ok(steps);
  }

  /** Every configuration at index >= i was built: the result has their number and order. */
  lemma {:induction false} BuildFromOk(registry: map<string, Factory>, configs: seq<StepConfig>, i: nat)
    requires i <= |configs|
    requires BuildFrom(registry, configs, i).Ok?
    ensures |BuildFrom(registry, configs, i).value| == |configs| - i
    ensures forall j :: i <= j < |configs| ==>
              configs[j].name in registry &&
              registry[configs[j].name](configs[j]) == Ok(BuildFrom(registry, configs, i).value[j - i])
    decreases |configs| - i
  {
    if i < |configs| {
      BuildFromOk(registry, configs, i + 1);
    }
  }

  /** On success, element i of the result is the factory's step for configuration i. */
  lemma BuildOk(registry: map<string, Factory>, configs: seq<StepConfig>)
    requires Build(registry, configs).Ok?
    ensures |Build(registry, configs).value| == |configs|
    ensures forall j :: 0 <= j < |configs| ==>
              configs[j].name in registry &&
              registry[configs[j].name](configs[j]) == Ok(Build(registry, configs).value[j])
  {
    BuildFromOk(registry, configs, 0);
  }

  /** Configuration j builds cleanly: its name is registered and its factory succeeds. */
  ghost predicate Builds(registry: map<string, Factory>, sc: StepConfig) {
    sc.name in registry && registry[sc.name](sc).Ok?
  }

  /**
   * Fail fast: the first configuration that does not build decides the error,
   * which carries its index and name; later configurations are never consulted.
   */
  lemma {:induction false} BuildFromFailsAtFirst(registry: map<string, Factory>, configs: seq<StepConfig>, i: nat, k: nat)
    requires i <= k < |configs|
    requires forall j :: i <= j < k ==> Builds(registry, configs[j])
    requires !Builds(registry, configs[k])
    ensures configs[k].name !in registry ==>
              BuildFrom(registry, configs, i) == Err(UnknownProcessor(k, configs[k].name))
    ensures configs[k].name in registry ==>
              BuildFrom(registry, configs, i) ==
              Err(FactoryFailed(k, configs[k].name, registry[configs[k].name](configs[k]).error))
    decreases k - i
  {
    if i < k {
      assert Builds(registry, configs[i]);
      BuildFromFailsAtFirst(registry, configs, i + 1, k);
    }
  }

  lemma BuildFailsAtFirst(registry: map<string, Factory>, configs: seq<StepConfig>, k: nat)
    requires k < |configs|
    requires forall j :: 0 <= j < k ==> Builds(registry, configs[j])
    requires !Builds(registry, configs[k])
    ensures configs[k].name !in registry ==>
              Build(registry, configs) == Err(UnknownProcessor(k, configs[k].name))
    ensures configs[k].name in registry ==>
              Build(registry, configs) ==
              Err(FactoryFailed(k, configs[k].name, registry[configs[k].name](configs[k]).error))
  {
    BuildFromFailsAtFirst(registry, configs, 0, k);
  }

  /** An empty step list builds to no steps and no error. */
  lemma BuildEmpty(registry: map<string, Factory>)
    ensures Build(registry, []) == Ok([])
  {
  }
}
