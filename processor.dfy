/**
 * The step abstraction and the process-wide name -> factory registry
 * (processor/registry.go), the AutoConfig wrapper seen as an opaque
 * factory (processor/auto_config.go) and the kernel normalisation of the
 * legacy Sobel step (processor/sobel.go).
 */
module Processor {
  import opened Wrappers
  import opened Frames
  import opened Config

  /**
   * A pipeline step: its name and its Process call, an opaque transform that
   * either yields the output frame or fails with a message.
   */
  datatype Step = Step(name: string, apply: Frame -> Result<Frame, string>)

  /** A factory builds a configured, validated step from its configuration. */
  type Factory = StepConfig -> Result<Step, string>

  /**
   * A user struct implementing Process: the decoding of the parameters into
   * the struct and its Validate call are opaque and folded into `configure`.
   */
  datatype Processable = Processable(configure: StepConfig -> Result<Frame -> Result<Frame, string>, string>)

  /** What Register may be handed: a Processable struct, a factory function, or a value of any other type. */
  datatype Registrant =
    | Plain(impl: Processable)
    | FactoryFunc(factory: Factory)
    | Unsupported(typeName: string)

  datatype RegisterError = NotRegistrable(name: string)

  /** AutoConfig: the factory that configures a copy of the defaults and names the step after its config. */
  function AutoConfig(p: Processable): Factory {
    (sc: StepConfig) =>
      match p.configure(sc)
      case Ok(apply) => Ok(Step(sc.name, apply))
      case Err(e) => Err(e)
  }

  /** A step built by AutoConfig carries the name written in its configuration. */
  lemma AutoConfigNamesStep(p: Processable, sc: StepConfig)
    ensures AutoConfig(p)(sc).Ok? <==> p.configure(sc).Ok?
    ensures AutoConfig(p)(sc).Ok? ==> AutoConfig(p)(sc).value.name == sc.name
  {
  }

  /** Get on a registry snapshot: the factory exactly when the name is a key (exact, case-sensitive match). */
  function Lookup(entries: map<string, Factory>, name: string): (r: Option<Factory>)
    ensures r.Some? <==> name in entries
    ensures r.Some? ==> r.value == entries[name]
  {
    if name in entries then Some(entries[name]) else None
  }

  /** The registry after Register(name, item), or the panic Register raises. */
  function Registered(entries: map<string, Factory>, name: string, item: Registrant): (r: Result<map<string, Factory>, RegisterError>)
    ensures item.Unsupported? <==> r.Err?
    ensures r.Err? ==> r.error == NotRegistrable(name)
    ensures r.Ok? ==> r.value.Keys == entries.Keys + {name}
    ensures r.Ok? ==> forall other :: other != name ==> Lookup(r.value, other) == Lookup(entries, other)
    ensures item.Plain? ==> Lookup(r.value, name) == Some(AutoConfig(item.impl))
    ensures item.FactoryFunc? ==> Lookup(r.value, name) == Some(item.factory)
  {
    match item
    case Plain(impl) => Ok(entries[name := AutoConfig(impl)])
    case FactoryFunc(f) => Ok(entries[name := f])
    case Unsupported(_) => Err(NotRegistrable(name))
  }

  /** Registering the same name twice keeps only the second registration. */
  lemma ReRegisterOverwrites(entries: map<string, Factory>, name: string, first: Registrant, second: Registrant)
    requires !first.Unsupported? && !second.Unsupported?
    ensures Registered(Registered(entries, name, first).value, name, second)
         == Registered(entries, name, second)
  {
    var f := Registered(map[], name, second).value[name];
    var m := Registered(entries, name, first).value;
    assert m[name := f] == entries[name := f];
  }

  /** The package-level `registry` map with Register and Get. */
  class Registry {
    var entries: map<string, Factory>

    constructor ()
      ensures entries == map[]
    {
      entries := map[];
    }

    /** Stores the item under `name`; any other kind of value is refused (the source panics). */
    method Register(name: string, item: Registrant) returns (r: Outcome<RegisterError>)
      modifies this
      ensures Registered(old(entries), name, item).Ok? ==>
                r == Pass && entries == Registered(old(entries), name, item).value
      ensures Registered(old(entries), name, item).Err? ==>
                r == Fail(NotRegistrable(name)) && entries == old(entries)
    {
      match item {
        case Plain(impl) =>
          entries := entries[name := AutoConfig(impl)];
        case FactoryFunc(f) =>
          entries := entries[name := f];
        case Unsupported(_) =>
          return Fail(NotRegistrable(name));
      }
      return Pass;
    }

    function Get(name: string): (r: Option<Factory>)
      reads this
      ensures r.Some? <==> name in entries
      ensures r.Some? ==> r.value == entries[name]
    {
      Lookup(entries, name)
    }
  }

  /** The aperture the legacy Sobel step uses for a configured K: always a positive odd size. */
  function SobelKernel(k: int): (r: int)
    ensures r >= 1 && r % 2 == 1
    ensures k >= 1 && k % 2 == 1 ==> r == k
    ensures k >= 2 && k % 2 == 0 ==> r == k + 1
    ensures k < 1 ==> r == 1
  {
    var a := if k < 1 then 1 else k;
    if a % 2 == 0 then a + 1 else a
  }

  /** Normalising an already normalised aperture changes nothing. */
  lemma SobelKernelIdempotent(k: int)
    ensures SobelKernel(SobelKernel(k)) == SobelKernel(k)
  {
  }
}
