/**
 * The application configuration and the decoding hook that splits a
 * `[[pipeline.steps]]` table into the step name and its parameters
 * (config/config.go).
 */
module Config {
  import opened Wrappers

  /** A decoded TOML value. */
  datatype Value =
    | VString(s: string)
    | VInt(i: int)
    | VFloat(r: real)
    | VBool(b: bool)
    | VArray(items: seq<Value>)
    | VTable(entries: map<string, Value>)

  /** One pipeline step: its processor name and every other key of its table. */
  datatype StepConfig = StepConfig(name: string, params: map<string, Value>)

  datatype AppSection = AppSection(windowName: string, record: bool, output: string)
  datatype CameraSection = CameraSection(deviceId: int, file: string)
  datatype StreamSection = StreamSection(enabled: bool, port: int, path: string, quality: int)

  datatype Config = Config(app: AppSection, camera: CameraSection, stream: StreamSection, steps: seq<StepConfig>)

  datatype DecodeError = NotATable | MissingName

  const NameKey: string := "name"
  const DefaultWindowName: string := "GoCV Live"

  /** StepConfig.UnmarshalTOML as a value: the step a raw TOML value decodes to, or why it does not. */
  function DecodeStep(data: Value): (r: Result<StepConfig, DecodeError>)
    ensures !data.VTable? ==> r == Err(NotATable)
    ensures data.VTable? ==>
              (r.Ok? <==> NameKey in data.entries && data.entries[NameKey].VString?)
    ensures data.VTable? && r.Err? ==> r.error == MissingName
    ensures r.Ok? ==> data.VTable? && data.entries[NameKey] == VString(r.value.name)
    ensures r.Ok? ==> r.value.params.Keys == data.entries.Keys - {NameKey}
    ensures r.Ok? ==> forall k :: k in r.value.params ==> r.value.params[k] == data.entries[k]
  {
    match data
    case VTable(raw) =>
      if NameKey in raw && raw[NameKey].VString? then
        Ok(StepConfig(raw[NameKey].s, raw - {NameKey}))
      else
        Err(MissingName)
    case _ => Err(NotATable)
  }

  /** The table a step configuration is written as: its parameters plus the `name` key. */
  function EncodeStep(sc: StepConfig): Value {
    VTable(sc.params[NameKey := VString(sc.name)])
  }

  /** Decoding what was encoded gives the step back, when no parameter is itself called `name`. */
  lemma DecodeEncode(sc: StepConfig)
    requires NameKey !in sc.params
    ensures DecodeStep(EncodeStep(sc)) == Ok(sc)
  {
    var raw := sc.params[NameKey := VString(sc.name)];
    assert raw - {NameKey} == sc.params;
  }

  /** Encoding what was decoded gives the original table back: no key is lost. */
  lemma EncodeDecode(data: Value)
    requires DecodeStep(data).Ok?
    ensures EncodeStep(DecodeStep(data).value) == data
  {
    var raw := data.entries;
    assert (raw - {NameKey})[NameKey := raw[NameKey]] == raw;
  }

  /**
   * The target of the decoding hook: a StepConfig variable that
   * UnmarshalTOML fills in place.
   */
  class StepConfigVar {
    var name: string
    var params: map<string, Value>

    constructor ()
      ensures name == "" && params == map[]
    {
      name, params := "", map[];
    }

    /** Assigns the name and the remaining keys on success; leaves the variable alone on failure. */
    method UnmarshalTOML(data: Value) returns (r: Outcome<DecodeError>)
      modifies this
      ensures DecodeStep(data).Err? ==> r == Fail(DecodeStep(data).error)
      ensures DecodeStep(data).Err? ==> name == old(name) && params == old(params)
      ensures DecodeStep(data).Ok? ==> r == Pass && StepConfig(name, params) == DecodeStep(data).value
    {
      if !data.VTable? {
        return Fail(NotATable);
      }
      var raw := data.entries;
      if NameKey in raw && raw[NameKey].VString? {
        name := raw[NameKey].s;
        raw := raw - {NameKey};
      } else {
        return Fail(MissingName);
      }
      params := raw;
      return Pass;
    }
  }

  /** config.Load after reading and parsing: fills in the window-name default. */
  function Load(parsed: Result<Config, string>): (r: Result<Config, string>)
    ensures parsed.Err? ==> r == parsed
    ensures parsed.Ok? ==> r.Ok? && r.value.app.windowName != ""
    ensures parsed.Ok? && parsed.value.app.windowName != "" ==> r == parsed
    ensures parsed.Ok? && parsed.value.app.windowName == "" ==>
              r.value.app.windowName == DefaultWindowName
    ensures parsed.Ok? ==> r.value.(app := parsed.value.app) == parsed.value
    ensures parsed.Ok? ==> r.value.app.(windowName := parsed.value.app.windowName) == parsed.value.app
  {
    match parsed
    case Err(e) => Err(e)
    case Ok(cfg) =>
      if cfg.app.windowName == "" then Ok(cfg.(app := cfg.app.(windowName := DefaultWindowName)))
      else Ok(cfg)
  }
}
