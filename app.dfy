/**
 * The application's sequential control logic (app/app.go): start-up
 * defaults, playback timing, the transform stage's drop-on-error rule, the
 * per-frame display step with the FPS bucket and key handling, and the
 * hot-reload handler that swaps pipeline and configuration together and
 * schedules one deferred close of the replaced pipeline. Goroutines,
 * channels and locks are not modelled; times are integer nanoseconds.
 */
module App {
  import opened Wrappers
  import opened Frames
  import opened Config
  import opened Processor
  import opened Builder
  import Pipeline
  import Recorder
  import Streamer
  import Text

  const DefaultOutput: string := "gocvkit_capture.mp4"
  const DefaultQuality: int := 75
  const FallbackFPS: real := 30.0
  const MaxFileFPS: real := 200.0
  const DebounceWindow: int := 200_000_000
  const CloseDelay: int := 150_000_000
  const FpsWindow: int := 500_000_000
  /** fsnotify.Write, the bit of an event's Op that marks a write. */
  const WriteOp: bv32 := 2

  // ---------------------------------------------------------------------
  // Start-up defaults

  /** The recording path: the configured output, or "gocvkit_capture.mp4" when unset. */
  function OutputPath(cfg: Config): (p: string)
    ensures cfg.app.output != "" ==> p == cfg.app.output
    ensures cfg.app.output == "" ==> p == DefaultOutput
    ensures p != ""
  {
    if cfg.app.output == "" then DefaultOutput else cfg.app.output
  }

  /** The stream-quality default New writes into the configuration: 75 when the file gives 0. */
  function ApplyStreamDefaults(cfg: Config): (r: Config)
    ensures r.stream.quality != 0
    ensures cfg.stream.quality != 0 ==> r == cfg
    ensures cfg.stream.quality == 0 ==> r.stream.quality == DefaultQuality
    ensures r.(stream := cfg.stream) == cfg && r.stream.(quality := cfg.stream.quality) == cfg.stream
  {
    if cfg.stream.quality == 0 then cfg.(stream := cfg.stream.(quality := DefaultQuality)) else cfg
  }

  /** The configuration the application runs with for a parsed file (Load, then New's defaults). */
  function EffectiveConfig(parsed: Result<Config, string>): Result<Config, string> {
    match Load(parsed)
    case Err(e) => Err(e)
    case Ok(cfg) => Ok(ApplyStreamDefaults(cfg))
  }

  /** The effective configuration has a window name and a non-zero quality, and otherwise is the file's. */
  lemma EffectiveConfigDefaults(parsed: Result<Config, string>)
    ensures EffectiveConfig(parsed).Ok? <==> parsed.Ok?
    ensures parsed.Ok? ==>
              var c := EffectiveConfig(parsed).value;
              c.app.windowName != "" && c.stream.quality != 0 &&
              c.steps == parsed.value.steps && c.camera == parsed.value.camera &&
              c.app.record == parsed.value.app.record && c.app.output == parsed.value.app.output &&
              c.stream.enabled == parsed.value.stream.enabled
  {
  }

  // ---------------------------------------------------------------------
  // Playback timing

  /** The file's frame rate, with missing or implausible metadata (outside (0, 200]) replaced by 30. */
  function SourceFPS(fps: real): (r: real)
    ensures 0.0 < r <= MaxFileFPS
    ensures 0.0 < fps <= MaxFileFPS ==> r == fps
    ensures !(0.0 < fps <= MaxFileFPS) ==> r == FallbackFPS
  {
    if fps <= 0.0 || fps > MaxFileFPS then FallbackFPS else fps
  }

  /** The key-wait delay in milliseconds and the rate handed to the recorder. */
  datatype Timing = Timing(delay: int, recFPS: real)

  /** A plausible file rate waits at least 5 ms per frame. */
  lemma DelayAtLeastFive(fps: real)
    requires 0.0 < fps <= MaxFileFPS
    ensures (1000.0 / fps).Floor >= 5
  {
  }

  /**
   * The delay and recording rate Run derives: a camera waits 1 ms per key
   * poll; a file waits 1000/fps ms truncated, with its sanitised rate as the
   * recording rate; when recording, a positive reported rate wins unclamped.
   */
  function PlaybackTiming(isFile: bool, cameraFps: real, record: bool): (t: Timing)
    ensures t.delay >= 1 && t.recFPS > 0.0
    ensures !isFile ==> t.delay == 1
    ensures isFile ==> t.delay == (1000.0 / SourceFPS(cameraFps)).Floor && t.delay >= 5
    ensures record && cameraFps > 0.0 ==> t.recFPS == cameraFps
    ensures !(record && cameraFps > 0.0) ==> t.recFPS == if isFile then SourceFPS(cameraFps) else FallbackFPS
  {
    var base :=
      if isFile then
        DelayAtLeastFive(SourceFPS(cameraFps));
        Timing((1000.0 / SourceFPS(cameraFps)).Floor, SourceFPS(cameraFps))
      else Timing(1, FallbackFPS);
    if record && cameraFps > 0.0 then base.(recFPS := cameraFps) else base
  }

  /** A 30 fps file waits 33 ms per frame; the recorder always accepts the derived rate. */
  lemma PlaybackTimingExamples(s: Recorder.RecorderState, isFile: bool, cameraFps: real, record: bool)
    ensures PlaybackTiming(true, 30.0, false) == Timing(33, 30.0)
    ensures PlaybackTiming(true, 0.0, true) == Timing(33, 30.0)
    ensures PlaybackTiming(true, 500.0, true) == Timing(33, 500.0)
    ensures Recorder.SetFPSSpec(s, PlaybackTiming(isFile, cameraFps, record).recFPS).fps
            == PlaybackTiming(isFile, cameraFps, record).recFPS
  {
    assert 1000.0 / 30.0 == 33.0 + 1.0 / 3.0;
  }

  // ---------------------------------------------------------------------
  // Keys and the FPS bucket

  datatype KeyAction = Quit | ToggleFps | NoAction

  /** Esc, 'q' and 'Q' end Run; 'f' and 'F' flip the overlay; every other key does nothing. */
  function ClassifyKey(key: int): (a: KeyAction)
    ensures a == Quit <==> key == 27 || key == 'q' as int || key == 'Q' as int
    ensures a == ToggleFps <==> key == 'f' as int || key == 'F' as int
  {
    if key == 27 || key == 'q' as int || key == 'Q' as int then Quit
    else if key == 'f' as int || key == 'F' as int then ToggleFps
    else NoAction
  }

  /** The overlay flag after a key: only a toggle key flips it. */
  function NextShowFps(show: bool, key: int): (r: bool)
    ensures ClassifyKey(key) == ToggleFps ==> r == !show
    ensures ClassifyKey(key) != ToggleFps ==> r == show
  {
    if ClassifyKey(key) == ToggleFps then !show else show
  }

  /** The bucket: frames since the last reset, when it was reset, and the figures behind the text. */
  datatype MeterState = MeterState(counter: nat, ticker: int, shown: Option<(nat, int)>)

  /** One frame: count it; at 500 ms or more since the reset, publish frames / elapsed and reset. */
  function MeterStep(m: MeterState, now: int): MeterState {
    if now - m.ticker >= FpsWindow then MeterState(0, now, Some((m.counter + 1, now - m.ticker)))
    else m.(counter := m.counter + 1)
  }

  /** The bucket after one frame at each of the given times, oldest first. */
  function MeterRun(m: MeterState, times: seq<int>): MeterState
    decreases |times|
  {
    if times == [] then m else MeterStep(MeterRun(m, times[..|times| - 1]), times[|times| - 1])
  }

  /** Within one window every frame is counted and nothing else changes. */
  lemma {:induction false} MeterCountsWithinWindow(m: MeterState, times: seq<int>)
    requires forall k :: 0 <= k < |times| ==> times[k] - m.ticker < FpsWindow
    ensures MeterRun(m, times) == m.(counter := m.counter + |times|)
    decreases |times|
  {
    if times != [] {
      var init := times[..|times| - 1];
      assert forall k :: 0 <= k < |init| ==> init[k] == times[k];
      MeterCountsWithinWindow(m, init);
    }
  }

  /**
   * The published figure covers every frame of the window, the one that
   * closes it included, and the whole elapsed time; then the bucket restarts.
   */
  lemma {:induction false} MeterPublishes(m: MeterState, times: seq<int>, now: int)
    requires forall k :: 0 <= k < |times| ==> times[k] - m.ticker < FpsWindow
    requires now - m.ticker >= FpsWindow
    ensures MeterRun(m, times + [now]) == MeterState(0, now, Some((m.counter + |times| + 1, now - m.ticker)))
  {
    MeterRunSnoc(m, times, now);
    MeterCountsWithinWindow(m, times);
  }

  /** Running the bucket over one more time is one more MeterStep. */
  lemma {:induction false} MeterRunSnoc(m: MeterState, times: seq<int>, t: int)
    ensures MeterRun(m, times + [t]) == MeterStep(MeterRun(m, times), t)
  {
    var all := times + [t];
    assert all[..|all| - 1] == times && all[|all| - 1] == t;
  }

  class FpsMeter {
    var counter: nat
    var ticker: int
    var shown: Option<(nat, int)>

    function State(): MeterState
      reads this
    {
      MeterState(counter, ticker, shown)
    }

    /** The bucket starts empty at `now` and shows "FPS: --". */
    constructor (now: int)
      ensures State() == MeterState(0, now, None)
    {
      counter, ticker, shown := 0, now, None;
    }

    method Tick(now: int) returns (refreshed: bool)
      modifies this
      ensures refreshed == (now - old(ticker) >= FpsWindow)
      ensures State() == MeterStep(old(State()), now)
    {
      counter := counter + 1;
      refreshed := now - ticker >= FpsWindow;
      if refreshed {
        shown := Some((counter, now - ticker));
        counter := 0;
        ticker := now;
      }
    }
  }

  // ---------------------------------------------------------------------
  // The transform stage

  /** What the stage sends on for one frame: the pipeline's output, or nothing when Run fails. */
  function StageOutput(steps: seq<Step>, f: Frame): Option<Frame> {
    if f.Empty() then Some(EmptyMat)
    else
      match Pipeline.Chain(steps, f)
      case Done(g) => Some(g)
      case Halted(_, _) => None
  }

  function StageOutputs(steps: seq<Step>, frames: seq<Frame>): seq<Frame>
    decreases |frames|
  {
    if frames == [] then []
    else
      var init := StageOutputs(steps, frames[..|frames| - 1]);
      match StageOutput(steps, frames[|frames| - 1])
      case Some(g) => init + [g]
      case None => init
  }

  /** A frame whose run fails is dropped and the stage goes on: one output per successful frame, in order. */
  lemma {:induction false} StageOutputsCount(steps: seq<Step>, frames: seq<Frame>)
    ensures |StageOutputs(steps, frames)| <= |frames|
    ensures (forall k :: 0 <= k < |frames| ==> StageOutput(steps, frames[k]).Some?) ==>
              |StageOutputs(steps, frames)| == |frames| &&
              forall k :: 0 <= k < |frames| ==> StageOutputs(steps, frames)[k] == StageOutput(steps, frames[k]).value
    decreases |frames|
  {
    if frames != [] {
      var init := frames[..|frames| - 1];
      StageOutputsCount(steps, init);
      assert forall k :: 0 <= k < |init| ==> init[k] == frames[k];
    }
  }

  /** One more frame adds its stage output, if any, to the outputs so far. */
  lemma StageOutputsSnoc(steps: seq<Step>, frames: seq<Frame>, i: nat)
    requires i < |frames|
    ensures StageOutputs(steps, frames[..i + 1]) ==
              StageOutputs(steps, frames[..i]) +
              (if StageOutput(steps, frames[i]).Some? then [StageOutput(steps, frames[i]).value] else [])
  {
    assert frames[..i + 1][..i] == frames[..i];
  }

  /** Run on a fresh empty destination passes exactly when the stage has an output, and writes it. */
  lemma RunIsStageOutput(steps: seq<Step>, bufA: Frame, bufB: Frame, stats: seq<Pipeline.StepStats>,
                         img: Frame, elapsed: nat -> nat)
    ensures var spec := Pipeline.RunSpec(steps, bufA, bufB, stats, Some(img), true, elapsed);
            (spec.result == Pass <==> StageOutput(steps, img).Some?) &&
            (spec.result == Pass ==>
               (if spec.dst.Some? then spec.dst.value else EmptyMat) == StageOutput(steps, img).value)
  {
    if !img.Empty() {
      Pipeline.RunMatchesChain(steps, bufA, bufB, stats, img, elapsed);
    }
  }

  /** The transform loop: run the pipeline on each frame, drop the frames it fails on. */
  method TransformStage(p: Pipeline.Pipeline, frames: seq<Frame>, elapsed: nat -> nat -> nat) returns (results: seq<Frame>)
    requires p.Valid()
    modifies p
    ensures p.Valid()
    ensures results == StageOutputs(p.steps, frames)
  {
    results := [];
    var i := 0;
    while i < |frames|
      invariant 0 <= i <= |frames|
      invariant p.Valid()
      invariant results == StageOutputs(p.steps, frames[..i])
    {
      var img := frames[i];
      var out := new MatRef(EmptyMat);
      ghost var a0, b0, s0 := p.bufA, p.bufB, p.stats;
      var err := p.Run(Some(img), out, elapsed(i));
      RunIsStageOutput(p.steps, a0, b0, s0, img, elapsed(i));
      StageOutputsSnoc(p.steps, frames, i);
      if err.Fail? {
        i := i + 1;
        continue;
      }
      results := results + [out.mat];
      i := i + 1;
    }
    assert frames[..|frames|] == frames;
  }

  // ---------------------------------------------------------------------
  // The capture stage

  /** The frames the reader sends on: every successful read up to the first failed or empty one. */
  function SourceFrames(attempts: seq<Option<Frame>>): (fs: seq<Frame>)
    ensures |fs| <= |attempts|
    ensures forall k :: 0 <= k < |fs| ==> attempts[k] == Some(fs[k]) && !fs[k].Empty()
    ensures |fs| < |attempts| ==> attempts[|fs|].None? || attempts[|fs|].value.Empty()
    decreases |attempts|
  {
    if attempts == [] || attempts[0].None? || attempts[0].value.Empty() then []
    else [attempts[0].value] + SourceFrames(attempts[1..])
  }

  // ---------------------------------------------------------------------
  // Start-up and hot reload

  datatype StartError = StartLoadFailed(reason: string) | CameraFailed | StartBuildFailed(cause: BuildError)

  /** What New ends with: the effective configuration and the built steps, or the first failure (load, camera, build). */
  function Startup(parsed: Result<Config, string>, cameraOk: bool, registry: map<string, Factory>): (r: Result<(Config, seq<Step>), StartError>)
    ensures r.Ok? ==> parsed.Ok? && cameraOk && r.value.0 == EffectiveConfig(parsed).value &&
                      Build(registry, parsed.value.steps) == Ok(r.value.1)
    ensures parsed.Err? ==> r == Err(StartLoadFailed(parsed.error))
    ensures parsed.Ok? && !cameraOk ==> r == Err(CameraFailed)
  {
    match EffectiveConfig(parsed)
    case Err(e) => Err(StartLoadFailed(e))
    case Ok(cfg) =>
      if !cameraOk then Err(CameraFailed)
      else
        match Build(registry, cfg.steps)
        case Err(e) => Err(StartBuildFailed(e))
        case Ok(steps) => Ok((cfg, steps))
  }

  /** An event that asks for a reload: the channel delivered it and its Op has the write bit. */
  predicate IsWrite(chanOk: bool, op: bv32) {
    chanOk && op & WriteOp != 0
  }

  /** An accepted event less than 200 ms after the previous accepted one is dropped; the zero time never is. */
  predicate Bounced(last: Option<int>, now: int) {
    last.Some? && now - last.value < DebounceWindow
  }

  /** The debounce mark after an event: moved to `now` by every accepted event, before loading. */
  function NextLast(chanOk: bool, op: bv32, last: Option<int>, now: int): (l: Option<int>)
    ensures IsWrite(chanOk, op) && !Bounced(last, now) ==> l == Some(now)
    ensures !(IsWrite(chanOk, op) && !Bounced(last, now)) ==> l == last
  {
    if IsWrite(chanOk, op) && !Bounced(last, now) then Some(now) else last
  }

  datatype ReloadOutcome =
    | Ignored
    | Debounced
    | LoadFailed(reason: string)
    | BuildFailed(cause: BuildError)
    | Reloaded(cfg: Config, steps: seq<Step>)

  /** One event of the watcher loop, decided; the stored configuration carries New's defaults. */
  function ReloadDecision(chanOk: bool, op: bv32, last: Option<int>, now: int,
                          parsed: Result<Config, string>, registry: map<string, Factory>): ReloadOutcome
  {
    if !IsWrite(chanOk, op) then Ignored
    else if Bounced(last, now) then Debounced
    else
      match EffectiveConfig(parsed)
      case Err(e) => LoadFailed(e)
      case Ok(cfg) =>
        match Build(registry, cfg.steps)
        case Err(e) => BuildFailed(e)
        case Ok(steps) => Reloaded(cfg, steps)
  }

  /** Closed channels and events without the write bit never reload; the debounce only applies to accepted events. */
  lemma ReloadFilters(chanOk: bool, op: bv32, last: Option<int>, now: int,
                      parsed: Result<Config, string>, registry: map<string, Factory>)
    ensures ReloadDecision(chanOk, op, last, now, parsed, registry) == Ignored <==> !IsWrite(chanOk, op)
    ensures ReloadDecision(chanOk, op, last, now, parsed, registry) == Debounced <==>
              IsWrite(chanOk, op) && Bounced(last, now)
    ensures IsWrite(chanOk, op) && last.None? ==> ReloadDecision(chanOk, op, last, now, parsed, registry) != Debounced
  {
  }

  /**
   * Every accepted event moves the debounce mark, whether its reload then
   * fails or not: any write event less than 200 ms later is dropped,
   * whatever the file then holds.
   */
  lemma AcceptedEventDebounces(op: bv32, last: Option<int>, now: int, later: int, op2: bv32,
                               parsed: Result<Config, string>, registry: map<string, Factory>)
    requires IsWrite(true, op) && !Bounced(last, now)
    requires now <= later < now + DebounceWindow && IsWrite(true, op2)
    ensures NextLast(true, op, last, now) == Some(now)
    ensures ReloadDecision(true, op2, NextLast(true, op, last, now), later, parsed, registry) == Debounced
  {
  }

  /**
   * A reload succeeds exactly when a restart on the same file would, and
   * installs the same configuration and the same steps, one per configured
   * step, each built by its registered factory.
   */
  lemma ReloadMatchesStartup(chanOk: bool, op: bv32, last: Option<int>, now: int,
                             parsed: Result<Config, string>, registry: map<string, Factory>)
    requires IsWrite(chanOk, op) && !Bounced(last, now)
    ensures ReloadDecision(chanOk, op, last, now, parsed, registry).Reloaded? <==> Startup(parsed, true, registry).Ok?
    ensures Startup(parsed, true, registry).Ok? ==>
              var r := ReloadDecision(chanOk, op, last, now, parsed, registry);
              (r.cfg, r.steps) == Startup(parsed, true, registry).value &&
              r.cfg.stream.quality != 0 && |r.steps| == |r.cfg.steps| &&
              forall j :: 0 <= j < |r.steps| ==>
                r.cfg.steps[j].name in registry && registry[r.cfg.steps[j].name](r.cfg.steps[j]) == Ok(r.steps[j])
  {
    if Startup(parsed, true, registry).Ok? {
      BuildOk(registry, EffectiveConfig(parsed).value.steps);
    }
  }

  /** A file that loads but whose steps do not build is reported with the builder's error, as at start-up. */
  lemma ReloadBuildFailure(chanOk: bool, op: bv32, last: Option<int>, now: int,
                           parsed: Result<Config, string>, registry: map<string, Factory>)
    requires IsWrite(chanOk, op) && !Bounced(last, now)
    ensures parsed.Err? <==> ReloadDecision(chanOk, op, last, now, parsed, registry).LoadFailed?
    ensures ReloadDecision(chanOk, op, last, now, parsed, registry).BuildFailed? <==>
              Startup(parsed, true, registry).Err? && Startup(parsed, true, registry).error.StartBuildFailed?
    ensures ReloadDecision(chanOk, op, last, now, parsed, registry).BuildFailed? ==>
              ReloadDecision(chanOk, op, last, now, parsed, registry).cause == Startup(parsed, true, registry).error.cause
  {
  }

  /** The configuration the watcher stores as written: Load's result, without New's quality default. */
  function ReloadedConfigAsWritten(parsed: Result<Config, string>): (r: Result<Config, string>)
    ensures r.Ok? <==> parsed.Ok?
    ensures r.Ok? ==> r.value.stream == parsed.value.stream && r.value.steps == parsed.value.steps
  {
    Load(parsed)
  }

  /** The watcher loop's decision as written: the same filter, debounce and build, on Load's result. */
  function ReloadDecisionAsWritten(chanOk: bool, op: bv32, last: Option<int>, now: int,
                                   parsed: Result<Config, string>, registry: map<string, Factory>): ReloadOutcome
  {
    if !IsWrite(chanOk, op) then Ignored
    else if Bounced(last, now) then Debounced
    else
      match ReloadedConfigAsWritten(parsed)
      case Err(e) => LoadFailed(e)
      case Ok(cfg) =>
        match Build(registry, cfg.steps)
        case Err(e) => BuildFailed(e)
        case Ok(steps) => Reloaded(cfg, steps)
  }

  /**
   * The watcher as written and the corrected one take the same decision on
   * every event, with the same steps and errors; a reload differs only in
   * the stored configuration, which the corrected one gives New's defaults.
   */
  lemma ReloadAsWrittenDiffers(chanOk: bool, op: bv32, last: Option<int>, now: int,
                               parsed: Result<Config, string>, registry: map<string, Factory>)
    ensures var w := ReloadDecisionAsWritten(chanOk, op, last, now, parsed, registry);
            var c := ReloadDecision(chanOk, op, last, now, parsed, registry);
            (w.Reloaded? <==> c.Reloaded?) && (!w.Reloaded? ==> w == c) &&
            (w.Reloaded? ==> w.cfg == Load(parsed).value && c.cfg == ApplyStreamDefaults(w.cfg) && c.steps == w.steps)
  {
  }

  /**
   * Whenever start-up succeeds on a file that leaves the stream quality
   * unset, New runs with quality 75, but an accepted write of that same file
   * makes the watcher as written store quality 0.
   */
  lemma ReloadLosesQualityDefault(chanOk: bool, op: bv32, last: Option<int>, now: int,
                                  parsed: Result<Config, string>, registry: map<string, Factory>)
    requires IsWrite(chanOk, op) && !Bounced(last, now)
    requires Startup(parsed, true, registry).Ok? && parsed.value.stream.quality == 0
    ensures Startup(parsed, true, registry).value.0.stream.quality == DefaultQuality
    ensures var w := ReloadDecisionAsWritten(chanOk, op, last, now, parsed, registry);
            w.Reloaded? && w.cfg.stream.quality == 0 && w.cfg != Startup(parsed, true, registry).value.0
  {
    ReloadAsWrittenDiffers(chanOk, op, last, now, parsed, registry);
  }

  /** The file of the finding: streaming on, no quality, no steps; it starts at 75 and reloads at 0. */
  lemma ReloadLosesQualityExample(registry: map<string, Factory>)
    ensures var file := Ok(Config(AppSection("", false, ""), CameraSection(0, ""), StreamSection(true, 8080, "/stream", 0), []));
            Startup(file, true, registry).Ok? && Startup(file, true, registry).value.0.stream.quality == DefaultQuality &&
            ReloadDecisionAsWritten(true, WriteOp, None, 0, file, registry).cfg.stream.quality == 0
  {
    var file := Ok(Config(AppSection("", false, ""), CameraSection(0, ""), StreamSection(true, 8080, "/stream", 0), []));
    assert Build(registry, []) == Ok([]);
    assert IsWrite(true, WriteOp);
    ReloadLosesQualityDefault(true, WriteOp, None, 0, file, registry);
  }

  /** A deferred Close of a replaced pipeline, due when the 150 ms grace period ends. */
  datatype DeferredClose = DeferredClose(target: Pipeline.Pipeline, due: int)

  /** The steps' close order, as Pipeline.Close records it. */
  function CloseOrder(p: Pipeline.Pipeline): seq<nat> {
    seq(|p.steps|, j => j)
  }

  class App {
    const registry: map<string, Factory>
    const recorder: Recorder.Recorder
    const streamer: Streamer.MJPEGStreamer
    var pipeline: Pipeline.Pipeline?
    var config: Config
    /** The watcher's debounce mark; None is the zero time. */
    var last: Option<int>
    /** Replaced pipelines whose grace timer has not fired yet, in scheduling order. */
    var pendingCloses: seq<DeferredClose>

    /**
     * The current pipeline keeps its stats consistent, the recorder its file
     * invariant, and each replaced pipeline waits for exactly one timer and
     * is never the current one.
     */
    ghost predicate Valid()
      reads this, pipeline, recorder
    {
      (pipeline != null ==> pipeline.Valid()) &&
      Recorder.Inv(recorder.State()) &&
      (forall k :: 0 <= k < |pendingCloses| ==> pendingCloses[k].target != pipeline) &&
      (forall k, l :: 0 <= k < l < |pendingCloses| ==> pendingCloses[k].target != pendingCloses[l].target)
    }

    constructor (registry: map<string, Factory>, cfg: Config, steps: seq<Step>)
      ensures Valid()
      ensures this.registry == registry && config == cfg && last == None && pendingCloses == []
      ensures pipeline != null && fresh(pipeline) && pipeline.steps == steps && pipeline.closeLog == []
      ensures fresh(recorder) && recorder.State() == Recorder.Initial(OutputPath(cfg))
      ensures fresh(streamer) && streamer.clients == {} && streamer.lastSent == None && streamer.latestFrame == None
    {
      this.registry := registry;
      recorder := new Recorder.Recorder(OutputPath(cfg));
      streamer := new Streamer.MJPEGStreamer();
      pipeline := new Pipeline.Pipeline(steps);
      config := cfg;
      last := None;
      pendingCloses := [];
    }

    /**
     * The watcher's handling of one event: filter, debounce, load, build; on
     * success swap pipeline and configuration together and schedule one
     * deferred Close of the replaced pipeline; on failure keep both.
     */
    method HandleConfigEvent(chanOk: bool, op: bv32, now: int, parsed: Result<Config, string>)
      returns (outcome: ReloadOutcome)
      requires Valid()
      modifies this
      ensures Valid()
      ensures outcome == ReloadDecision(chanOk, op, old(last), now, parsed, registry)
      ensures last == NextLast(chanOk, op, old(last), now)
      ensures !outcome.Reloaded? ==>
                pipeline == old(pipeline) && config == old(config) && pendingCloses == old(pendingCloses)
      ensures outcome.Reloaded? ==>
                pipeline != null && fresh(pipeline) && pipeline.steps == outcome.steps && pipeline.closeLog == [] &&
                config == outcome.cfg &&
                pendingCloses == old(pendingCloses) +
                  (if old(pipeline) == null then [] else [DeferredClose(old(pipeline), now + CloseDelay)])
      ensures old(pipeline) != null ==> old(pipeline).closeLog == old(pipeline.closeLog)
    {
      if !chanOk || op & WriteOp == 0 {
        return Ignored;
      }
      if last.Some? && now - last.value < DebounceWindow {
        return Debounced;
      }
      last := Some(now);
      var loaded := EffectiveConfig(parsed);
      if loaded.Err? {
        return LoadFailed(loaded.error);
      }
      var cfg := loaded.value;
      var built := Builder.BuildPipeline(registry, cfg.steps);
      if built.Err? {
        return BuildFailed(built.error);
      }
      Swap(cfg, built.value, now);
      return Reloaded(cfg, built.value);
    }

    /** The swap of a successful reload: new pipeline and configuration, and one deferred close of the old pipeline. */
    method Swap(cfg: Config, steps: seq<Step>, now: int)
      requires Valid()
      modifies this
      ensures Valid()
      ensures pipeline != null && fresh(pipeline) && pipeline.steps == steps && pipeline.closeLog == []
      ensures config == cfg && last == old(last)
      ensures pendingCloses == old(pendingCloses) +
                (if old(pipeline) == null then [] else [DeferredClose(old(pipeline), now + CloseDelay)])
      ensures old(pipeline) != null ==> old(pipeline).closeLog == old(pipeline.closeLog)
    {
      var newP := new Pipeline.Pipeline(steps);
      var previous := pipeline;
      pipeline := newP;
      config := cfg;
      if previous != null {
        pendingCloses := pendingCloses + [DeferredClose(previous, now + CloseDelay)];
      }
    }

    /** The oldest grace timer fires when due: its pipeline is closed once and leaves the queue. */
    method FireTimer(now: int) returns (fired: bool)
      requires Valid()
      modifies this, if pendingCloses != [] then {pendingCloses[0].target} else {}
      ensures Valid()
      ensures fired <==> old(pendingCloses) != [] && old(pendingCloses)[0].due <= now
      ensures fired ==>
                pendingCloses == old(pendingCloses)[1..] &&
                old(pendingCloses)[0].target != pipeline &&
                old(pendingCloses)[0].target.closeLog ==
                  old(pendingCloses[0].target.closeLog) + CloseOrder(old(pendingCloses)[0].target)
      ensures !fired ==> pendingCloses == old(pendingCloses)
      ensures pipeline == old(pipeline) && config == old(config) && last == old(last)
    {
      if pendingCloses == [] || pendingCloses[0].due > now {
        return false;
      }
      var target := pendingCloses[0].target;
      target.Close();
      pendingCloses := pendingCloses[1..];
      return true;
    }

    /**
     * One frame of the present stage: callback, FPS bucket, optional overlay,
     * recording and broadcasting when enabled, then the key poll. The
     * recorder's and streamer's errors are ignored, as in the source.
     */
    method Present(m: Frame, now: int, key: int, meter: FpsMeter, showFps: bool,
                   callback: Frame -> Frame, overlay: (Frame, Option<(nat, int)>) -> Frame,
                   openOk: bool, writeOk: bool, encode: (Frame, int) -> Text.Bytes)
      returns (quit: bool, nextShow: bool)
      requires Valid()
      modifies meter, recorder, streamer, streamer.clients
      ensures Valid()
      ensures meter.State() == MeterStep(old(meter.State()), now)
      ensures var shown := if showFps then overlay(callback(m), meter.shown) else callback(m);
              recorder.State() ==
                (if config.app.record then Recorder.WriteSpec(old(recorder.State()), shown, openOk, writeOk).0
                 else old(recorder.State())) &&
              (config.stream.enabled && Streamer.Due(old(streamer.lastSent), now, streamer.interval) ==>
                 streamer.lastSent == Some(now) && streamer.latestFrame == Some(encode(shown, config.stream.quality)))
      ensures !(config.stream.enabled && Streamer.Due(old(streamer.lastSent), now, streamer.interval)) ==>
                streamer.lastSent == old(streamer.lastSent) && streamer.latestFrame == old(streamer.latestFrame)
      ensures streamer.clients == old(streamer.clients)
      ensures var shown := if showFps then overlay(callback(m), meter.shown) else callback(m);
              forall c :: c in streamer.clients ==>
                c.pending ==
                  if config.stream.enabled && Streamer.Due(old(streamer.lastSent), now, streamer.interval)
                  then Streamer.Offer(old(c.pending), encode(shown, config.stream.quality))
                  else old(c.pending)
      ensures quit <==> ClassifyKey(key) == Quit
      ensures nextShow == NextShowFps(showFps, key)
    {
      var frame := callback(m);
      var _ := meter.Tick(now);
      if showFps {
        frame := overlay(frame, meter.shown);
      }
      if config.app.record {
        Recorder.WriteSpecInv(recorder.State(), frame, openOk, writeOk);
        var _ := recorder.Write(frame, openOk, writeOk);
      }
      if config.stream.enabled {
        var _ := streamer.Broadcast(frame, config.stream.quality, now, encode);
      }
      quit := key == 27 || key == 'q' as int || key == 'Q' as int;
      nextShow := showFps;
      if !quit && (key == 'f' as int || key == 'F' as int) {
        nextShow := !showFps;
      }
    }

    /** Close: the recorder finishes its file, then the current pipeline, if any, is closed. */
    method Close()
      requires Valid()
      modifies recorder, pipeline
      ensures Valid()
      ensures recorder.State() == Recorder.CloseSpec(old(recorder.State()))
      ensures pipeline != null ==> pipeline.closeLog == old(pipeline.closeLog) + CloseOrder(pipeline)
    {
      Recorder.CloseSpecInv(recorder.State());
      recorder.Close();
      if pipeline != null {
        pipeline.Close();
      }
    }
  }

  /** New: the application, or the first failure in the order load, camera, build. */
  method New(parsed: Result<Config, string>, cameraOk: bool, registry: map<string, Factory>)
    returns (r: Result<App, StartError>)
    ensures Startup(parsed, cameraOk, registry).Err? ==> r == Err(Startup(parsed, cameraOk, registry).error)
    ensures Startup(parsed, cameraOk, registry).Ok? ==>
              r.Ok? && fresh(r.value) && r.value.Valid() &&
              r.value.config == Startup(parsed, cameraOk, registry).value.0 &&
              r.value.pipeline != null && r.value.pipeline.steps == Startup(parsed, cameraOk, registry).value.1 &&
              r.value.recorder.State() == Recorder.Initial(OutputPath(r.value.config)) &&
              r.value.last == None && r.value.pendingCloses == []
  {
    var loaded := Load(parsed);
    if loaded.Err? {
      return Err(StartLoadFailed(loaded.error));
    }
    if !cameraOk {
      return Err(CameraFailed);
    }
    var cfg := ApplyStreamDefaults(loaded.value);
    var built := Builder.BuildPipeline(registry, cfg.steps);
    if built.Err? {
      return Err(StartBuildFailed(built.error));
    }
    var a := new App(registry, cfg, built.value);
    return Ok(a);
  }
}
