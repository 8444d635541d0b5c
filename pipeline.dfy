/**
 * The double-buffer executor (pipeline/pipeline.go): two scratch frames used
 * alternately as input and output of each step, the buffer (re)allocation
 * rule, the short-circuits of Run and the per-step profiling statistics.
 */
module Pipeline {
  import opened Wrappers
  import opened Frames
  import opened Processor

  // ---------------------------------------------------------------------
  // Statistics

  /** Profiling metrics of one step; durations are whole nanoseconds. */
  datatype StepStats = StepStats(name: string, calls: nat, totalTime: nat, maxTime: nat)

  /** The update Run makes to a step's metrics after it succeeds in `elapsed` ns. */
  function Record(s: StepStats, elapsed: nat): StepStats {
    StepStats(s.name, s.calls + 1, s.totalTime + elapsed,
              if elapsed > s.maxTime then elapsed else s.maxTime)
  }

  function Sum(ds: seq<nat>): nat {
    if ds == [] then 0 else Sum(ds[..|ds| - 1]) + ds[|ds| - 1]
  }

  function MaxOf(ds: seq<nat>): nat {
    if ds == [] then 0
    else
      var m := MaxOf(ds[..|ds| - 1]);
      if ds[|ds| - 1] > m then ds[|ds| - 1] else m
  }

  /** The metrics that a history of step durations should produce. */
  function Summary(name: string, ds: seq<nat>): StepStats {
    StepStats(name, |ds|, Sum(ds), MaxOf(ds))
  }

  /** Recording one more duration keeps the metrics equal to the summary of the whole history. */
  lemma RecordExtendsSummary(name: string, ds: seq<nat>, e: nat)
    ensures Record(Summary(name, ds), e) == Summary(name, ds + [e])
  {
    assert (ds + [e])[..|ds|] == ds;
  }

  /** MaxTime is an upper bound attained by some call, and never exceeds TotalTime. */
  lemma {:induction false} SummaryBounds(name: string, ds: seq<nat>)
    ensures forall k :: 0 <= k < |ds| ==> ds[k] <= Summary(name, ds).maxTime
    ensures ds != [] ==> exists k :: 0 <= k < |ds| && ds[k] == Summary(name, ds).maxTime
    ensures Summary(name, ds).maxTime <= Summary(name, ds).totalTime
    ensures Summary(name, ds).calls == |ds|
    ensures ds == [] ==> Summary(name, ds) == StepStats(name, 0, 0, 0)
  {
    if ds != [] {
      var init := ds[..|ds| - 1];
      SummaryBounds(name, init);
      assert forall k :: 0 <= k < |init| ==> ds[k] == init[k];
      if init != [] {
        var k :| 0 <= k < |init| && init[k] == MaxOf(init);
        assert ds[k] == MaxOf(init);
      }
      assert ds[|ds| - 1] <= MaxOf(ds);
    }
  }

  /** The stats slice Run builds: one zeroed entry per step, carrying the step's name. */
  function FreshStats(steps: seq<Step>): (st: seq<StepStats>)
    ensures |st| == |steps|
    ensures forall j :: 0 <= j < |steps| ==> st[j] == Summary(steps[j].name, [])
  {
    seq(|steps|, j requires 0 <= j < |steps| => StepStats(steps[j].name, 0, 0, 0))
  }

  /** The stats after steps 0..k-1 have each succeeded once, step j taking elapsed(j) ns. */
  function Accumulate(st: seq<StepStats>, elapsed: nat -> nat, k: nat): (r: seq<StepStats>)
    ensures |r| == |st|
  {
    seq(|st|, j requires 0 <= j < |st| => if j < k then Record(st[j], elapsed(j)) else st[j])
  }

  /** A stats slice whose entries below k have one more record and the rest none is Accumulate's. */
  lemma AccumulateExt(st: seq<StepStats>, elapsed: nat -> nat, k: nat, sts: seq<StepStats>)
    requires |sts| == |st|
    requires forall j :: 0 <= j < |sts| ==> sts[j] == if j < k then Record(st[j], elapsed(j)) else st[j]
    ensures sts == Accumulate(st, elapsed, k)
  {
  }

  // ---------------------------------------------------------------------
  // Buffer sizing

  /** Whether Run rebuilds both scratch buffers before processing `src`. */
  predicate NeedsRealloc(a: Frame, b: Frame, src: Frame) {
    a.Empty() || b.Empty() || a.rows != src.rows || a.cols != src.cols
  }

  /** The scratch buffers after the allocation block of Run. */
  function Resized(a: Frame, b: Frame, src: Frame): (Frame, Frame) {
    if NeedsRealloc(a, b, src) then
      (NewMatWithSize(src.rows, src.cols, src.typ), NewMatWithSize(src.rows, src.cols, src.typ))
    else (a, b)
  }

  /**
   * After sizing, bufA has src's geometry; bufB has it too whenever the buffers
   * were rebuilt, and a rebuild happens exactly on an empty buffer or a change
   * of bufA's rows or columns (a type change alone keeps both buffers).
   */
  lemma ResizedGeometry(a: Frame, b: Frame, src: Frame)
    requires !src.Empty()
    ensures Resized(a, b, src).0.SameSize(src) && !Resized(a, b, src).0.Empty()
    ensures NeedsRealloc(a, b, src) ==>
              Resized(a, b, src).1.SameSize(src) &&
              Resized(a, b, src).0.typ == src.typ && Resized(a, b, src).1.typ == src.typ
    ensures !NeedsRealloc(a, b, src) <==> Resized(a, b, src) == (a, b) && !a.Empty() && !b.Empty() && a.SameSize(src)
  {
  }

  /**
   * Only bufA's geometry is compared: a non-empty bufB of another size (left
   * there by a resizing step) survives the sizing block.
   */
  lemma BufBKeepsOtherGeometry()
    ensures var src := Frame(480, 640, CV_8UC3, []);
            var a := Frame(480, 640, CV_8UC3, []);
            var b := Frame(224, 224, CV_8UC3, []);
            Resized(a, b, src).1 == b && !Resized(a, b, src).1.SameSize(src)
  {
  }

  // ---------------------------------------------------------------------
  // The ping-pong loop

  datatype RunError =
    | DstNil
    | InputEmpty(step: string)
    | StepFailed(step: string, cause: string)
    | EmptyOutput(step: string)

  /** The loop state: both buffers and which one is the input, or where it stopped and why. */
  datatype Exec =
    | Running(a: Frame, b: Frame, inA: bool)
    | Stopped(a: Frame, b: Frame, at: nat, err: RunError)

  /** One iteration of the loop for step `s` at index `i`; a failing Process leaves the output buffer as it was. */
  function Attempt(s: Step, i: nat, e: Exec): Exec {
    match e
    case Stopped(_, _, _, _) => e
    case Running(a, b, inA) =>
      var input := if inA then a else b;
      if input.Empty() then Stopped(a, b, i, InputEmpty(s.name))
      else
        match s.apply(input)
        case Err(cause) => Stopped(a, b, i, StepFailed(s.name, cause))
        case Ok(o) =>
          var a' := if inA then a else o;
          var b' := if inA then o else b;
          if o.Empty() then Stopped(a', b', i, EmptyOutput(s.name))
          else Running(a', b', !inA)
  }

  /** The loop state after the first n iterations. */
  function ExecN(steps: seq<Step>, e0: Exec, n: nat): Exec
    requires n <= |steps|
  {
    if n == 0 then e0 else Attempt(steps[n - 1], n - 1, ExecN(steps, e0, n - 1))
  }

  /** The reference semantics: the steps composed in order, halting at the first failure. */
  datatype ChainResult = Done(frame: Frame) | Halted(at: nat, err: RunError)

  function ChainN(steps: seq<Step>, src: Frame, n: nat): ChainResult
    requires n <= |steps|
  {
    if n == 0 then Done(src)
    else
      match ChainN(steps, src, n - 1)
      case Halted(at, err) => Halted(at, err)
      case Done(f) =>
        var s := steps[n - 1];
        if f.Empty() then Halted(n - 1, InputEmpty(s.name))
        else
          match s.apply(f)
          case Err(cause) => Halted(n - 1, StepFailed(s.name, cause))
          case Ok(o) => if o.Empty() then Halted(n - 1, EmptyOutput(s.name)) else Done(o)
  }

  function Chain(steps: seq<Step>, src: Frame): ChainResult {
    ChainN(steps, src, |steps|)
  }

  /**
   * The buffers implement composition: after n iterations started with src in
   * bufA, the loop is running exactly when the composition of the first n
   * steps succeeds, the input buffer is bufA exactly when n is even, and it
   * holds the composed frame; otherwise both stop at the same step and error.
   */
  lemma {:induction false} ExecAgreesWithChain(steps: seq<Step>, src: Frame, b0: Frame, n: nat)
    requires n <= |steps|
    ensures ExecN(steps, Running(src, b0, true), n).Running? <==> ChainN(steps, src, n).Done?
    ensures ChainN(steps, src, n).Done? ==>
              var e := ExecN(steps, Running(src, b0, true), n);
              e.inA == (n % 2 == 0) &&
              (if e.inA then e.a else e.b) == ChainN(steps, src, n).frame
    ensures ChainN(steps, src, n).Halted? ==>
              ExecN(steps, Running(src, b0, true), n).at == ChainN(steps, src, n).at &&
              ExecN(steps, Running(src, b0, true), n).err == ChainN(steps, src, n).err
  {
    if n > 0 {
      ExecAgreesWithChain(steps, src, b0, n - 1);
    }
  }

  /**
   * Every frame the chain passes on is non-empty, so after a non-empty src the
   * input-empty guard never fires: a halt is a failing or an empty-output step.
   */
  lemma {:induction false} ChainNeverInputEmpty(steps: seq<Step>, src: Frame, n: nat)
    requires n <= |steps|
    requires !src.Empty()
    ensures ChainN(steps, src, n).Done? ==> !ChainN(steps, src, n).frame.Empty()
    ensures ChainN(steps, src, n).Halted? ==>
              (ChainN(steps, src, n).err.StepFailed? || ChainN(steps, src, n).err.EmptyOutput?) &&
              ChainN(steps, src, n).at < n
  {
    if n > 0 {
      ChainNeverInputEmpty(steps, src, n - 1);
    }
  }

  /** Once the loop has stopped, further iterations change nothing. */
  lemma {:induction false} ExecStoppedStays(steps: seq<Step>, e0: Exec, n: nat, m: nat)
    requires n <= m <= |steps|
    requires ExecN(steps, e0, n).Stopped?
    ensures ExecN(steps, e0, m) == ExecN(steps, e0, n)
    decreases m - n
  {
    if n < m {
      ExecStoppedStays(steps, e0, n, m - 1);
    }
  }

  /** A halt at step `at` is a halt of every longer prefix: later steps never run. */
  lemma {:induction false} ChainHaltStays(steps: seq<Step>, src: Frame, n: nat, m: nat)
    requires n <= m <= |steps|
    requires ChainN(steps, src, n).Halted?
    ensures ChainN(steps, src, m) == ChainN(steps, src, n)
    decreases m - n
  {
    if n < m {
      ChainHaltStays(steps, src, n, m - 1);
    }
  }

  /** Steps that return their input unchanged make the chain return src. */
  lemma {:induction false} ChainIdentity(steps: seq<Step>, src: Frame, n: nat)
    requires n <= |steps|
    requires !src.Empty()
    requires forall j :: 0 <= j < |steps| ==> steps[j].apply(src) == Ok(src)
    ensures ChainN(steps, src, n) == Done(src)
  {
    if n > 0 {
      ChainIdentity(steps, src, n - 1);
    }
  }

  // ---------------------------------------------------------------------
  // Run as a whole

  /** The state Run leaves behind; `dst` is None when Run does not write it. */
  datatype RunOutcome = RunOutcome(result: Outcome<RunError>, bufA: Frame, bufB: Frame,
                                   stats: seq<StepStats>, dst: Option<Frame>)

  /**
   * Run on a source (None is a Mat without a native pointer) and whether a
   * destination was supplied; step j's measured time is elapsed(j).
   */
  function RunSpec(steps: seq<Step>, bufA: Frame, bufB: Frame, stats: seq<StepStats>,
                   src: Option<Frame>, hasDst: bool, elapsed: nat -> nat): RunOutcome
  {
    if src.None? || src.value.Empty() then RunOutcome(Pass, bufA, bufB, stats, None)
    else if !hasDst then RunOutcome(Fail(DstNil), bufA, bufB, stats, None)
    else
      var f := src.value;
      var sized := Resized(bufA, bufB, f);
      if |steps| == 0 then RunOutcome(Pass, sized.0, sized.1, stats, Some(f))
      else
        var st := if |stats| != |steps| then FreshStats(steps) else stats;
        match ExecN(steps, Running(f, sized.1, true), |steps|)
        case Running(a, b, inA) =>
          RunOutcome(Pass, a, b, Accumulate(st, elapsed, |steps|), Some(if inA then a else b))
        case Stopped(a, b, at, err) =>
          RunOutcome(Fail(err), a, b, Accumulate(st, elapsed, at), None)
  }

  /** A missing or empty source succeeds and touches nothing; a missing dst is reported only after that. */
  lemma RunShortCircuits(steps: seq<Step>, bufA: Frame, bufB: Frame, stats: seq<StepStats>,
                         src: Option<Frame>, hasDst: bool, elapsed: nat -> nat)
    ensures src.None? || src.value.Empty() ==>
              RunSpec(steps, bufA, bufB, stats, src, hasDst, elapsed) == RunOutcome(Pass, bufA, bufB, stats, None)
    ensures src.Some? && !src.value.Empty() ==>
              (RunSpec(steps, bufA, bufB, stats, src, hasDst, elapsed).result == Fail(DstNil) <==> !hasDst)
    ensures src.Some? && !src.value.Empty() && !hasDst ==>
              RunSpec(steps, bufA, bufB, stats, src, hasDst, elapsed) == RunOutcome(Fail(DstNil), bufA, bufB, stats, None)
  {
    if src.Some? && !src.value.Empty() && hasDst && |steps| > 0 {
      ExecAgreesWithChain(steps, src.value, Resized(bufA, bufB, src.value).1, |steps|);
      ChainNeverInputEmpty(steps, src.value, |steps|);
    }
  }

  /** With no steps, dst becomes a copy of src after buffer sizing and the stats are untouched. */
  lemma RunWithoutSteps(bufA: Frame, bufB: Frame, stats: seq<StepStats>, src: Frame, elapsed: nat -> nat)
    requires !src.Empty()
    ensures var r := RunSpec([], bufA, bufB, stats, Some(src), true, elapsed);
            r.result == Pass && r.dst == Some(src) && r.stats == stats &&
            r.bufA.SameSize(src) && (r.bufA, r.bufB) == Resized(bufA, bufB, src)
  {
  }

  /**
   * When every step succeeds, dst is the composition of the steps applied to
   * src, it sits in bufA for an even number of steps and in bufB for an odd
   * one, and every step's metrics record exactly one more call.
   */
  lemma RunComposes(steps: seq<Step>, bufA: Frame, bufB: Frame, stats: seq<StepStats>,
                    src: Frame, elapsed: nat -> nat)
    requires !src.Empty() && |steps| > 0
    requires Chain(steps, src).Done?
    ensures var r := RunSpec(steps, bufA, bufB, stats, Some(src), true, elapsed);
            r.result == Pass && r.dst == Some(Chain(steps, src).frame) &&
            (if |steps| % 2 == 0 then r.bufA else r.bufB) == Chain(steps, src).frame &&
            |r.stats| == |steps| &&
            forall j :: 0 <= j < |steps| ==>
              r.stats[j] == Record(if |stats| == |steps| then stats[j] else Summary(steps[j].name, []), elapsed(j))
  {
    ExecAgreesWithChain(steps, src, Resized(bufA, bufB, src).1, |steps|);
  }

  /**
   * When the chain halts at step i, Run returns that step's error, dst is not
   * written, steps before i have one more call recorded and steps from i on
   * keep their metrics.
   */
  lemma RunHalts(steps: seq<Step>, bufA: Frame, bufB: Frame, stats: seq<StepStats>,
                 src: Frame, elapsed: nat -> nat)
    requires !src.Empty() && |steps| > 0
    requires Chain(steps, src).Halted?
    ensures var r := RunSpec(steps, bufA, bufB, stats, Some(src), true, elapsed);
            var i := Chain(steps, src).at;
            var st := if |stats| == |steps| then stats else FreshStats(steps);
            r.result == Fail(Chain(steps, src).err) && r.dst.None? &&
            i < |steps| && (Chain(steps, src).err.StepFailed? || Chain(steps, src).err.EmptyOutput?) &&
            |r.stats| == |steps| &&
            (forall j :: 0 <= j < i ==> r.stats[j] == Record(st[j], elapsed(j))) &&
            (forall j :: i <= j < |steps| ==> r.stats[j] == st[j])
  {
    ExecAgreesWithChain(steps, src, Resized(bufA, bufB, src).1, |steps|);
    ChainNeverInputEmpty(steps, src, |steps|);
  }

  /**
   * Whatever the buffers and stats, Run on a non-empty src succeeds exactly
   * when the chain of steps does, and then writes the chain's frame to dst.
   */
  lemma RunMatchesChain(steps: seq<Step>, bufA: Frame, bufB: Frame, stats: seq<StepStats>,
                        src: Frame, elapsed: nat -> nat)
    requires !src.Empty()
    ensures var r := RunSpec(steps, bufA, bufB, stats, Some(src), true, elapsed);
            (r.result == Pass <==> Chain(steps, src).Done?) &&
            (r.result == Pass ==> r.dst == Some(Chain(steps, src).frame)) &&
            (r.result != Pass ==> r.dst.None? && r.result == Fail(Chain(steps, src).err))
  {
    if |steps| > 0 {
      if Chain(steps, src).Done? {
        RunComposes(steps, bufA, bufB, stats, src, elapsed);
      } else {
        RunHalts(steps, bufA, bufB, stats, src, elapsed);
      }
    }
  }

  /** Identity steps deliver src itself to dst. */
  lemma RunIdentity(steps: seq<Step>, bufA: Frame, bufB: Frame, stats: seq<StepStats>,
                    src: Frame, elapsed: nat -> nat)
    requires !src.Empty()
    requires forall j :: 0 <= j < |steps| ==> steps[j].apply(src) == Ok(src)
    ensures RunSpec(steps, bufA, bufB, stats, Some(src), true, elapsed).result == Pass
    ensures RunSpec(steps, bufA, bufB, stats, Some(src), true, elapsed).dst == Some(src)
  {
    ChainIdentity(steps, src, |steps|);
    if |steps| > 0 {
      RunComposes(steps, bufA, bufB, stats, src, elapsed);
    }
  }

  /** What the loop returns once it has left state `e` after n steps. */
  predicate LoopOutcome(e: Exec, stats: seq<StepStats>, elapsed: nat -> nat, n: nat,
                        r: Outcome<RunError>, out: Option<Frame>, a: Frame, b: Frame, sts: seq<StepStats>)
  {
    a == e.a && b == e.b &&
    (e.Running? ==> r == Pass && out == Some(if e.inA then e.a else e.b) && sts == Accumulate(stats, elapsed, n)) &&
    (e.Stopped? ==> r == Fail(e.err) && out == None && sts == Accumulate(stats, elapsed, e.at))
  }

  /** A loop that stops at step i has its final state at that point, with the first i steps recorded. */
  lemma StoppedOutcome(steps: seq<Step>, e0: Exec, i: nat, stats: seq<StepStats>, elapsed: nat -> nat,
                       sts: seq<StepStats>, a: Frame, b: Frame, err: RunError)
    requires i < |steps|
    requires ExecN(steps, e0, i + 1) == Stopped(a, b, i, err)
    requires |sts| == |stats|
    requires forall j :: 0 <= j < |sts| ==> sts[j] == if j < i then Record(stats[j], elapsed(j)) else stats[j]
    ensures LoopOutcome(ExecN(steps, e0, |steps|), stats, elapsed, |steps|, Fail(err), None, a, b, sts)
  {
    ExecStoppedStays(steps, e0, i + 1, |steps|);
    AccumulateExt(stats, elapsed, i, sts);
  }

  /** Every recorded history, with elapsed(j) appended for each step j below k. */
  ghost function Extended(history: seq<seq<nat>>, elapsed: nat -> nat, k: nat): seq<seq<nat>> {
    seq(|history|, j requires 0 <= j < |history| => if j < k then history[j] + [elapsed(j)] else history[j])
  }

  /** How many steps recorded a call when the loop ended in state `e` after n steps. */
  function Recorded(e: Exec, n: nat): nat {
    if e.Running? then n else e.at
  }

  /** A run that reaches the loop ends with whatever the loop leaves, on the sized buffers and the stats in use. */
  lemma LoopIsRun(steps: seq<Step>, bufA: Frame, bufB: Frame, stats: seq<StepStats>, f: Frame, elapsed: nat -> nat,
                  r: Outcome<RunError>, out: Option<Frame>, a: Frame, b: Frame, sts: seq<StepStats>)
    requires !f.Empty() && |steps| > 0
    requires LoopOutcome(ExecN(steps, Running(f, Resized(bufA, bufB, f).1, true), |steps|),
                         if |stats| != |steps| then FreshStats(steps) else stats, elapsed, |steps|, r, out, a, b, sts)
    ensures RunSpec(steps, bufA, bufB, stats, Some(f), true, elapsed) == RunOutcome(r, a, b, sts, out)
  {
  }

  /** The recorded durations after Run: the current pass's successful steps each add one. */
  ghost function RunHistory(steps: seq<Step>, bufA: Frame, bufB: Frame, stats: seq<StepStats>,
                            history: seq<seq<nat>>, src: Option<Frame>, hasDst: bool, elapsed: nat -> nat): seq<seq<nat>>
  {
    if src.None? || src.value.Empty() || !hasDst || |steps| == 0 then history
    else
      var base := if |stats| != |steps| then seq(|steps|, _ => []) else history;
      var e := ExecN(steps, Running(src.value, Resized(bufA, bufB, src.value).1, true), |steps|);
      Extended(base, elapsed, Recorded(e, |steps|))
  }

  /** Stats that summarise their histories (or do not exist yet) still do after any Run. */
  lemma RunSummarises(steps: seq<Step>, bufA: Frame, bufB: Frame, stats: seq<StepStats>,
                      history: seq<seq<nat>>, src: Option<Frame>, hasDst: bool, elapsed: nat -> nat)
    requires |history| == |stats| && (|stats| == 0 || |stats| == |steps|)
    requires forall j :: 0 <= j < |stats| ==> stats[j] == Summary(steps[j].name, history[j])
    ensures var sts, hist := RunSpec(steps, bufA, bufB, stats, src, hasDst, elapsed).stats,
                             RunHistory(steps, bufA, bufB, stats, history, src, hasDst, elapsed);
            |hist| == |sts| && (|sts| == 0 || |sts| == |steps|) &&
            forall j :: 0 <= j < |sts| ==> sts[j] == Summary(steps[j].name, hist[j])
  {
    if !(src.None? || src.value.Empty() || !hasDst || |steps| == 0) {
      var f := src.value;
      var st := if |stats| != |steps| then FreshStats(steps) else stats;
      var base := if |stats| != |steps| then seq(|steps|, _ => []) else history;
      var e := ExecN(steps, Running(f, Resized(bufA, bufB, f).1, true), |steps|);
      AccumulateSummarises(steps, st, base, elapsed, Recorded(e, |steps|));
    }
  }

  /** Stats that summarise their histories still do after the first k steps each record one more call. */
  lemma AccumulateSummarises(steps: seq<Step>, stats: seq<StepStats>, history: seq<seq<nat>>,
                             elapsed: nat -> nat, k: nat)
    requires |stats| == |steps| == |history|
    requires forall j :: 0 <= j < |stats| ==> stats[j] == Summary(steps[j].name, history[j])
    ensures var sts, hist := Accumulate(stats, elapsed, k), Extended(history, elapsed, k);
            |hist| == |sts| && forall j :: 0 <= j < |sts| ==> sts[j] == Summary(steps[j].name, hist[j])
  {
    forall j | 0 <= j < |stats| && j < k
      ensures Record(stats[j], elapsed(j)) == Summary(steps[j].name, history[j] + [elapsed(j)])
    {
      RecordExtendsSummary(steps[j].name, history[j], elapsed(j));
    }
  }

  /**
   * One iteration of Run's loop: an empty input halts, a failing Process
   * halts and leaves the output buffer as it was, and an empty output halts
   * after being stored; otherwise the buffers swap roles.
   */
  method ProcessStep(step: Step, i: nat, a: Frame, b: Frame, inA: bool) returns (next: Exec)
    ensures next == Attempt(step, i, Running(a, b, inA))
  {
    var input := if inA then a else b;
    if input.Empty() {
      return Stopped(a, b, i, InputEmpty(step.name));
    }
    var res := step.apply(input);
    if res.Err? {
      return Stopped(a, b, i, StepFailed(step.name, res.error));
    }
    var a', b' := a, b;
    if inA {
      b' := res.value;
    } else {
      a' := res.value;
    }
    if res.value.Empty() {
      return Stopped(a', b', i, EmptyOutput(step.name));
    }
    return Running(a', b', !inA);
  }

  /**
   * The loop of Run: src is copied into bufA, then each step reads one buffer
   * and writes the other, and each success is recorded in the step's stats.
   * The final buffers, the stats and the frame for dst are those of ExecN.
   */
  method PingPong(steps: seq<Step>, f: Frame, bufB: Frame, stats: seq<StepStats>, elapsed: nat -> nat)
    returns (r: Outcome<RunError>, out: Option<Frame>, a: Frame, b: Frame, sts: seq<StepStats>)
    requires |stats| == |steps|
    ensures LoopOutcome(ExecN(steps, Running(f, bufB, true), |steps|), stats, elapsed, |steps|, r, out, a, b, sts)
  {
    ghost var e0 := Running(f, bufB, true);
    a, b, sts := f, bufB, stats;
    var inA := true;
    var i := 0;
    while i < |steps|
      invariant 0 <= i <= |steps|
      invariant ExecN(steps, e0, i) == Running(a, b, inA)
      invariant |sts| == |steps|
      invariant forall j :: 0 <= j < |sts| ==> sts[j] == if j < i then Record(stats[j], elapsed(j)) else stats[j]
    {
      var next := ProcessStep(steps[i], i, a, b, inA);
      assert ExecN(steps, e0, i + 1) == next;
      if next.Stopped? {
        r, out, a, b := Fail(next.err), None, next.a, next.b;
        StoppedOutcome(steps, e0, i, stats, elapsed, sts, a, b, next.err);
        return;
      }
      a, b := next.a, next.b;
      sts := sts[i := Record(sts[i], elapsed(i))];
      inA := next.inA;
      i := i + 1;
    }
    r, out := Pass, Some(if inA then a else b);
    AccumulateExt(stats, elapsed, i, sts);
  }

  /**
   * Run's steps on the pipeline's fields as values: the nil and empty
   * checks, the buffer sizing, the copy for an empty pipeline, the stats
   * allocation and the loop.
   */
  method RunValues(steps: seq<Step>, bufA: Frame, bufB: Frame, stats: seq<StepStats>,
                   src: Option<Frame>, hasDst: bool, elapsed: nat -> nat)
    returns (r: Outcome<RunError>, a: Frame, b: Frame, sts: seq<StepStats>, out: Option<Frame>)
    ensures RunSpec(steps, bufA, bufB, stats, src, hasDst, elapsed) == RunOutcome(r, a, b, sts, out)
  {
    if src.None? || src.value.Empty() {
      return Pass, bufA, bufB, stats, None;
    }
    if !hasDst {
      return Fail(DstNil), bufA, bufB, stats, None;
    }
    var f := src.value;
    a, b := bufA, bufB;
    if a.Empty() || b.Empty() {
      a := NewMatWithSize(f.rows, f.cols, f.typ);
      b := NewMatWithSize(f.rows, f.cols, f.typ);
    } else if a.rows != f.rows || a.cols != f.cols {
      a := NewMatWithSize(f.rows, f.cols, f.typ);
      b := NewMatWithSize(f.rows, f.cols, f.typ);
    }
    assert (a, b) == Resized(bufA, bufB, f);
    if |steps| == 0 {
      return Pass, a, b, stats, Some(f);
    }
    sts := stats;
    if |sts| != |steps| {
      sts := FreshStats(steps);
    }
    r, out, a, b, sts := PingPong(steps, f, b, sts, elapsed);
    LoopIsRun(steps, bufA, bufB, stats, f, elapsed, r, out, a, b, sts);
  }

  // ---------------------------------------------------------------------
  // The Pipeline object

  class Pipeline {
    const steps: seq<Step>
    var bufA: Frame
    var bufB: Frame
    var stats: seq<StepStats>
    /** Every duration recorded for each step, oldest first. */
    ghost var history: seq<seq<nat>>
    /** Indices of the steps whose Close has been called, in call order. */
    var closeLog: seq<nat>

    /** The stats are either not yet built or one entry per step summarising its history. */
    ghost predicate Valid()
      reads this
    {
      |history| == |stats| &&
      (|stats| == 0 || |stats| == |steps|) &&
      forall j :: 0 <= j < |stats| ==> stats[j] == Summary(steps[j].name, history[j])
    }

    /** New: keeps the steps; the stats it builds are discarded, so none exist yet. */
    constructor (steps: seq<Step>)
      ensures Valid()
      ensures this.steps == steps
      ensures bufA == EmptyMat && bufB == EmptyMat
      ensures stats == [] && closeLog == []
    {
      this.steps := steps;
      bufA := EmptyMat;
      bufB := EmptyMat;
      stats := [];
      history := [];
      closeLog := [];
    }

    /** Run: the buffers, stats and dst end as RunSpec says, and the stats stay a summary of all recorded calls. */
    method Run(src: Option<Frame>, dst: MatRef?, elapsed: nat -> nat) returns (r: Outcome<RunError>)
      requires Valid()
      modifies this, dst
      ensures Valid()
      ensures var spec := RunSpec(steps, old(bufA), old(bufB), old(stats), src, dst != null, elapsed);
              r == spec.result && bufA == spec.bufA && bufB == spec.bufB && stats == spec.stats &&
              (dst != null ==> dst.mat == if spec.dst.Some? then spec.dst.value else old(dst.mat))
      ensures closeLog == old(closeLog)
    {
      RunSummarises(steps, bufA, bufB, stats, history, src, dst != null, elapsed);
      history := RunHistory(steps, bufA, bufB, stats, history, src, dst != null, elapsed);
      var out;
      r, bufA, bufB, stats, out := RunValues(steps, bufA, bufB, stats, src, dst != null, elapsed);
      if out.Some? {
        dst.mat := out.value;
      }
    }

    /** Close: both buffers are released and every step is closed once, in order. */
    method Close()
      modifies this
      ensures bufA == EmptyMat && bufB == EmptyMat
      ensures closeLog == old(closeLog) + seq(|steps|, j => j)
      ensures stats == old(stats) && history == old(history)
    {
      bufA := EmptyMat;
      bufB := EmptyMat;
      var i := 0;
      while i < |steps|
        invariant 0 <= i <= |steps|
        invariant closeLog == old(closeLog) + seq(i, j => j)
        invariant bufA == EmptyMat && bufB == EmptyMat
        invariant stats == old(stats) && history == old(history)
      {
        closeLog := closeLog + [i];
        i := i + 1;
        assert seq(i, j => j) == seq(i - 1, j => j) + [i - 1];
      }
    }
  }
}
