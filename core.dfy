/**
 * The steps of processor/core: the morphological operations with iteration
 * counts, rotation with its angle normalisation and cached affine matrix,
 * colour conversion, flipping, Otsu and adaptive thresholding, and resizing.
 * The OpenCV kernels are function parameters; what is modelled is each
 * step's parameter validation, the state Validate prepares, and which
 * kernel Process applies to which input.
 */
module Core {
  import opened Wrappers
  import opened Frames
  import opened Steps

  // ---------------------------------------------------------------------
  // MorphClose, Dilate, Erode

  /** Validate's checks, in order: kernel < 1, even kernel, iterations < 1; the first failure is reported. */
  function CheckMorph(kernel: int, iterations: int): (r: Option<ParamError>)
    ensures r.None? <==> kernel >= 1 && kernel % 2 == 1 && iterations >= 1
    ensures kernel < 1 ==> r == Some(TooSmall("kernel"))
    ensures kernel >= 1 && kernel % 2 == 0 ==> r == Some(NotOdd("kernel"))
    ensures kernel >= 1 && kernel % 2 == 1 && iterations < 1 ==> r == Some(TooSmall("iterations"))
  {
    match CheckOddKernel("kernel", kernel, 1)
    case Some(e) => Some(e)
    case None => if iterations < 1 then Some(TooSmall("iterations")) else None
  }

  /** The registered defaults pass: MorphClose (5, 1), Dilate and Erode (3, 1). */
  lemma MorphDefaultsValid()
    ensures CheckMorph(MorphClose.DefaultKernel, MorphClose.DefaultIterations).None?
    ensures CheckMorph(Dilate.DefaultKernel, Dilate.DefaultIterations).None?
    ensures CheckMorph(Erode.DefaultKernel, Erode.DefaultIterations).None?
  {
  }

  /** The temporary must be (re)allocated: it is empty or its rows/cols differ from the source's. */
  predicate TempStale(temp: Frame, src: Frame) {
    temp.Empty() || temp.rows != src.rows || temp.cols != src.cols
  }

  /** Morphological close repeated `iterations` times, through a temporary kept between frames. */
  class MorphClose {
    static const DefaultKernel: int := 5
    static const DefaultIterations: int := 1

    var kernelSize: int
    var iterations: int
    /** The structuring element's size; None is an empty Mat. */
    var kernel: Option<int>
    var temp: Frame
    /** How many times Process has allocated `temp`. */
    ghost var tempAllocations: nat

    constructor (kernelSize: int, iterations: int)
      ensures this.kernelSize == kernelSize && this.iterations == iterations
      ensures kernel == None && temp == EmptyMat && tempAllocations == 0
    {
      this.kernelSize, this.iterations := kernelSize, iterations;
      kernel, temp := None, EmptyMat;
      tempAllocations := 0;
    }

    /** Checks the parameters; on success creates the kernel, which is itself an error when it comes out empty. */
    method Validate(kernelOk: bool) returns (r: Outcome<ParamError>)
      modifies this
      ensures CheckMorph(kernelSize, iterations).Some? ==>
                r == Fail(CheckMorph(kernelSize, iterations).value) && kernel == old(kernel)
      ensures CheckMorph(kernelSize, iterations).None? ==>
                kernel == (if kernelOk then Some(kernelSize) else None) &&
                r == (if kernelOk then Pass else Fail(KernelNotCreated))
      ensures kernelSize == old(kernelSize) && iterations == old(iterations)
      ensures temp == old(temp) && tempAllocations == old(tempAllocations)
    {
      if kernelSize < 1 {
        return Fail(TooSmall("kernel"));
      }
      if kernelSize % 2 == 0 {
        return Fail(NotOdd("kernel"));
      }
      if iterations < 1 {
        return Fail(TooSmall("iterations"));
      }
      kernel := if kernelOk then Some(kernelSize) else None;
      if kernel.None? {
        return Fail(KernelNotCreated);
      }
      return Pass;
    }

    /**
     * An empty source changes nothing; otherwise the close runs once into
     * dst and `iterations - 1` more times through `temp`, reallocated only
     * when stale. `close` is MorphologyEx with this step's kernel.
     */
    method Process(src: Frame, dst: MatRef, close: Frame -> Frame) returns (r: Outcome<ParamError>)
      modifies this, dst
      ensures r == Pass
      ensures kernelSize == old(kernelSize) && iterations == old(iterations) && kernel == old(kernel)
      ensures src.Empty() ==> dst.mat == old(dst.mat) && temp == old(temp) && tempAllocations == old(tempAllocations)
      ensures !src.Empty() ==> dst.mat == Iterate(close, Passes(iterations), src)
      ensures !src.Empty() && iterations > 1 ==>
                temp == dst.mat &&
                tempAllocations == old(tempAllocations) + (if TempStale(old(temp), src) then 1 else 0)
      ensures iterations <= 1 ==> temp == old(temp) && tempAllocations == old(tempAllocations)
    {
      if src.Empty() {
        return Pass;
      }
      dst.mat := close(src);
      if iterations > 1 {
        if temp.Empty() || temp.rows != src.rows || temp.cols != src.cols {
          temp := NewMatWithSize(src.rows, src.cols, src.typ);
          tempAllocations := tempAllocations + 1;
        }
        ghost var allocations := tempAllocations;
        var i := 1;
        while i < iterations
          invariant 1 <= i <= iterations
          invariant dst.mat == Iterate(close, i, src)
          invariant i > 1 ==> temp == dst.mat
          invariant tempAllocations == allocations
          invariant kernelSize == old(kernelSize) && iterations == old(iterations) && kernel == old(kernel)
        {
          temp := close(dst.mat);
          dst.mat := temp;
          i := i + 1;
        }
      }
      return Pass;
    }

    /** Close: releases the kernel and the temporary. */
    method Close()
      modifies this
      ensures kernel == None && temp == EmptyMat
      ensures kernelSize == old(kernelSize) && iterations == old(iterations)
    {
      kernel := None;
      temp := EmptyMat;
    }
  }

  /** A temporary with a frame's rows and cols is not stale for a later frame of the same rows and cols, whatever their types. */
  lemma TempReused(temp: Frame, src: Frame, next: Frame)
    requires !src.Empty() && temp.rows == src.rows && temp.cols == src.cols
    requires next.rows == src.rows && next.cols == src.cols
    ensures !TempStale(temp, next)
  {
  }

  /** Morphological dilation repeated `iterations` times through a temporary local to the call. */
  class Dilate {
    static const DefaultKernel: int := 3
    static const DefaultIterations: int := 1

    var kernelSize: int
    var iterations: int
    var kernel: Option<int>

    constructor (kernelSize: int, iterations: int)
      ensures this.kernelSize == kernelSize && this.iterations == iterations && kernel == None
    {
      this.kernelSize, this.iterations := kernelSize, iterations;
      kernel := None;
    }

    method Validate(kernelOk: bool) returns (r: Outcome<ParamError>)
      modifies this
      ensures CheckMorph(kernelSize, iterations).Some? ==>
                r == Fail(CheckMorph(kernelSize, iterations).value) && kernel == old(kernel)
      ensures CheckMorph(kernelSize, iterations).None? ==>
                kernel == (if kernelOk then Some(kernelSize) else None) &&
                r == (if kernelOk then Pass else Fail(KernelNotCreated))
      ensures kernelSize == old(kernelSize) && iterations == old(iterations)
    {
      var check := CheckMorph(kernelSize, iterations);
      if check.Some? {
        return Fail(check.value);
      }
      kernel := if kernelOk then Some(kernelSize) else None;
      if kernel.None? {
        return Fail(KernelNotCreated);
      }
      return Pass;
    }

    /** An empty source changes nothing; otherwise `dilate` runs exactly Passes(iterations) times. */
    method Process(src: Frame, dst: MatRef, dilate: Frame -> Frame) returns (r: Outcome<ParamError>)
      modifies dst
      ensures r == Pass
      ensures src.Empty() ==> dst.mat == old(dst.mat)
      ensures !src.Empty() ==> dst.mat == Iterate(dilate, Passes(iterations), src)
    {
      if src.Empty() {
        return Pass;
      }
      ApplyPasses(src, dst, dilate, iterations);
      return Pass;
    }

    method Close()
      modifies this
      ensures kernel == None
      ensures kernelSize == old(kernelSize) && iterations == old(iterations)
    {
      kernel := None;
    }
  }

  /** Morphological erosion repeated `iterations` times through a temporary local to the call. */
  class Erode {
    static const DefaultKernel: int := 3
    static const DefaultIterations: int := 1

    var kernelSize: int
    var iterations: int
    var kernel: Option<int>

    constructor (kernelSize: int, iterations: int)
      ensures this.kernelSize == kernelSize && this.iterations == iterations && kernel == None
    {
      this.kernelSize, this.iterations := kernelSize, iterations;
      kernel := None;
    }

    method Validate(kernelOk: bool) returns (r: Outcome<ParamError>)
      modifies this
      ensures CheckMorph(kernelSize, iterations).Some? ==>
                r == Fail(CheckMorph(kernelSize, iterations).value) && kernel == old(kernel)
      ensures CheckMorph(kernelSize, iterations).None? ==>
                kernel == (if kernelOk then Some(kernelSize) else None) &&
                r == (if kernelOk then Pass else Fail(KernelNotCreated))
      ensures kernelSize == old(kernelSize) && iterations == old(iterations)
    {
      var check := CheckMorph(kernelSize, iterations);
      if check.Some? {
        return Fail(check.value);
      }
      kernel := if kernelOk then Some(kernelSize) else None;
      if kernel.None? {
        return Fail(KernelNotCreated);
      }
      return Pass;
    }

    /** An empty source changes nothing; otherwise `erode` runs exactly Passes(iterations) times. */
    method Process(src: Frame, dst: MatRef, erode: Frame -> Frame) returns (r: Outcome<ParamError>)
      modifies dst
      ensures r == Pass
      ensures src.Empty() ==> dst.mat == old(dst.mat)
      ensures !src.Empty() ==> dst.mat == Iterate(erode, Passes(iterations), src)
    {
      if src.Empty() {
        return Pass;
      }
      ApplyPasses(src, dst, erode, iterations);
      return Pass;
    }

    method Close()
      modifies this
      ensures kernel == None
      ensures kernelSize == old(kernelSize) && iterations == old(iterations)
    {
      kernel := None;
    }
  }

  // ---------------------------------------------------------------------
  // Rotate

  /** The representative of `a` modulo 360 in [0, 360). */
  function NormalizedAngle(a: real): (n: real)
    ensures 0.0 <= n < 360.0
  {
    a - 360.0 * (a / 360.0).Floor as real
  }

  /** Any value in [0, 360) that differs from `a` by a multiple of 360 is the normalised angle. */
  lemma NormalizedUnique(a: real, n: real, k: int)
    requires 0.0 <= n < 360.0 && n == a + 360.0 * k as real
    ensures n == NormalizedAngle(a)
  {
    var f := (a / 360.0).Floor;
    var m := k + f;
    assert n - NormalizedAngle(a) == 360.0 * m as real;
  }

  const Rotate90Clockwise: int := 0
  const Rotate180Clockwise: int := 1
  const Rotate90CounterClockwise: int := 2

  /** The fast-path rotation code for an angle: 90, 180 and 270 after normalisation; None otherwise. */
  function FastPath(a: real): (c: Option<int>)
    ensures c.Some? <==> NormalizedAngle(a) in {90.0, 180.0, 270.0}
    ensures NormalizedAngle(a) == 90.0 ==> c == Some(Rotate90Clockwise)
    ensures NormalizedAngle(a) == 180.0 ==> c == Some(Rotate180Clockwise)
    ensures NormalizedAngle(a) == 270.0 ==> c == Some(Rotate90CounterClockwise)
  {
    var n := NormalizedAngle(a);
    if n == 90.0 then Some(Rotate90Clockwise)
    else if n == 180.0 then Some(Rotate180Clockwise)
    else if n == 270.0 then Some(Rotate90CounterClockwise)
    else None
  }

  /** Angles equal modulo 360 take the same path; -90 is a counter-clockwise quarter turn. */
  lemma FastPathExamples()
    ensures FastPath(90.0) == Some(Rotate90Clockwise) && FastPath(450.0) == Some(Rotate90Clockwise)
    ensures FastPath(-90.0) == Some(Rotate90CounterClockwise) && FastPath(270.0) == Some(Rotate90CounterClockwise)
    ensures FastPath(-180.0) == Some(Rotate180Clockwise)
    ensures FastPath(0.0).None? && FastPath(360.0).None? && FastPath(45.0).None?
  {
    assert NormalizedAngle(450.0) == 90.0 by { NormalizedUnique(450.0, 90.0, -1); }
    assert NormalizedAngle(-90.0) == 270.0 by { NormalizedUnique(-90.0, 270.0, 1); }
    assert NormalizedAngle(-180.0) == 180.0 by { NormalizedUnique(-180.0, 180.0, 1); }
    assert NormalizedAngle(90.0) == 90.0 by { NormalizedUnique(90.0, 90.0, 0); }
    assert NormalizedAngle(270.0) == 270.0 by { NormalizedUnique(270.0, 270.0, 0); }
    assert NormalizedAngle(0.0) == 0.0 by { NormalizedUnique(0.0, 0.0, 0); }
    assert NormalizedAngle(360.0) == 0.0 by { NormalizedUnique(360.0, 0.0, -1); }
    assert NormalizedAngle(45.0) == 45.0 by { NormalizedUnique(45.0, 45.0, 0); }
  }

  /** GetRotationMatrix2D's result: a 2×3 affine matrix for a centre and an angle; `rows == 0` is an empty Mat. */
  datatype Affine = Affine(rows: nat, cols: nat, cx: int, cy: int, angle: real)

  const EmptyAffine: Affine := Affine(0, 0, 0, 0, 0.0)

  function RotationMatrix2D(cx: int, cy: int, angle: real): (m: Affine)
    ensures m.rows == 2 && m.cols == 3 && m.cx == cx && m.cy == cy && m.angle == angle
  {
    Affine(2, 3, cx, cy, angle)
  }

  /** Process rebuilds the matrix when there is none or its rows/cols differ from the frame's. */
  predicate MatrixStale(hasMatrix: bool, mat: Affine, src: Frame) {
    !hasMatrix || mat.rows != src.rows || mat.cols != src.cols
  }

  /**
   * The cache compares the frame's size with the matrix's own 2×3: a built
   * matrix is reused only for 2×3 frames, and rebuilt on every other call.
   */
  lemma MatrixCacheHitsOnlyTwoByThree(cx: int, cy: int, angle: real, src: Frame)
    ensures !MatrixStale(true, RotationMatrix2D(cx, cy, angle), src) <==> src.rows == 2 && src.cols == 3
  {
  }

  class Rotate {
    static const DefaultAngle: real := 90.0

    var angle: real
    var isOptimized: bool
    var optCode: int
    var hasMatrix: bool
    var mat: Affine

    constructor (angle: real)
      ensures this.angle == angle && !isOptimized && optCode == 0 && !hasMatrix && mat == EmptyAffine
    {
      this.angle := angle;
      isOptimized, optCode, hasMatrix, mat := false, 0, false, EmptyAffine;
    }

    /**
     * Normalises a copy of the angle into [0, 360) and picks the fast path; any
     * other angle clears both the fast path and the cached matrix. Never fails.
     */
    method Validate() returns (r: Outcome<ParamError>)
      modifies this
      ensures r == Pass && angle == old(angle) && mat == old(mat)
      ensures FastPath(angle).Some? ==>
                isOptimized && optCode == FastPath(angle).value && hasMatrix == old(hasMatrix)
      ensures FastPath(angle).None? ==> !isOptimized && !hasMatrix && optCode == old(optCode)
    {
      var a := angle;
      ghost var k: int := 0;
      while a < 0.0
        invariant a == angle + 360.0 * k as real
        decreases (-a).Floor
      {
        a := a + 360.0;
        k := k + 1;
      }
      while a >= 360.0
        invariant a >= 0.0
        invariant a == angle + 360.0 * k as real
        decreases a.Floor
      {
        a := a - 360.0;
        k := k - 1;
      }
      NormalizedUnique(angle, a, k);
      if a == 90.0 {
        isOptimized, optCode := true, Rotate90Clockwise;
      } else if a == 180.0 {
        isOptimized, optCode := true, Rotate180Clockwise;
      } else if a == 270.0 {
        isOptimized, optCode := true, Rotate90CounterClockwise;
      } else {
        isOptimized, hasMatrix := false, false;
      }
      return Pass;
    }

    /**
     * An empty source changes nothing. The fast path rotates and leaves the
     * matrix alone; otherwise a stale matrix is rebuilt around the frame's
     * centre and the frame is warped with it at its own size.
     */
    method Process(src: Frame, dst: MatRef, rotate: (Frame, int) -> Frame, warp: (Frame, Affine) -> Frame)
      returns (r: Outcome<ParamError>)
      modifies this, dst
      ensures r == Pass
      ensures angle == old(angle) && isOptimized == old(isOptimized) && optCode == old(optCode)
      ensures src.Empty() || isOptimized ==> hasMatrix == old(hasMatrix) && mat == old(mat)
      ensures src.Empty() ==> dst.mat == old(dst.mat)
      ensures !src.Empty() && isOptimized ==> dst.mat == rotate(src, optCode)
      ensures !src.Empty() && !isOptimized ==>
                hasMatrix && dst.mat == warp(src, mat) &&
                mat == if MatrixStale(old(hasMatrix), old(mat), src)
                       then RotationMatrix2D(src.cols / 2, src.rows / 2, angle) else old(mat)
    {
      if src.Empty() {
        return Pass;
      }
      if isOptimized {
        dst.mat := rotate(src, optCode);
        return Pass;
      }
      if !hasMatrix || mat.rows != src.rows || mat.cols != src.cols {
        mat := RotationMatrix2D(src.cols / 2, src.rows / 2, angle);
        hasMatrix := true;
      }
      dst.mat := warp(src, mat);
      return Pass;
    }

    /** Close: a built matrix is released and forgotten; in every case none is left. */
    method Close()
      modifies this
      ensures !hasMatrix
      ensures old(hasMatrix) ==> mat == EmptyAffine
      ensures !old(hasMatrix) ==> mat == old(mat)
      ensures angle == old(angle) && isOptimized == old(isOptimized) && optCode == old(optCode)
    {
      if hasMatrix {
        mat := EmptyAffine;
        hasMatrix := false;
      }
    }
  }

  // ---------------------------------------------------------------------
  // ColorConvert

  /** The seven accepted codes and OpenCV's ColorConversionCode for each. */
  const ColorCodes: map<string, int> := map[
    "BGR2GRAY" := 6, "BGR2HSV" := 40, "HSV2BGR" := 54,
    "BGR2LAB" := 44, "LAB2BGR" := 56, "BGR2YUV" := 82, "YUV2BGR" := 84]

  lemma ColorCodeNames()
    ensures ColorCodes.Keys == {"BGR2GRAY", "BGR2HSV", "HSV2BGR", "BGR2LAB", "LAB2BGR", "BGR2YUV", "YUV2BGR"}
  {
  }

  lemma ColorCodeValues()
    ensures ColorCodes.Values == {6, 40, 54, 44, 56, 82, 84}
  {
    ColorCodeNames();
    forall v | v in ColorCodes.Values
      ensures v in {6, 40, 54, 44, 56, 82, 84}
    {
      var k :| k in ColorCodes && ColorCodes[k] == v;
    }
    assert ColorCodes["BGR2GRAY"] in ColorCodes.Values && ColorCodes["BGR2HSV"] in ColorCodes.Values;
    assert ColorCodes["HSV2BGR"] in ColorCodes.Values && ColorCodes["BGR2LAB"] in ColorCodes.Values;
    assert ColorCodes["LAB2BGR"] in ColorCodes.Values && ColorCodes["BGR2YUV"] in ColorCodes.Values;
    assert ColorCodes["YUV2BGR"] in ColorCodes.Values;
  }

  lemma ColorNamesCount()
    ensures |{"BGR2GRAY", "BGR2HSV", "HSV2BGR", "BGR2LAB", "LAB2BGR", "BGR2YUV", "YUV2BGR"}| == 7
  {
    var names: set<string> := {"BGR2HSV", "HSV2BGR", "BGR2LAB", "LAB2BGR", "BGR2YUV", "YUV2BGR"};
    assert "BGR2HSV"[4] == 'H' && "BGR2LAB"[4] == 'L' && "BGR2YUV"[4] == 'Y';
    assert "HSV2BGR"[0] == 'H' && "LAB2BGR"[0] == 'L' && "YUV2BGR"[0] == 'Y';
    assert |{"BGR2HSV", "BGR2LAB", "BGR2YUV"}| == 3;
    assert |{"HSV2BGR", "LAB2BGR", "YUV2BGR"}| == 3;
    assert names == {"BGR2HSV", "BGR2LAB", "BGR2YUV"} + {"HSV2BGR", "LAB2BGR", "YUV2BGR"};
    assert |names| == 6;
    assert |"BGR2GRAY"| == 8 && "BGR2GRAY" !in names;
  }

  /** Exactly seven names are accepted, case-sensitively, and they map to seven different codes. */
  lemma ColorCodesDistinct()
    ensures |ColorCodes.Keys| == 7 && |ColorCodes.Values| == 7
    ensures "bgr2gray" !in ColorCodes && "BGR2RGB" !in ColorCodes && "" !in ColorCodes
  {
    ColorKeysCount();
    ColorValuesCount();
    ColorRejects();
  }

  lemma ColorRejects()
    ensures "bgr2gray" !in ColorCodes && "BGR2RGB" !in ColorCodes && "" !in ColorCodes
  {
    ColorCodeNames();
    assert "bgr2gray"[0] == 'b';
    assert |"BGR2RGB"| == 7 && "BGR2RGB"[4] == 'R' && "BGR2RGB"[0] == 'B';
  }

  lemma ColorKeysCount()
    ensures |ColorCodes.Keys| == 7
  {
    ColorCodeNames();
    ColorNamesCount();
  }

  lemma ColorValuesCount()
    ensures |ColorCodes.Values| == 7
  {
    ColorCodeValues();
    assert |{6, 40, 54, 44, 56, 82, 84}| == 7;
  }

  class ColorConvert {
    static const DefaultCode: string := "BGR2GRAY"

    var code: string
    var codeEnum: int

    constructor (code: string)
      ensures this.code == code && codeEnum == 0
    {
      this.code, codeEnum := code, 0;
    }

    /** Accepts exactly the seven codes; `codeEnum` is written only on success. */
    method Validate() returns (r: Outcome<ParamError>)
      modifies this
      ensures r.Pass? <==> code in ColorCodes
      ensures r.Pass? ==> codeEnum == ColorCodes[code]
      ensures r.Fail? ==> r.error == Unsupported("code", code) && codeEnum == old(codeEnum)
      ensures code == old(code)
    {
      if code in ColorCodes {
        codeEnum := ColorCodes[code];
        return Pass;
      }
      return Fail(Unsupported("code", code));
    }

    /** An empty source changes nothing; otherwise dst is the conversion under `codeEnum`. */
    method Process(src: Frame, dst: MatRef, cvtColor: (Frame, int) -> Frame) returns (r: Outcome<ParamError>)
      modifies dst
      ensures r == Pass
      ensures src.Empty() ==> dst.mat == old(dst.mat)
      ensures !src.Empty() ==> dst.mat == cvtColor(src, codeEnum)
    {
      if !src.Empty() {
        dst.mat := cvtColor(src, codeEnum);
      }
      return Pass;
    }
  }

  // ---------------------------------------------------------------------
  // Flip

  /** The flip code for a mode: horizontal 1, vertical 0, both -1; None for anything else. */
  function FlipCode(mode: string): (c: Option<int>)
    ensures c.Some? <==> mode in {"horizontal", "vertical", "both"}
    ensures c.Some? ==> -1 <= c.value <= 1
    ensures mode == "horizontal" ==> c == Some(1)
    ensures mode == "vertical" ==> c == Some(0)
    ensures mode == "both" ==> c == Some(-1)
  {
    if mode == "horizontal" then Some(1)
    else if mode == "vertical" then Some(0)
    else if mode == "both" then Some(-1)
    else None
  }

  /** The three modes give three different codes, and the default mode is accepted. */
  lemma FlipCodesDistinct(m1: string, m2: string)
    ensures FlipCode(m1).Some? && FlipCode(m2).Some? && m1 != m2 ==> FlipCode(m1) != FlipCode(m2)
    ensures FlipCode(Flip.DefaultMode).Some?
  {
  }

  class Flip {
    static const DefaultMode: string := "horizontal"

    var mode: string
    var modeCode: int

    constructor (mode: string)
      ensures this.mode == mode && modeCode == 0
    {
      this.mode, modeCode := mode, 0;
    }

    method Validate() returns (r: Outcome<ParamError>)
      modifies this
      ensures r.Pass? <==> FlipCode(mode).Some?
      ensures r.Pass? ==> modeCode == FlipCode(mode).value
      ensures r.Fail? ==> r.error == Unsupported("mode", mode) && modeCode == old(modeCode)
      ensures mode == old(mode)
    {
      if mode == "horizontal" {
        modeCode := 1;
      } else if mode == "vertical" {
        modeCode := 0;
      } else if mode == "both" {
        modeCode := -1;
      } else {
        return Fail(Unsupported("mode", mode));
      }
      return Pass;
    }

    method Process(src: Frame, dst: MatRef, flip: (Frame, int) -> Frame) returns (r: Outcome<ParamError>)
      modifies dst
      ensures r == Pass
      ensures src.Empty() ==> dst.mat == old(dst.mat)
      ensures !src.Empty() ==> dst.mat == flip(src, modeCode)
    {
      if !src.Empty() {
        dst.mat := flip(src, modeCode);
      }
      return Pass;
    }
  }

  // ---------------------------------------------------------------------
  // Otsu

  const ThresholdBinary: bv32 := 0
  const ThresholdBinaryInv: bv32 := 1
  const ThresholdOtsu: bv32 := 8

  /** Binary | Otsu, with the inverting bit added when asked. */
  function OtsuFlags(invert: bool): (f: bv32)
    ensures f & ThresholdOtsu == ThresholdOtsu
    ensures (f & ThresholdBinaryInv != 0) <==> invert
    ensures f & !(ThresholdOtsu | ThresholdBinaryInv) == 0
  {
    var base := ThresholdBinary | ThresholdOtsu;
    if invert then base | ThresholdBinaryInv else base
  }

  class Otsu {
    static const DefaultMaxValue: real := 255.0
    static const DefaultInvert: bool := false

    var maxValue: real
    var invert: bool
    var flags: bv32

    constructor (maxValue: real, invert: bool)
      ensures this.maxValue == maxValue && this.invert == invert && flags == 0
    {
      this.maxValue, this.invert, flags := maxValue, invert, 0;
    }

    /** Rejects a max_value <= 0, leaving the flags; otherwise computes them from `invert`. */
    method Validate() returns (r: Outcome<ParamError>)
      modifies this
      ensures r.Pass? <==> maxValue > 0.0
      ensures r.Fail? ==> r.error == TooSmall("max_value") && flags == old(flags)
      ensures r.Pass? ==> flags == OtsuFlags(invert)
      ensures maxValue == old(maxValue) && invert == old(invert)
    {
      if maxValue <= 0.0 {
        return Fail(TooSmall("max_value"));
      }
      flags := ThresholdBinary | ThresholdOtsu;
      if invert {
        flags := flags | ThresholdBinaryInv;
      }
      return Pass;
    }

    method Process(src: Frame, dst: MatRef, threshold: (Frame, real, bv32) -> Frame) returns (r: Outcome<ParamError>)
      modifies dst
      ensures r == Pass
      ensures src.Empty() ==> dst.mat == old(dst.mat)
      ensures !src.Empty() ==> dst.mat == threshold(src, maxValue, flags)
    {
      if !src.Empty() {
        dst.mat := threshold(src, maxValue, flags);
      }
      return Pass;
    }
  }

  // ---------------------------------------------------------------------
  // Adaptive and Resize: no state beyond their parameters

  datatype Adaptive = Adaptive(maxValue: real, blockSize: int, c: real) {

    /** max_value <= 0, then block_size <= 1, then an even block_size; C is unconstrained. */
    function Validate(): (r: Option<ParamError>)
      ensures r.None? <==> maxValue > 0.0 && blockSize > 1 && blockSize % 2 == 1
      ensures maxValue <= 0.0 ==> r == Some(TooSmall("max_value"))
      ensures maxValue > 0.0 && blockSize <= 1 ==> r == Some(TooSmall("block_size"))
      ensures maxValue > 0.0 && blockSize > 1 && blockSize % 2 == 0 ==> r == Some(NotOdd("block_size"))
    {
      if maxValue <= 0.0 then Some(TooSmall("max_value"))
      else CheckOddKernel("block_size", blockSize, 2)
    }

    /** An empty source leaves dst as it was; otherwise dst is the Gaussian adaptive binary threshold. */
    function Process(src: Frame, dst: Frame, adaptive: (Frame, real, int, real) -> Frame): (out: Frame)
      ensures src.Empty() ==> out == dst
      ensures !src.Empty() ==> out == adaptive(src, maxValue, blockSize, c)
    {
      if src.Empty() then dst else adaptive(src, maxValue, blockSize, c)
    }
  }

  const DefaultAdaptive: Adaptive := Adaptive(255.0, 11, 2.0)

  datatype Resize = Resize(width: int, height: int) {

    /** width <= 0 is reported before height <= 0. */
    function Validate(): (r: Option<ParamError>)
      ensures r.None? <==> width > 0 && height > 0
      ensures width <= 0 ==> r == Some(TooSmall("width"))
      ensures width > 0 && height <= 0 ==> r == Some(TooSmall("height"))
    {
      if width <= 0 then Some(TooSmall("width"))
      else if height <= 0 then Some(TooSmall("height"))
      else None
    }

    /** No empty-source shortcut: the resize runs on every input, to width × height. */
    function Process(src: Frame, resize: (Frame, int, int) -> Frame): (out: Frame)
      ensures out == resize(src, width, height)
    {
      resize(src, width, height)
    }
  }

  const DefaultResize: Resize := Resize(224, 224)

  /** A negative C is accepted; the registered defaults pass. */
  lemma CoreDefaultsValid(c: real)
    ensures DefaultAdaptive.Validate().None? && DefaultAdaptive.(c := c).Validate().None?
    ensures DefaultResize.Validate().None?
    ensures FlipCode(Flip.DefaultMode) == Some(1)
    ensures ColorConvert.DefaultCode in ColorCodes && ColorCodes[ColorConvert.DefaultCode] == 6
    ensures Otsu.DefaultMaxValue > 0.0 && OtsuFlags(Otsu.DefaultInvert) == 8
  {
  }
}
