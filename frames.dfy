/**
 * The abstract image buffer (gocv.Mat) that flows through the framework:
 * its geometry, OpenCV type code and pixel data. Pixel kernels are never
 * modelled; transforms are opaque functions over frames.
 */
module Frames {

  /** OpenCV type codes used in the model (CV_MAKETYPE(depth, channels)). */
  const CV_8UC1: nat := 0
  const CV_8UC3: nat := 16
  const CV_64F: nat := 6

  datatype Frame = Frame(rows: nat, cols: nat, typ: nat, data: seq<int>) {

    /** Mat.Empty(): a matrix with no elements. */
    predicate Empty() {
      rows == 0 || cols == 0
    }

    /** Mat.Channels(): the channel count encoded in the type code (CV_MAT_CN). */
    function Channels(): (c: nat)
      ensures 1 <= c <= 512
    {
      (typ / 8) % 512 + 1
    }

    predicate SameSize(other: Frame) {
      rows == other.rows && cols == other.cols
    }
  }

  /** gocv.NewMat(): a matrix with no rows and no columns. */
  const EmptyMat: Frame := Frame(0, 0, 0, [])

  /** gocv.NewMatWithSize: allocated with the given geometry; its contents are unspecified. */
  function NewMatWithSize(rows: nat, cols: nat, typ: nat): (m: Frame)
    ensures m.rows == rows && m.cols == cols && m.typ == typ
  {
    Frame(rows, cols, typ, [])
  }

  /** A `*gocv.Mat` output parameter: a cell whose frame a callee overwrites. */
  class MatRef {
    var mat: Frame

    constructor (m: Frame)
      ensures mat == m
    {
      mat := m;
    }
  }

  /** `f` applied `n` times to `x`. */
  function Iterate(f: Frame -> Frame, n: nat, x: Frame): Frame
    decreases n
  {
    if n == 0 then x else f(Iterate(f, n - 1, x))
  }

  /** Applying `f` a+b times is applying it b times and then a more. */
  lemma {:induction false} IterateAdd(f: Frame -> Frame, a: nat, b: nat, x: Frame)
    ensures Iterate(f, a + b, x) == Iterate(f, a, Iterate(f, b, x))
    decreases a
  {
    if a > 0 {
      IterateAdd(f, a - 1, b, x);
    }
  }
}
