/**
 * The edge and foreground steps of processor/edges: Canny, Sobel, Laplacian
 * and Scharr (values with a validation and a process function) and the
 * background subtractor, whose Validate creates a backend and whose Close
 * releases it.
 */
module Edges {
  import opened Wrappers
  import opened Frames
  import opened Steps

  datatype Canny = Canny(low: real, high: real) {

    /** low < 0, then high < 0, then low > high; equal thresholds are accepted. */
    function Validate(): (r: Option<ParamError>)
      ensures r.None? <==> 0.0 <= low <= high
      ensures low < 0.0 ==> r == Some(TooSmall("low"))
      ensures low >= 0.0 && high < 0.0 ==> r == Some(TooSmall("high"))
      ensures low >= 0.0 && high >= 0.0 && low > high ==> r == Some(LowAboveHigh)
    {
      if low < 0.0 then Some(TooSmall("low"))
      else if high < 0.0 then Some(TooSmall("high"))
      else if low > high then Some(LowAboveHigh)
      else None
    }

    function Process(src: Frame, dst: Frame, canny: (Frame, real, real) -> Frame): (out: Frame)
      ensures src.Empty() ==> out == dst
      ensures !src.Empty() ==> out == canny(src, low, high)
    {
      if src.Empty() then dst else canny(src, low, high)
    }
  }

  datatype Sobel = Sobel(k: int) {

    /** Exactly the positive odd sizes pass; k <= 0 is reported before evenness. */
    function Validate(): (r: Option<ParamError>)
      ensures r.None? <==> k > 0 && k % 2 == 1
      ensures k <= 0 ==> r == Some(TooSmall("sobel_size"))
      ensures k > 0 && k % 2 == 0 ==> r == Some(NotOdd("sobel_size"))
    {
      CheckOddKernel("sobel_size", k, 1)
    }

    /** An empty source leaves dst as it was; otherwise the first-order x/y derivative, then its absolute value scaled to 8 bits. */
    function Process(src: Frame, dst: Frame, sobel: (Frame, int) -> Frame, scaleAbs: Frame -> Frame): (out: Frame)
      ensures src.Empty() ==> out == dst
      ensures !src.Empty() ==> out == scaleAbs(sobel(src, k))
    {
      if src.Empty() then dst else scaleAbs(sobel(src, k))
    }
  }

  datatype Laplacian = Laplacian(k: int) {

    /** Exactly the positive odd aperture sizes pass; k <= 0 is reported before evenness. */
    function Validate(): (r: Option<ParamError>)
      ensures r.None? <==> k > 0 && k % 2 == 1
      ensures k <= 0 ==> r == Some(TooSmall("k"))
      ensures k > 0 && k % 2 == 0 ==> r == Some(NotOdd("k"))
    {
      CheckOddKernel("k", k, 1)
    }

    function Process(src: Frame, dst: Frame, laplacian: (Frame, int) -> Frame): (out: Frame)
      ensures src.Empty() ==> out == dst
      ensures !src.Empty() ==> out == laplacian(src, k)
    {
      if src.Empty() then dst else laplacian(src, k)
    }
  }

  /** Scharr has no parameters: Validate always passes. */
  function ScharrProcess(src: Frame, dst: Frame, scharr: Frame -> Frame): (out: Frame)
    ensures src.Empty() ==> out == dst
    ensures !src.Empty() ==> out == scharr(src)
  {
    if src.Empty() then dst else scharr(src)
  }

  const DefaultCanny: Canny := Canny(50.0, 150.0)
  const DefaultSobel: Sobel := Sobel(3)
  const DefaultLaplacian: Laplacian := Laplacian(3)

  /** The registered defaults pass, and a single threshold for both ends is accepted. */
  lemma EdgeDefaultsValid(t: real)
    requires t >= 0.0
    ensures DefaultCanny.Validate().None? && Canny(t, t).Validate().None?
    ensures DefaultSobel.Validate().None? && DefaultLaplacian.Validate().None?
  {
  }

  // ---------------------------------------------------------------------
  // BackgroundSubtractor

  /** A background model's identity and the frames it has learnt from, oldest first. */
  datatype Backend = Backend(frames: seq<Frame>)

  class BackgroundSubtractor {
    static const DefaultAlgorithm: string := "MOG2"
    static const DefaultLearningRate: real := 0.01

    var algorithm: string
    var learningRate: real
    var mog2: Option<Backend>
    var knn: Option<Backend>

    constructor (algorithm: string, learningRate: real)
      ensures this.algorithm == algorithm && this.learningRate == learningRate
      ensures mog2 == None && knn == None
    {
      this.algorithm, this.learningRate := algorithm, learningRate;
      mog2, knn := None, None;
    }

    /**
     * An existing backend is kept and reported as success. Otherwise "MOG2"
     * creates only the MOG2 backend and "KNN" only the KNN one; any other
     * name is an error and creates neither.
     */
    method Validate() returns (r: Outcome<ParamError>)
      modifies this
      ensures old(mog2).Some? || old(knn).Some? ==> r == Pass && mog2 == old(mog2) && knn == old(knn)
      ensures old(mog2).None? && old(knn).None? ==>
                (r.Pass? <==> algorithm in {"MOG2", "KNN"}) &&
                (algorithm == "MOG2" ==> mog2 == Some(Backend([])) && knn == None) &&
                (algorithm == "KNN" ==> knn == Some(Backend([])) && mog2 == None) &&
                (r.Fail? ==> r.error == Unsupported("algorithm", algorithm) && mog2 == None && knn == None)
      ensures algorithm == old(algorithm) && learningRate == old(learningRate)
    {
      if mog2.Some? || knn.Some? {
        return Pass;
      }
      if algorithm == "MOG2" {
        mog2 := Some(Backend([]));
      } else if algorithm == "KNN" {
        knn := Some(Backend([]));
      } else {
        return Fail(Unsupported("algorithm", algorithm));
      }
      return Pass;
    }

    /**
     * An empty source succeeds and changes nothing; without a backend it is
     * an error. MOG2 takes precedence (applied with the learning rate);
     * otherwise KNN. The backend used learns the frame.
     */
    method Process(src: Frame, dst: MatRef, mog2Apply: (Backend, Frame, real) -> Frame, knnApply: (Backend, Frame) -> Frame)
      returns (r: Outcome<ParamError>)
      modifies this, dst
      ensures src.Empty() ==> r == Pass && dst.mat == old(dst.mat) && mog2 == old(mog2) && knn == old(knn)
      ensures !src.Empty() && old(mog2).None? && old(knn).None? ==>
                r == Fail(NotInitialized) && dst.mat == old(dst.mat) && mog2 == None && knn == None
      ensures !src.Empty() && old(mog2).Some? ==>
                r == Pass && dst.mat == mog2Apply(old(mog2).value, src, learningRate) &&
                mog2 == Some(Backend(old(mog2).value.frames + [src])) && knn == old(knn)
      ensures !src.Empty() && old(mog2).None? && old(knn).Some? ==>
                r == Pass && dst.mat == knnApply(old(knn).value, src) &&
                knn == Some(Backend(old(knn).value.frames + [src])) && mog2 == None
      ensures algorithm == old(algorithm) && learningRate == old(learningRate)
    {
      if src.Empty() {
        return Pass;
      }
      if mog2.None? && knn.None? {
        return Fail(NotInitialized);
      }
      if mog2.Some? {
        dst.mat := mog2Apply(mog2.value, src, learningRate);
        mog2 := Some(Backend(mog2.value.frames + [src]));
        return Pass;
      }
      dst.mat := knnApply(knn.value, src);
      knn := Some(Backend(knn.value.frames + [src]));
      return Pass;
    }

    /** Close releases whichever backends exist; both are then absent, so a second Close does nothing. */
    method Close()
      modifies this
      ensures mog2 == None && knn == None
      ensures algorithm == old(algorithm) && learningRate == old(learningRate)
    {
      if mog2.Some? {
        mog2 := None;
      }
      if knn.Some? {
        knn := None;
      }
    }
  }

  /** The default algorithm is one Validate accepts. */
  lemma SubtractorDefaultValid()
    ensures BackgroundSubtractor.DefaultAlgorithm in {"MOG2", "KNN"}
  {
  }
}
