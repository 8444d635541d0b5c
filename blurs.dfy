/**
 * The smoothing steps of processor/blurs. They keep no state besides their
 * parameters, so each is a value with a validation and a process function;
 * the OpenCV filters are function parameters.
 */
module Blurs {
  import opened Wrappers
  import opened Frames
  import opened Steps

  datatype Bilateral = Bilateral(diameter: int, sigmaColor: real, sigmaSpace: real) {

    /** A negative diameter, then sigma_color <= 0, then sigma_space <= 0; diameter 0 is allowed. */
    function Validate(): (r: Option<ParamError>)
      ensures r.None? <==> diameter >= 0 && sigmaColor > 0.0 && sigmaSpace > 0.0
      ensures diameter < 0 ==> r == Some(TooSmall("diameter"))
      ensures diameter >= 0 && sigmaColor <= 0.0 ==> r == Some(TooSmall("sigma_color"))
      ensures diameter >= 0 && sigmaColor > 0.0 && sigmaSpace <= 0.0 ==> r == Some(TooSmall("sigma_space"))
    {
      if diameter < 0 then Some(TooSmall("diameter"))
      else if sigmaColor <= 0.0 then Some(TooSmall("sigma_color"))
      else if sigmaSpace <= 0.0 then Some(TooSmall("sigma_space"))
      else None
    }

    /** An empty source leaves dst as it was; otherwise dst is the bilateral filter's output. */
    function Process(src: Frame, dst: Frame, filter: (Frame, int, real, real) -> Frame): (out: Frame)
      ensures src.Empty() ==> out == dst
      ensures !src.Empty() ==> out == filter(src, diameter, sigmaColor, sigmaSpace)
    {
      if src.Empty() then dst else filter(src, diameter, sigmaColor, sigmaSpace)
    }
  }

  datatype GaussianBlur = GaussianBlur(kernel: int, sigma: real) {

    /** kernel < 1, then an even kernel (never rounded up), then sigma < 0; sigma 0 is allowed. */
    function Validate(): (r: Option<ParamError>)
      ensures r.None? <==> kernel >= 1 && kernel % 2 == 1 && sigma >= 0.0
      ensures kernel < 1 ==> r == Some(TooSmall("kernel"))
      ensures kernel >= 1 && kernel % 2 == 0 ==> r == Some(NotOdd("kernel"))
      ensures kernel >= 1 && kernel % 2 == 1 && sigma < 0.0 ==> r == Some(TooSmall("sigma"))
    {
      match CheckOddKernel("kernel", kernel, 1)
      case Some(e) => Some(e)
      case None => if sigma < 0.0 then Some(TooSmall("sigma")) else None
    }

    /** An empty source leaves dst as it was; otherwise a kernel × kernel blur with sigma on both axes. */
    function Process(src: Frame, dst: Frame, blur: (Frame, int, int, real, real) -> Frame): (out: Frame)
      ensures src.Empty() ==> out == dst
      ensures !src.Empty() ==> out == blur(src, kernel, kernel, sigma, sigma)
    {
      if src.Empty() then dst else blur(src, kernel, kernel, sigma, sigma)
    }
  }

  datatype MedianBlur = MedianBlur(k: int) {

    /** Exactly the positive odd sizes pass; k < 1 is reported before evenness. */
    function Validate(): (r: Option<ParamError>)
      ensures r.None? <==> k >= 1 && k % 2 == 1
      ensures k < 1 ==> r == Some(TooSmall("k"))
      ensures k >= 1 && k % 2 == 0 ==> r == Some(NotOdd("k"))
    {
      CheckOddKernel("k", k, 1)
    }

    function Process(src: Frame, dst: Frame, median: (Frame, int) -> Frame): (out: Frame)
      ensures src.Empty() ==> out == dst
      ensures !src.Empty() ==> out == median(src, k)
    {
      if src.Empty() then dst else median(src, k)
    }
  }

  const DefaultBilateral: Bilateral := Bilateral(9, 75.0, 75.0)
  const DefaultGaussianBlur: GaussianBlur := GaussianBlur(9, 1.8)
  const DefaultMedianBlur: MedianBlur := MedianBlur(5)

  /** The registered defaults pass their own validation. */
  lemma BlurDefaultsValid()
    ensures DefaultBilateral.Validate().None?
    ensures DefaultGaussianBlur.Validate().None?
    ensures DefaultMedianBlur.Validate().None?
  {
  }

  /** An even kernel is refused rather than rounded up, unlike the legacy Sobel step's normalisation. */
  lemma EvenKernelRefused(k: int, sigma: real)
    requires k >= 2 && k % 2 == 0
    ensures GaussianBlur(k, sigma).Validate() == Some(NotOdd("kernel"))
    ensures MedianBlur(k).Validate() == Some(NotOdd("k"))
    ensures GaussianBlur(k + 1, 0.0).Validate().None? && MedianBlur(k + 1).Validate().None?
  {
  }
}
