/**
 * What the step implementations under processor/ share: the reasons a
 * Validate rejects its parameters (the message text is not modelled, only
 * which check failed and on which parameter), and the pass count of the
 * iterated morphological operations.
 */
module Steps {
  import opened Wrappers
  import opened Frames

  datatype ParamError =
    | TooSmall(param: string)
    | NotOdd(param: string)
    | Unsupported(param: string, value: string)
    | LowAboveHigh
    | KernelNotCreated
    | NotInitialized

  /** The usual kernel-size rule: the first failing check of `k < min`, then `k` even. */
  function CheckOddKernel(param: string, k: int, min: int): (r: Option<ParamError>)
    requires min >= 1
    ensures r.None? <==> k >= min && k % 2 == 1
    ensures k < min ==> r == Some(TooSmall(param))
    ensures k >= min && k % 2 == 0 ==> r == Some(NotOdd(param))
  {
    if k < min then Some(TooSmall(param))
    else if k % 2 == 0 then Some(NotOdd(param))
    else None
  }

  /** How many times an iterated operation runs: one first pass, plus one per further iteration. */
  function Passes(iterations: int): (p: nat)
    ensures p >= 1
    ensures iterations >= 1 ==> p == iterations
    ensures iterations < 1 ==> p == 1
  {
    if iterations > 1 then iterations else 1
  }

  /**
   * The first pass into dst, then `iterations - 1` passes from dst through a
   * fresh temporary and back (Dilate and Erode).
   */
  method ApplyPasses(src: Frame, dst: MatRef, op: Frame -> Frame, iterations: int)
    modifies dst
    ensures dst.mat == Iterate(op, Passes(iterations), src)
  {
    dst.mat := op(src);
    if iterations > 1 {
      var temp := EmptyMat;
      var i := 1;
      while i < iterations
        invariant 1 <= i <= iterations
        invariant dst.mat == Iterate(op, i, src)
      {
        temp := op(dst.mat);
        dst.mat := temp;
        i := i + 1;
      }
    }
  }
}
