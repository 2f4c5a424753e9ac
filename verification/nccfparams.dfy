/** The framing values of one NCCF pass (pyrapt/nccfparams.py), named after
    the symbols of the NCCF equation. */
module NccfParameters {

  datatype Nccfparams = Nccfparams(
    /** n: samples correlated at each lag. */
    samplesCorrelatedPerLag: int,
    /** k: the first lag tried (first pass only; 0 otherwise). */
    shortestLagPerFrame: int,
    /** K: the lag ceiling. */
    longestLagPerFrame: int,
    /** z: samples between the starts of consecutive frames. */
    samplesPerFrame: int,
    /** M - 1: one less than the number of whole frames in the signal. */
    maxFrameCount: int)
  {
    /** (K - 1) - k: the number of lags the first pass scans per frame. */
    function LagRange(): int
    {
      (longestLagPerFrame - 1) - shortestLagPerFrame
    }
  }
}
