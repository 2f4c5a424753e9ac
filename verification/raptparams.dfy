/** The tunable constants of the pitch tracker (pyrapt/raptparams.py): a
    mutable record whose constructor sets seven defaults and whose first four
    fields the keyword-argument setup may later overwrite. */
module RaptParameters {

  const DefaultMaximumAllowedFreq: real := 500.0
  const DefaultMinimumAllowedFreq: real := 50.0
  const DefaultFrameStepSize: real := 0.01
  const DefaultCorrelationWindowSize: real := 0.0075
  const DefaultMaxHypothesesPerFrame: int := 20
  const DefaultMinAcceptablePeakVal: real := 0.3
  const DefaultAdditiveConstant: int := 10000

  class Raptparams {
    /** F0_max, the highest pitch searched for, in Hz. */
    var maximumAllowedFreq: real
    /** F0_min, the lowest pitch searched for, in Hz. */
    var minimumAllowedFreq: real
    /** t, the distance between frame starts, in seconds. */
    var frameStepSize: real
    /** w, the length of the correlation window, in seconds. */
    var correlationWindowSize: real
    /** N_CANDS, the bound on hypotheses kept per frame. */
    var maxHypothesesPerFrame: int
    /** CAND_TR, the fraction of a frame's peak a candidate must reach. */
    var minAcceptablePeakVal: real
    /** A_FACT, the constant added to the second-pass denominator. */
    var additiveConstant: int

    /** Every field holds the value the constructor gives it. */
    ghost predicate HasDefaults()
      reads this
    {
      && maximumAllowedFreq == DefaultMaximumAllowedFreq
      && minimumAllowedFreq == DefaultMinimumAllowedFreq
      && frameStepSize == DefaultFrameStepSize
      && correlationWindowSize == DefaultCorrelationWindowSize
      && maxHypothesesPerFrame == DefaultMaxHypothesesPerFrame
      && minAcceptablePeakVal == DefaultMinAcceptablePeakVal
      && additiveConstant == DefaultAdditiveConstant
    }

    constructor ()
      ensures HasDefaults()
      ensures maximumAllowedFreq == 500.0 && minimumAllowedFreq == 50.0
      ensures frameStepSize == 0.01 && correlationWindowSize == 0.0075
      ensures maxHypothesesPerFrame == 20 && minAcceptablePeakVal == 0.3
      ensures additiveConstant == 10000
      // the defaults describe a non-empty search band and a window that fits in a frame step
      ensures 0.0 < minimumAllowedFreq < maximumAllowedFreq
      ensures 0.0 < correlationWindowSize < frameStepSize
    {
      maximumAllowedFreq := DefaultMaximumAllowedFreq;
      minimumAllowedFreq := DefaultMinimumAllowedFreq;
      frameStepSize := DefaultFrameStepSize;
      correlationWindowSize := DefaultCorrelationWindowSize;
      maxHypothesesPerFrame := DefaultMaxHypothesesPerFrame;
      minAcceptablePeakVal := DefaultMinAcceptablePeakVal;
      additiveConstant := DefaultAdditiveConstant;
    }
  }
}
