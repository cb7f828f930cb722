/**
 * The scheme constants shared with the trained pitch model and the two
 * result records of the batch pipeline (src/crepe.hpp).
 */
module Crepe {

  import opened Wrappers
  import opened RealMath

  /** Sample rate the model was trained on, in Hz. */
  const SampleRate: int := 16000
  /** Hop between the starts of consecutive analysis windows, in samples. */
  const FftHop: int := 160
  /** Length of one analysis window, in samples. */
  const FrameLength: int := 1024
  /** Frequency of 0 cents, in Hz. */
  const BaseFrequency: real := 10.0
  /** Pitch of the model's first bin, in cents. */
  const ModelBaseCents: real := 1997.3794084376191
  /** Pitch span from the first bin to the last, in cents. */
  const ModelRangeCents: real := 7180.0
  /** Number of activation bins the model produces. */
  const ModelBins: real := 360.0
  /** Cents per octave. */
  const CentsConversion: real := 1200.0

  /** The batch pipeline's output: one pitch, confidence and time per frame. */
  datatype PredictionResults = PredictionResults(
    pitches: seq<real>,
    confidences: seq<real>,
    times: seq<real>,
    numFrames: int)
  {
    /** Every vector holds exactly one entry per frame. */
    predicate WellFormed() {
      && 0 <= numFrames
      && |pitches| == numFrames
      && |confidences| == numFrames
      && |times| == numFrames
    }
  }

  /**
   * Summary statistics over a result set.  `sourceData` stands for the
   * reference back to the results the statistics were computed from.
   */
  datatype PredictionAnalytics = PredictionAnalytics(
    minFrequency: real,
    maxFrequency: real,
    meanConfidence: real,
    timePitchCorrelation: FloatValue,
    sourceData: Option<PredictionResults>)

  /** A default-constructed record: every statistic 0 and no source. */
  const DefaultAnalytics: PredictionAnalytics :=
    PredictionAnalytics(0.0, 0.0, 0.0, Finite(0.0), None)

  /** At the model's sample rate one hop is ten milliseconds. */
  lemma HopIsTenMilliseconds()
    ensures (FftHop as real) / (SampleRate as real) == 0.01
  {
  }
}
