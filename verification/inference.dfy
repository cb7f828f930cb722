/**
 * The batch pipeline (src/inference.cpp, `runInference`): cut the buffer
 * into windows, normalise each, run the model on it, decode the activation
 * and stamp the frame with its start time.  The frames are independent, so
 * the parallel loop of the source is modelled as one comprehension.
 */
module Inference {

  import opened RealMath
  import opened Crepe
  import opened Frames
  import opened Decoder
  import opened Normalizer

  /** The trained network: one normalised window in, one activation vector out. */
  type PitchModel = seq<real> -> Activation

  /** What the pipeline stores for one window. */
  datatype FramePrediction = FramePrediction(pitch: real, confidence: real)

  /**
   * Normalise a window, run the model on it and decode the activation.  The
   * pitch and the confidence are read out separately, yet both come from one
   * bin: the first of the greatest activations.
   */
  function PredictFrame(window: seq<real>, model: PitchModel, m: Math): (p: FramePrediction)
    requires |window| > 0
    ensures var a := model(NormalizeAudio(window, m));
            exists k :: 0 <= k < |a| && p.pitch == BinPitch(k, m) && p.confidence == a[k]
                        && (forall j :: 0 <= j < |a| ==> a[j] <= a[k])
                        && (forall j :: 0 <= j < k ==> a[j] < a[k])
  {
    var a := model(NormalizeAudio(window, m));
    FramePrediction(GetPitchFromCrepe(a, m), Confidence(a))
  }

  /** Start time of frame i in seconds. */
  function FrameTime(i: nat, sampleRate: int): (t: real)
    requires sampleRate != 0
    ensures t * (sampleRate as real) == (i * FftHop) as real
  {
    ((i * FftHop) as real) / (sampleRate as real)
  }

  /**
   * The result set of a buffer.  The rate is only used for the time stamps;
   * a rate other than `SampleRate` merely prints a warning in the source.
   */
  function RunInference(audio: seq<real>, sampleRate: int, model: PitchModel, m: Math): (r: PredictionResults)
    requires sampleRate != 0
    ensures r.WellFormed()
    ensures r.numFrames == NumFrames(|audio|)
    ensures forall i :: 0 <= i < r.numFrames ==> r.times[i] * (sampleRate as real) == (i * FftHop) as real
  {
    var n := NumFrames(|audio|);
    PredictionResults(
      seq(n, i requires 0 <= i < n => PredictFrame(Window(audio, i), model, m).pitch),
      seq(n, i requires 0 <= i < n => PredictFrame(Window(audio, i), model, m).confidence),
      seq(n, i requires 0 <= i < n => FrameTime(i, sampleRate)),
      n)
  }

  /** At a positive rate later frames start later. */
  lemma TimesStrictlyIncreasing(audio: seq<real>, sampleRate: int, model: PitchModel, m: Math, i: int, j: int)
    requires 0 < sampleRate
    requires 0 <= i < j < RunInference(audio, sampleRate, model, m).numFrames
    ensures RunInference(audio, sampleRate, model, m).times[i] < RunInference(audio, sampleRate, model, m).times[j]
  {
    var r := RunInference(audio, sampleRate, model, m);
    var sr := sampleRate as real;
    assert r.times[j] - r.times[i] == (((j - i) * FftHop) as real) / sr;
  }

  /** At the model's rate frame i starts at i hundredths of a second. */
  lemma TimesAtModelRate(audio: seq<real>, model: PitchModel, m: Math, i: int)
    requires 0 <= i < RunInference(audio, SampleRate, model, m).numFrames
    ensures RunInference(audio, SampleRate, model, m).times[i] == (i as real) / 100.0
  {
  }

  /** Slot i is a function of window i alone: buffers that agree on it agree there. */
  lemma SlotDependsOnlyOnItsWindow(a: seq<real>, b: seq<real>, sampleRate: int, model: PitchModel, m: Math, i: nat)
    requires sampleRate != 0
    requires i < NumFrames(|a|) && i < NumFrames(|b|)
    requires Window(a, i) == Window(b, i)
    ensures RunInference(a, sampleRate, model, m).pitches[i] == RunInference(b, sampleRate, model, m).pitches[i]
    ensures RunInference(a, sampleRate, model, m).confidences[i] == RunInference(b, sampleRate, model, m).confidences[i]
    ensures RunInference(a, sampleRate, model, m).times[i] == RunInference(b, sampleRate, model, m).times[i]
  {
  }

  /** Appending samples never changes the frames already complete. */
  lemma AppendingKeepsEarlierFrames(a: seq<real>, more: seq<real>, sampleRate: int, model: PitchModel, m: Math, i: nat)
    requires sampleRate != 0
    requires i < NumFrames(|a|)
    ensures i < NumFrames(|a + more|)
    ensures RunInference(a + more, sampleRate, model, m).pitches[i] == RunInference(a, sampleRate, model, m).pitches[i]
    ensures RunInference(a + more, sampleRate, model, m).confidences[i] == RunInference(a, sampleRate, model, m).confidences[i]
  {
    assert Window(a + more, i) == Window(a, i);
    SlotDependsOnlyOnItsWindow(a + more, a, sampleRate, model, m, i);
  }

  /** The sample rate changes the time stamps and nothing else. */
  lemma RateOnlyAffectsTimes(audio: seq<real>, r1: int, r2: int, model: PitchModel, m: Math)
    requires r1 != 0 && r2 != 0
    ensures RunInference(audio, r1, model, m).pitches == RunInference(audio, r2, model, m).pitches
    ensures RunInference(audio, r1, model, m).confidences == RunInference(audio, r2, model, m).confidences
    ensures RunInference(audio, r1, model, m).numFrames == RunInference(audio, r2, model, m).numFrames
  {
  }

  /** The stored confidence is the greatest activation of the frame, and its pitch is that bin's. */
  lemma SlotDecodesWindow(audio: seq<real>, sampleRate: int, model: PitchModel, m: Math, i: nat)
    requires sampleRate != 0
    requires i < NumFrames(|audio|)
    ensures var a := model(NormalizeAudio(Window(audio, i), m));
            var r := RunInference(audio, sampleRate, model, m);
            && r.confidences[i] == a[ArgMax(a)]
            && (forall j :: 0 <= j < |a| ==> a[j] <= r.confidences[i])
            && r.pitches[i] == BinPitch(ArgMax(a), m)
  {
  }

  /** A model whose activations lie in [0, 1] yields confidences in [0, 1]. */
  lemma ConfidencesInUnitRange(audio: seq<real>, sampleRate: int, model: PitchModel, m: Math)
    requires sampleRate != 0
    requires forall w: seq<real>, j: int :: 0 <= j < |model(w)| ==> 0.0 <= model(w)[j] <= 1.0
    ensures forall i :: 0 <= i < NumFrames(|audio|) ==>
              0.0 <= RunInference(audio, sampleRate, model, m).confidences[i] <= 1.0
  {
  }

  /** A buffer shorter than one window yields an empty result set; exactly one window yields one frame. */
  lemma ShortBuffers(audio: seq<real>, sampleRate: int, model: PitchModel, m: Math)
    requires sampleRate != 0
    ensures |audio| < FrameLength ==> RunInference(audio, sampleRate, model, m).numFrames == 0
    ensures |audio| == FrameLength ==> RunInference(audio, sampleRate, model, m).numFrames == 1
  {
  }
}
