/**
 * The WebAssembly entry points (src-wasm/crepe.cpp): `analyse_audio`
 * flattens a result set into one float array `[n, p0, c0, t0, p1, ...]`,
 * and `analysePitch` returns the frames as a list of records.  Both always
 * analyse at the model's sample rate.
 */
module WasmBridge {

  import opened RealMath
  import opened Crepe
  import opened Frames
  import opened Inference

  /** One analysed frame as the browser sees it. */
  datatype FrameResult = FrameResult(pitch: real, confidence: real, time: real)

  /** The frames of a result set as records, in frame order. */
  function FrameResults(r: PredictionResults): (f: seq<FrameResult>)
    requires r.WellFormed()
    ensures |f| == r.numFrames
    ensures forall i :: 0 <= i < |f| ==>
              f[i] == FrameResult(r.pitches[i], r.confidences[i], r.times[i])
  {
    seq(r.numFrames, i requires 0 <= i < r.numFrames =>
      FrameResult(r.pitches[i], r.confidences[i], r.times[i]))
  }

  /** Pitch, confidence and time of each frame, three slots per frame. */
  function Triples(frames: seq<FrameResult>): (t: seq<real>)
    ensures |t| == 3 * |frames|
    ensures forall i :: 0 <= i < |frames| ==>
              && t[3 * i] == frames[i].pitch
              && t[3 * i + 1] == frames[i].confidence
              && t[3 * i + 2] == frames[i].time
  {
    if |frames| == 0 then []
    else
      var rest := Triples(frames[1..]);
      assert forall i :: 1 <= i < |frames| ==> 3 * i == 3 * (i - 1) + 3;
      [frames[0].pitch, frames[0].confidence, frames[0].time] + rest
  }

  /**
   * The flat result array: element 0 holds the frame count and elements
   * 1 + 3i, 2 + 3i and 3 + 3i hold pitch, confidence and time of frame i.
   */
  function Serialize(r: PredictionResults): (flat: seq<real>)
    requires r.WellFormed()
    ensures |flat| == 1 + 3 * r.numFrames
    ensures flat[0] == r.numFrames as real
    ensures forall i :: 0 <= i < r.numFrames ==>
              && flat[1 + 3 * i] == r.pitches[i]
              && flat[2 + 3 * i] == r.confidences[i]
              && flat[3 + 3 * i] == r.times[i]
  {
    [r.numFrames as real] + Triples(FrameResults(r))
  }

  /** `analyse_audio`: analyse the buffer at 16 kHz and flatten the results. */
  function AnalyseAudio(audio: seq<real>, model: PitchModel, m: Math): (flat: seq<real>)
    ensures |flat| == 1 + 3 * NumFrames(|audio|)
    ensures flat[0] == NumFrames(|audio|) as real
    ensures forall i :: 0 <= i < NumFrames(|audio|) ==> flat[3 + 3 * i] == (i as real) / 100.0
  {
    var r := RunInference(audio, SampleRate, model, m);
    var flat := Serialize(r);
    forall i | 0 <= i < r.numFrames
      ensures flat[3 + 3 * i] == (i as real) / 100.0
    {
      TimesAtModelRate(audio, model, m, i);
      assert flat[3 + 3 * i] == r.times[i];
    }
    flat
  }

  /**
   * `analysePitch`: copy the input array element by element, analyse it at
   * 16 kHz and build one record per frame, in frame order.
   */
  method AnalysePitch(audioArray: seq<real>, model: PitchModel, m: Math) returns (result: seq<FrameResult>)
    ensures result == FrameResults(RunInference(audioArray, SampleRate, model, m))
  {
    var audioData: seq<real> := [];
    var i := 0;
    while i < |audioArray|
      invariant 0 <= i <= |audioArray|
      invariant audioData == audioArray[..i]
    {
      audioData := audioData + [audioArray[i]];
      i := i + 1;
    }
    assert audioData == audioArray;
    var r := RunInference(audioData, SampleRate, model, m);
    result := [];
    var j := 0;
    while j < r.numFrames
      invariant 0 <= j <= r.numFrames
      invariant result == FrameResults(r)[..j]
    {
      result := result + [FrameResult(r.pitches[j], r.confidences[j], r.times[j])];
      j := j + 1;
    }
  }
}
