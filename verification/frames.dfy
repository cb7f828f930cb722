/**
 * Segmentation of an audio buffer into overlapping analysis windows
 * (src/inference.cpp, the frame count and the `segment` of the frame loop).
 */
module Frames {

  import opened Crepe

  /** C++ integer division on `int`: the quotient is truncated toward zero. */
  function TruncDiv(a: int, b: int): (q: int)
    requires 0 < b
    ensures 0 <= a ==> 0 <= a - q * b < b
    ensures a < 0 ==> -b < a - q * b <= 0
  {
    if 0 <= a then a / b else -((-a) / b)
  }

  /**
   * The frame count exactly as the source computes it, with C++ truncation.
   * From one window on it is the number of windows that fit; below one
   * window the truncation toward zero gives 1, 0 or a negative count.
   */
  function NumFramesAsWritten(length: int): (n: int)
    ensures FrameLength <= length ==>
              1 <= n && (n - 1) * FftHop + FrameLength <= length < n * FftHop + FrameLength
    ensures FrameLength - FftHop < length < FrameLength ==> n == 1
    ensures FrameLength - 2 * FftHop < length <= FrameLength - FftHop ==> n == 0
    ensures length <= FrameLength - 2 * FftHop ==> n < 0
  {
    TruncDiv(length - FrameLength, FftHop) + 1
  }

  /**
   * The number of windows of `FrameLength` samples, `FftHop` apart, that fit
   * in a buffer of `length` samples: every counted window fits and the next
   * one would not.  A buffer shorter than one window yields no frame.
   */
  function NumFrames(length: int): (n: nat)
    ensures forall i :: 0 <= i < n ==> i * FftHop + FrameLength <= length
    ensures length < n * FftHop + FrameLength
  {
    if length < FrameLength then 0 else (length - FrameLength) / FftHop + 1
  }

  /** On buffers of at least one window the count agrees with the source's formula. */
  lemma NumFramesMatchesSource(length: int)
    requires FrameLength <= length
    ensures NumFrames(length) == NumFramesAsWritten(length)
  {
  }

  /**
   * Between 865 and 1023 samples the source's truncating division counts one
   * frame, yet the first window already reaches past the end of the buffer.
   */
  lemma ShortBufferOverrunsAsWritten(length: int)
    requires FrameLength - FftHop < length < FrameLength
    ensures NumFramesAsWritten(length) == 1
    ensures length < 0 * FftHop + FrameLength
    ensures NumFrames(length) == 0
  {
  }

  /** The concrete case: 1000 samples are counted as one 1024-sample frame. */
  lemma ThousandSamplesAsWritten()
    ensures NumFramesAsWritten(1000) == 1
    ensures NumFrames(1000) == 0
  {
    ShortBufferOverrunsAsWritten(1000);
  }

  /**
   * At 704 samples or fewer the source's count is negative, which the frame
   * loop cannot use as a size: an empty buffer gives -5, 704 samples give -1.
   * The corrected count is 0 for all of them.
   */
  lemma NegativeCountAsWritten(length: int)
    requires length <= FrameLength - 2 * FftHop
    ensures NumFramesAsWritten(length) < 0
    ensures NumFrames(length) == 0
  {
  }

  /** The concrete cases: the empty buffer and the 704-sample buffer. */
  lemma EmptyAndShortCountsAsWritten()
    ensures NumFramesAsWritten(0) == -5
    ensures NumFramesAsWritten(704) == -1
    ensures NumFramesAsWritten(705) == 0 && NumFramesAsWritten(864) == 0
  {
  }

  /** Window i of the buffer: samples [i * FftHop, i * FftHop + FrameLength). */
  function Window(audio: seq<real>, i: nat): (w: seq<real>)
    requires i < NumFrames(|audio|)
    ensures |w| == FrameLength
    ensures forall k :: 0 <= k < FrameLength ==> w[k] == audio[i * FftHop + k]
  {
    audio[i * FftHop .. i * FftHop + FrameLength]
  }

  /**
   * Consecutive windows overlap by all but one hop: window i + 1 starts with
   * the last `FrameLength - FftHop` samples of window i.
   */
  lemma ConsecutiveWindowsOverlap(audio: seq<real>, i: nat)
    requires i + 1 < NumFrames(|audio|)
    ensures Window(audio, i + 1)[..FrameLength - FftHop] == Window(audio, i)[FftHop..]
  {
    var next := Window(audio, i + 1);
    var here := Window(audio, i);
    forall k | 0 <= k < FrameLength - FftHop
      ensures next[k] == here[FftHop + k]
    {
      assert next[k] == audio[(i + 1) * FftHop + k];
      assert here[FftHop + k] == audio[i * FftHop + (FftHop + k)];
    }
  }
}
