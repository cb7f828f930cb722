/**
 * Loading a sound file for the batch tool (src/wavloader.cpp): decode it,
 * average interleaved channels down to mono, and the file's own variant of
 * per-window normalisation.  The decoder is represented by what it
 * delivers: the file's rate, channel count, length and interleaved samples.
 */
module WavLoader {

  import opened Wrappers
  import opened RealMath
  import opened Sums
  import opened Normalizer

  /** What an opened decoder reports and delivers. */
  datatype DecodedFile = DecodedFile(sampleRate: nat, channels: nat, lengthInFrames: nat, pcm: seq<real>)
  {
    /** A decoder always has at least one channel. */
    predicate Valid() {
      1 <= channels
    }

    /** Frames a read of the whole length actually returns. */
    function FramesRead(): (n: nat)
      requires Valid()
      ensures n <= lengthInFrames && n * channels <= |pcm|
    {
      var available := |pcm| / channels;
      assert available * channels <= |pcm|;
      if available < lengthInFrames then available else lengthInFrames
    }
  }

  /** The outcome of `load_wav_file`: the samples and what was written through the two out-parameters. */
  datatype Loaded = Loaded(audio: seq<real>, sampleRate: Option<int>, errorMessage: Option<string>)

  const InitFailed: string := "Failed to initialize decoder for file: "

  /** The interleaved samples of frame i: one per channel. */
  function ChannelFrame(pcm: seq<real>, channels: nat, i: nat): (f: seq<real>)
    requires (i + 1) * channels <= |pcm|
    ensures |f| == channels
    ensures forall c :: 0 <= c < channels ==> f[c] == pcm[i * channels + c]
  {
    pcm[i * channels .. (i + 1) * channels]
  }

  lemma FrameOffsets(i: nat, n: nat, channels: nat, len: nat)
    requires i < n && n * channels <= len
    ensures i * channels + channels == (i + 1) * channels
    ensures (i + 1) * channels <= len
  {
  }

  /** The average over the channels of frame i, for one of the n frames held in pcm. */
  function ChannelAverage(pcm: seq<real>, channels: nat, n: nat, i: nat): real
    requires 1 <= channels && i < n && n * channels <= |pcm|
  {
    FrameOffsets(i, n, channels, |pcm|);
    Mean(ChannelFrame(pcm, channels, i))
  }

  /** The inner loop of the downmix: add up the samples of one frame, channel by channel. */
  method SumChannels(frame: seq<real>) returns (sum: real)
    ensures sum == Sum(frame)
  {
    sum := 0.0;
    var c := 0;
    while c < |frame|
      invariant 0 <= c <= |frame|
      invariant sum == Sum(frame[..c])
    {
      SumSnoc(frame, c);
      sum := sum + frame[c];
      c := c + 1;
    }
    assert frame[..c] == frame;
  }

  /**
   * The downmix loop: for every frame read, the average of its channels;
   * frames the decoder did not deliver stay 0.
   */
  method Downmix(pcm: seq<real>, channels: nat, frameCount: nat, framesRead: nat) returns (audio: seq<real>)
    requires 1 <= channels
    requires framesRead <= frameCount && framesRead * channels <= |pcm|
    ensures |audio| == frameCount
    ensures forall i :: 0 <= i < framesRead ==> audio[i] == ChannelAverage(pcm, channels, framesRead, i)
    ensures forall i :: framesRead <= i < frameCount ==> audio[i] == 0.0
  {
    audio := seq(frameCount, _ => 0.0);
    var i := 0;
    while i < framesRead
      invariant 0 <= i <= framesRead
      invariant |audio| == frameCount
      invariant forall j :: 0 <= j < i ==> audio[j] == ChannelAverage(pcm, channels, framesRead, j)
      invariant forall j :: i <= j < frameCount ==> audio[j] == 0.0
    {
      FrameOffsets(i, framesRead, channels, |pcm|);
      var frame := ChannelFrame(pcm, channels, i);
      var sum := SumChannels(frame);
      assert sum / (channels as real) == ChannelAverage(pcm, channels, framesRead, i);
      audio := audio[i := sum / (channels as real)];
      i := i + 1;
    }
  }

  /** The mono read: the samples delivered, then zeros up to the reported length. */
  function MonoRead(pcm: seq<real>, frameCount: nat, framesRead: nat): (audio: seq<real>)
    requires framesRead <= frameCount && framesRead <= |pcm|
    ensures |audio| == frameCount
    ensures audio[..framesRead] == pcm[..framesRead]
    ensures forall i :: framesRead <= i < frameCount ==> audio[i] == 0.0
  {
    pcm[..framesRead] + seq(frameCount - framesRead, _ => 0.0)
  }

  /**
   * `load_wav_file`.  A decoder that cannot be opened yields no samples and,
   * when the caller asks for it, an error message naming the file;
   * otherwise the rate is reported when asked for and the samples are
   * downmixed when there is more than one channel.  Whatever the channel
   * count, each frame read becomes the average of its channels and the
   * frames not delivered are silent.
   */
  method LoadWavFile(decoder: Option<DecodedFile>, filename: string, wantRate: bool, wantError: bool)
    returns (r: Loaded)
    requires decoder.Some? ==> decoder.value.Valid()
    ensures decoder.None? ==>
              && r.audio == [] && r.sampleRate == None
              && r.errorMessage == (if wantError then Some(InitFailed + filename) else None)
    ensures decoder.Some? ==>
              && |r.audio| == decoder.value.lengthInFrames
              && r.errorMessage == None
              && r.sampleRate == (if wantRate then Some(decoder.value.sampleRate as int) else None)
    ensures decoder.Some? ==>
              var d := decoder.value;
              && (forall i :: 0 <= i < d.FramesRead() ==>
                    r.audio[i] == ChannelAverage(d.pcm, d.channels, d.FramesRead(), i))
              && (forall i :: d.FramesRead() <= i < d.lengthInFrames ==> r.audio[i] == 0.0)
    ensures decoder.Some? && decoder.value.channels == 1 ==>
              r.audio == MonoRead(decoder.value.pcm, decoder.value.lengthInFrames, decoder.value.FramesRead())
  {
    if decoder.None? {
      return Loaded([], None, if wantError then Some(InitFailed + filename) else None);
    }
    var d := decoder.value;
    var rate := if wantRate then Some(d.sampleRate as int) else None;
    var n := d.FramesRead();
    var audio;
    if d.channels > 1 {
      audio := Downmix(d.pcm, d.channels, d.lengthInFrames, n);
    } else {
      audio := MonoRead(d.pcm, d.lengthInFrames, n);
      MonoReadIsOneChannelDownmix(d.pcm, d.lengthInFrames, n);
    }
    return Loaded(audio, rate, None);
  }

  /**
   * The mono path agrees with the downmix: with one channel, each sample read
   * is the average of its one-sample frame.
   */
  lemma MonoReadIsOneChannelDownmix(pcm: seq<real>, frameCount: nat, framesRead: nat)
    requires framesRead <= frameCount && framesRead <= |pcm|
    ensures forall i :: 0 <= i < framesRead ==>
              MonoRead(pcm, frameCount, framesRead)[i] == ChannelAverage(pcm, 1, framesRead, i)
  {
    var audio := MonoRead(pcm, frameCount, framesRead);
    forall i | 0 <= i < framesRead
      ensures audio[i] == ChannelAverage(pcm, 1, framesRead, i)
    {
      var f := ChannelFrame(pcm, 1, i);
      assert f == [pcm[i]];
      assert audio[i] == audio[..framesRead][i] == pcm[i];
      assert Sum(f) == pcm[i] + Sum([]);
    }
  }

  /** A signal copied to every channel downmixes to itself. */
  lemma DuplicatedChannelsDownmixToSource(pcm: seq<real>, channels: nat, i: nat, v: real)
    requires 1 <= channels && (i + 1) * channels <= |pcm|
    requires forall c :: 0 <= c < channels ==> ChannelFrame(pcm, channels, i)[c] == v
    ensures Mean(ChannelFrame(pcm, channels, i)) == v
  {
    var f := ChannelFrame(pcm, channels, i);
    SumConstant(f, v);
  }

  /** The averaged sample lies between the quietest and the loudest channel. */
  lemma DownmixWithinChannels(pcm: seq<real>, channels: nat, i: nat)
    requires 1 <= channels && (i + 1) * channels <= |pcm|
    ensures var f := ChannelFrame(pcm, channels, i);
            MinCoeff(f) <= Mean(f) <= MaxCoeff(f)
  {
    MeanBetweenMinAndMax(ChannelFrame(pcm, channels, i));
  }

  /** This file's `normalize_audio`: divide by the standard deviation instead of multiplying by its inverse. */
  function NormalizeAudioDividing(frame: seq<real>, m: Math): (r: seq<real>)
    requires |frame| > 0
    ensures |r| == |frame|
  {
    var centered := Centered(frame);
    var sd := StdDev(frame, m);
    if sd > StdDevFloor then
      seq(|centered|, i requires 0 <= i < |centered| => centered[i] / sd)
    else
      centered
  }

  /** Over the reals both variants of the normalisation agree. */
  lemma DividingAgreesWithMultiplying(frame: seq<real>, m: Math)
    requires |frame| > 0
    ensures NormalizeAudioDividing(frame, m) == NormalizeAudio(frame, m)
    ensures Sum(NormalizeAudioDividing(frame, m)) == 0.0
  {
    var a, b := NormalizeAudioDividing(frame, m), NormalizeAudio(frame, m);
    var sd := StdDev(frame, m);
    if sd > StdDevFloor {
      forall i | 0 <= i < |frame|
        ensures a[i] == b[i]
      {
        assert Centered(frame)[i] / sd == Centered(frame)[i] * (1.0 / sd);
      }
    }
    NormalizedSumsToZero(frame, m);
  }
}
