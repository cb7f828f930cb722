/**
 * The real-time frame assembler of the command-line tool
 * (src-cli/crepe.cpp, `AudioProcessor` and `data_callback`): a FIFO of
 * samples filled by the audio callback and drained one frame at a time by
 * the analysis thread, plus a flag that marks the end of input.  The queue
 * is modelled sequentially; the polling wait becomes an explicit outcome.
 */
module Stream {

  import opened Wrappers
  import opened Crepe
  import opened Inference
  import opened RealMath

  /** Queued samples (oldest first), the end-of-input flag, the frame size and the queue's capacity. */
  datatype AudioProcessor = AudioProcessor(queue: seq<real>, finished: bool, frameSize: nat, capacity: nat)
  {
    /** The queue never holds more samples than it has room for. */
    predicate Valid() {
      |queue| <= capacity
    }
  }

  /** What one `get_frame` call does. */
  datatype FrameOutcome =
    | Got(frame: seq<real>, state: AudioProcessor)   // returned true with a full frame
    | Refused(state: AudioProcessor)                 // returned false
    | WouldBlock(state: AudioProcessor)              // still polling for more samples

  /** A fresh processor: empty, not finished, with room for ten frames. */
  function NewProcessor(size: nat): (p: AudioProcessor)
    ensures p.Valid() && p.queue == [] && !p.finished && p.frameSize == size
    ensures p.capacity == 10 * size
  {
    AudioProcessor([], false, size, 10 * size)
  }

  /** Enqueue the first `count` samples of `data` in order; the queue grows when full. */
  function Push(p: AudioProcessor, data: seq<real>, count: nat): (q: AudioProcessor)
    requires count <= |data|
    requires p.Valid()
    ensures q.Valid()
    ensures q.queue == p.queue + data[..count]
    ensures q.finished == p.finished && q.frameSize == p.frameSize
    ensures p.capacity <= q.capacity
  {
    var queue := p.queue + data[..count];
    p.(queue := queue, capacity := if |queue| <= p.capacity then p.capacity else |queue|)
  }

  /**
   * Take one frame: refuse when input has ended and too few samples remain,
   * wait while input continues and too few samples are queued, otherwise
   * dequeue exactly one frame.
   */
  function GetFrame(p: AudioProcessor): (o: FrameOutcome)
    requires p.Valid()
    ensures o.state.Valid()
    ensures o.Got? <==> p.frameSize <= |p.queue|
    ensures o.Refused? <==> p.finished && |p.queue| < p.frameSize
    ensures o.Got? ==> && |o.frame| == p.frameSize
                       && p.queue == o.frame + o.state.queue
                       && o.state == p.(queue := o.state.queue)
    ensures !o.Got? ==> o.state == p
  {
    if p.finished && |p.queue| < p.frameSize then Refused(p)
    else if |p.queue| < p.frameSize then WouldBlock(p)
    else Got(p.queue[..p.frameSize], p.(queue := p.queue[p.frameSize..]))
  }

  /** Mark the end of input. */
  function SetFinished(p: AudioProcessor): (q: AudioProcessor)
    ensures q.finished
    ensures q.queue == p.queue && q.frameSize == p.frameSize && q.capacity == p.capacity
  {
    p.(finished := true)
  }

  /** Marking the end twice is the same as marking it once. */
  lemma SetFinishedIdempotent(p: AudioProcessor)
    ensures SetFinished(SetFinished(p)) == SetFinished(p)
  {
  }

  /** Once finished, neither pushing nor taking a frame clears the flag. */
  lemma FinishedIsPermanent(p: AudioProcessor, data: seq<real>, count: nat)
    requires p.Valid() && p.finished && count <= |data|
    ensures Push(p, data, count).finished
    ensures GetFrame(p).state.finished
  {
  }

  /**
   * A call that was waiting is resolved by the producer: finishing input
   * turns it into a refusal (the re-check after the wait), and pushing
   * enough samples turns it into a frame.
   */
  lemma WaitResolves(p: AudioProcessor, data: seq<real>)
    requires p.Valid() && GetFrame(p).WouldBlock?
    requires p.frameSize - |p.queue| <= |data|
    ensures GetFrame(SetFinished(p)).Refused?
    ensures GetFrame(Push(p, data, |data|)).Got?
  {
  }

  /** Take up to k frames in a row, stopping at the first call that yields none. */
  function PullFrames(p: AudioProcessor, k: nat): (r: (seq<seq<real>>, AudioProcessor))
    requires p.Valid()
    ensures r.1.Valid()
    ensures |r.0| <= k
    decreases k
  {
    if k == 0 then ([], p)
    else
      match GetFrame(p)
      case Got(frame, next) =>
        var rest := PullFrames(next, k - 1);
        ([frame] + rest.0, rest.1)
      case Refused(next) => ([], next)
      case WouldBlock(next) => ([], next)
  }

  /** The first k chunks of fs samples of s, in order. */
  function Chunks(s: seq<real>, fs: nat, k: nat): (c: seq<seq<real>>)
    requires k * fs <= |s|
    ensures |c| == k
    ensures forall i :: 0 <= i < k ==> |c[i]| == fs
    decreases k
  {
    if k == 0 then [] else [s[..fs]] + Chunks(s[fs..], fs, k - 1)
  }

  /** The concatenation of a sequence of frames. */
  function Concat(frames: seq<seq<real>>): seq<real> {
    if |frames| == 0 then [] else frames[0] + Concat(frames[1..])
  }

  /** Chunks neither overlap nor leave gaps: joined up they are the prefix they were cut from. */
  lemma {:induction false} ChunksTileThePrefix(s: seq<real>, fs: nat, k: nat)
    requires k * fs <= |s|
    ensures Concat(Chunks(s, fs, k)) == s[..k * fs]
    decreases k
  {
    if k > 0 {
      PeelOneChunk(k, fs, |s|);
      var rest := s[fs..];
      ChunksTileThePrefix(rest, fs, k - 1);
      assert Chunks(s, fs, k) == [s[..fs]] + Chunks(rest, fs, k - 1);
      assert Concat(Chunks(s, fs, k)) == s[..fs] + rest[..(k - 1) * fs];
      assert s[..fs] + rest[..(k - 1) * fs] == s[..k * fs];
    }
  }

  /**
   * Successive successful calls return consecutive, non-overlapping chunks
   * of the pushed stream: with k frames' worth queued, k calls return the
   * first k chunks in order and leave exactly the remainder.
   */
  lemma FramesAreConsecutiveChunks(p: AudioProcessor, k: nat)
    requires p.Valid()
    requires k * p.frameSize <= |p.queue|
    ensures PullFrames(p, k).0 == Chunks(p.queue, p.frameSize, k)
    ensures PullFrames(p, k).1.queue == p.queue[k * p.frameSize ..]
    ensures PullFrames(p, k).1.finished == p.finished
  {
    PulledFramesAreChunks(p, k);
    PulledRemainder(p, k);
  }

  /** The frames returned by k successful calls are the first k chunks of the queue. */
  lemma {:induction false} PulledFramesAreChunks(p: AudioProcessor, k: nat)
    requires p.Valid()
    requires k * p.frameSize <= |p.queue|
    ensures PullFrames(p, k).0 == Chunks(p.queue, p.frameSize, k)
    decreases k
  {
    if k > 0 {
      var fs := p.frameSize;
      var next := p.(queue := p.queue[fs..]);
      PeelOneChunk(k, fs, |p.queue|);
      calc {
        PullFrames(p, k).0;
        { PullOneFrame(p, k); }
        [p.queue[..fs]] + PullFrames(next, k - 1).0;
        { PulledFramesAreChunks(next, k - 1); }
        [p.queue[..fs]] + Chunks(next.queue, fs, k - 1);
        { ChunksPeel(p.queue, fs, k); }
        Chunks(p.queue, fs, k);
      }
    }
  }

  /** After k successful calls the queue holds exactly what followed the k chunks. */
  lemma {:induction false} PulledRemainder(p: AudioProcessor, k: nat)
    requires p.Valid()
    requires k * p.frameSize <= |p.queue|
    ensures PullFrames(p, k).1.queue == p.queue[k * p.frameSize ..]
    ensures PullFrames(p, k).1.finished == p.finished
    decreases k
  {
    if k > 0 {
      var next := p.(queue := p.queue[p.frameSize..]);
      ChunksPeel(p.queue, p.frameSize, k);
      PullOneFrame(p, k);
      PulledRemainder(next, k - 1);
    }
  }

  /** The first of k chunks, then k - 1 chunks of the rest, which ends where the k chunks end. */
  lemma ChunksPeel(s: seq<real>, fs: nat, k: nat)
    requires 0 < k && k * fs <= |s|
    ensures fs <= |s| && (k - 1) * fs <= |s| - fs
    ensures Chunks(s, fs, k) == [s[..fs]] + Chunks(s[fs..], fs, k - 1)
    ensures s[fs..][(k - 1) * fs ..] == s[k * fs ..]
  {
    PeelOneChunk(k, fs, |s|);
  }

  /** Offsets after taking the first of k chunks. */
  lemma PeelOneChunk(k: nat, fs: nat, len: nat)
    requires 0 < k && k * fs <= len
    ensures fs <= len && (k - 1) * fs <= len - fs && (k - 1) * fs + fs == k * fs
  {
  }

  /** Pulling k frames with a full frame queued: the oldest frame, then k - 1 more from the rest. */
  lemma PullOneFrame(p: AudioProcessor, k: nat)
    requires p.Valid() && 0 < k && p.frameSize <= |p.queue|
    ensures var next := p.(queue := p.queue[p.frameSize..]);
            next.Valid() &&
            PullFrames(p, k) == ([p.queue[..p.frameSize]] + PullFrames(next, k - 1).0, PullFrames(next, k - 1).1)
  {
  }

  /** Pulling k frames from a fresh processor fed with a stream returns its first k frames' worth, in order. */
  lemma PulledFramesReassembleStream(size: nat, stream: seq<real>, k: nat)
    requires k * size <= |stream|
    ensures Concat(PullFrames(Push(NewProcessor(size), stream, |stream|), k).0) == stream[..k * size]
  {
    var p := Push(NewProcessor(size), stream, |stream|);
    assert p.queue == stream;
    FramesAreConsecutiveChunks(p, k);
    ChunksTileThePrefix(stream, size, k);
  }

  /**
   * The audio callback: push `frameCount * captureChannels` captured samples
   * and, when there is an output buffer, zero its first
   * `frameCount * playbackChannels` entries.
   */
  function DataCallback(
    p: AudioProcessor, input: seq<real>, frameCount: nat, captureChannels: nat,
    output: Option<seq<real>>, playbackChannels: nat): (r: (AudioProcessor, Option<seq<real>>))
    requires p.Valid()
    requires frameCount * captureChannels <= |input|
    requires output.Some? ==> frameCount * playbackChannels <= |output.value|
    ensures r.0.Valid()
    ensures r.0.queue == p.queue + input[..frameCount * captureChannels]
    ensures r.1.Some? <==> output.Some?
    ensures output.Some? ==> && |r.1.value| == |output.value|
                             && (forall i :: 0 <= i < frameCount * playbackChannels ==> r.1.value[i] == 0.0)
                             && (forall i :: frameCount * playbackChannels <= i < |output.value| ==>
                                   r.1.value[i] == output.value[i])
  {
    var q := Push(p, input, frameCount * captureChannels);
    match output
    case None => (q, None)
    case Some(out) =>
      var cleared := frameCount * playbackChannels;
      (q, Some(seq(|out|, i requires 0 <= i < |out| => if i < cleared then 0.0 else out[i])))
  }

  /** One callback's captured input: the interleaved buffer, its frame count and its channel count. */
  datatype Capture = Capture(input: seq<real>, frameCount: nat, channels: nat)
  {
    predicate Valid() {
      frameCount * channels <= |input|
    }

    /** The samples the callback enqueues. */
    function Samples(): seq<real>
      requires Valid()
    {
      input[..frameCount * channels]
    }
  }

  predicate AllValid(cs: seq<Capture>) {
    forall i :: 0 <= i < |cs| ==> cs[i].Valid()
  }

  /** Everything a run of callbacks captured, in arrival order. */
  function Captured(cs: seq<Capture>): seq<real>
    requires AllValid(cs)
  {
    if |cs| == 0 then [] else cs[0].Samples() + Captured(cs[1..])
  }

  /** Run the audio callback once per capture, with no playback buffer. */
  function RunCallbacks(p: AudioProcessor, cs: seq<Capture>): (q: AudioProcessor)
    requires p.Valid() && AllValid(cs)
    ensures q.Valid()
    decreases |cs|
  {
    if |cs| == 0 then p
    else RunCallbacks(DataCallback(p, cs[0].input, cs[0].frameCount, cs[0].channels, None, 0).0, cs[1..])
  }

  /** The playback buffer has no effect on what the callback enqueues. */
  lemma PlaybackDoesNotAffectCapture(
    p: AudioProcessor, input: seq<real>, frameCount: nat, captureChannels: nat,
    output: Option<seq<real>>, playbackChannels: nat)
    requires p.Valid()
    requires frameCount * captureChannels <= |input|
    requires output.Some? ==> frameCount * playbackChannels <= |output.value|
    ensures DataCallback(p, input, frameCount, captureChannels, output, playbackChannels).0
            == DataCallback(p, input, frameCount, captureChannels, None, 0).0
  {
  }

  /**
   * A run of callbacks appends everything captured, in arrival order, and
   * leaves the end-of-input flag and the frame size alone.
   */
  lemma {:induction false} CallbacksQueueCapturedInput(p: AudioProcessor, cs: seq<Capture>)
    requires p.Valid() && AllValid(cs)
    ensures RunCallbacks(p, cs).queue == p.queue + Captured(cs)
    ensures RunCallbacks(p, cs).finished == p.finished
    ensures RunCallbacks(p, cs).frameSize == p.frameSize
    decreases |cs|
  {
    if |cs| > 0 {
      var q := DataCallback(p, cs[0].input, cs[0].frameCount, cs[0].channels, None, 0).0;
      CallbacksQueueCapturedInput(q, cs[1..]);
      assert Captured(cs) == cs[0].Samples() + Captured(cs[1..]);
      assert p.queue + Captured(cs) == q.queue + Captured(cs[1..]);
    }
  }

  /**
   * Frames taken after a run of callbacks into a fresh processor are
   * consecutive chunks of the captured stream, however the callbacks split
   * it, and joined up they are its first k frames' worth of samples.
   */
  lemma CapturedStreamIsFramed(size: nat, cs: seq<Capture>, k: nat)
    requires AllValid(cs) && k * size <= |Captured(cs)|
    ensures PullFrames(RunCallbacks(NewProcessor(size), cs), k).0 == Chunks(Captured(cs), size, k)
    ensures Concat(PullFrames(RunCallbacks(NewProcessor(size), cs), k).0) == Captured(cs)[..k * size]
  {
    var q := RunCallbacks(NewProcessor(size), cs);
    CallbacksQueueCapturedInput(NewProcessor(size), cs);
    assert q.queue == Captured(cs);
    FramesAreConsecutiveChunks(q, k);
    ChunksTileThePrefix(Captured(cs), size, k);
  }

  /** A frame taken from a processor sized to the model's window is analysed as exactly one frame. */
  lemma StreamedFrameIsOneWindow(p: AudioProcessor, model: PitchModel, m: Math)
    requires p.Valid() && p.frameSize == FrameLength as nat
    requires GetFrame(p).Got?
    ensures RunInference(GetFrame(p).frame, SampleRate, model, m).numFrames == 1
  {
    ShortBuffers(GetFrame(p).frame, SampleRate, model, m);
  }
}
