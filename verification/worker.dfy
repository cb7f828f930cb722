/**
 * The analysis worker (web/thread.js): it copies the samples into the
 * WebAssembly heap, calls `analyse_audio`, decodes the flat result array
 * and posts the outcome, plus the error branches of its message handler.
 * The heap is a sequence of float slots indexed by `address / 4`;
 * allocator results, the loaded module and exception texts are parameters.
 */
module Worker {

  import opened Wrappers
  import opened RealMath
  import opened Crepe
  import opened Frames
  import opened Inference
  import opened WasmBridge

  /** Messages the worker posts back to the page. */
  datatype Message =
    | InitComplete
    | Error(message: string)
    | AnalysisComplete(results: seq<FrameResult>, testFrequency: real)

  /** Commands the page sends. */
  datatype Command =
    | Init(loadFailure: Option<string>)        // outcome of loading the module: None on success
    | Analyze(audioData: seq<real>, testFrequency: real)
    | Cleanup
    | Unknown

  const NotInitialized: string := "WASM module not initialized"
  const AllocationFailed: string := "Failed to allocate memory in WASM"
  const NullResult: string := "Null result from WASM module"
  const NoFrames: string := "No frames returned from analysis"
  const AnalysisFailed: string := "Error in pitch analysis: "
  const LoadFailed: string := "Failed to load CREPE module: "
  /** Text of the RangeError a typed-array `set` past the end of the heap throws. */
  const OffsetOutOfBounds: string := "offset is out of bounds"
  /** Text of the trap a WebAssembly store past the end of memory raises. */
  const MemoryOutOfBounds: string := "memory access out of bounds"

  /** How many times `for (let i = 0; i < x; i++)` runs: the least natural number not below x. */
  function LoopCount(x: real): (n: nat)
    ensures x <= n as real
    ensures 0 < n ==> ((n - 1) as real) < x
  {
    if x <= 0.0 then 0 else -((-x).Floor)
  }

  /** `HEAPF32.set(data, base)`: overwrite the slots from `base` on, or throw when they do not fit. */
  function CopyToHeap(heap: seq<real>, data: seq<real>, base: nat): (r: Result<seq<real>>)
    ensures r.Ok? <==> base + |data| <= |heap|
    ensures r.Ok? ==> && |r.value| == |heap|
                      && r.value[base .. base + |data|] == data
                      && (forall k :: 0 <= k < |heap| && !(base <= k < base + |data|) ==> r.value[k] == heap[k])
    ensures r.Err? ==> r.message == OffsetOutOfBounds
  {
    if |heap| < base + |data| then Err(OffsetOutOfBounds)
    else Ok(heap[..base] + data + heap[base + |data|..])
  }

  /** The slots the decoder reads lie inside the heap. */
  predicate LayoutFits(heap: seq<real>, base: nat) {
    base < |heap| && base + 1 + 3 * LoopCount(heap[base]) <= |heap|
  }

  /**
   * Decode the result array at `base`: refuse a frame count of zero or
   * less, otherwise read one (pitch, confidence, time) triple per frame.
   */
  function DecodeResultArray(heap: seq<real>, base: nat): (r: Result<seq<FrameResult>>)
    requires LayoutFits(heap, base)
    ensures r.Err? <==> heap[base] <= 0.0
    ensures r.Err? ==> r.message == NoFrames
    ensures r.Ok? ==> && |r.value| == LoopCount(heap[base])
                      && forall i :: 0 <= i < |r.value| ==>
                           r.value[i] == FrameResult(heap[base + 1 + 3 * i], heap[base + 2 + 3 * i], heap[base + 3 + 3 * i])
  {
    var numFrames := heap[base];
    if numFrames <= 0.0 then Err(NoFrames)
    else
      var n := LoopCount(numFrames);
      Ok(seq(n, i requires 0 <= i < n =>
        FrameResult(heap[base + 1 + 3 * i], heap[base + 2 + 3 * i], heap[base + 3 + 3 * i])))
  }

  /**
   * Round trip: decoding the array `analyse_audio` writes gives back its
   * frames in order, and an empty result set is reported as an error.
   */
  lemma DecodeSerialized(r: PredictionResults, heap: seq<real>, base: nat)
    requires r.WellFormed()
    requires base + 1 + 3 * r.numFrames <= |heap|
    requires heap[base .. base + 1 + 3 * r.numFrames] == Serialize(r)
    ensures LayoutFits(heap, base)
    ensures r.numFrames > 0 ==> DecodeResultArray(heap, base) == Ok(FrameResults(r))
    ensures r.numFrames == 0 ==> DecodeResultArray(heap, base) == Err(NoFrames)
  {
    var flat := Serialize(r);
    assert heap[base] == flat[0];
    assert LoopCount(r.numFrames as real) == r.numFrames;
    if r.numFrames > 0 {
      assert DecodeResultArray(heap, base).Ok?;
      var d := DecodeResultArray(heap, base).value;
      forall i | 0 <= i < r.numFrames
        ensures d[i] == FrameResults(r)[i]
      {
        assert heap[base + 1 + 3 * i] == flat[1 + 3 * i];
        assert heap[base + 2 + 3 * i] == flat[2 + 3 * i];
        assert heap[base + 3 + 3 * i] == flat[3 + 3 * i];
      }
      assert |d| == |FrameResults(r)|;
      assert d == FrameResults(r);
    }
  }

  /**
   * The buffers `analyse_audio` works in: where its input and its result
   * array go.  Address 0 is the null pointer a failed allocation returns.
   */
  datatype Allocation = Allocation(inputPtr: nat, resultPtr: nat)

  /**
   * `analyzePitch`: a failed input allocation, a null result address and an
   * empty result each post an error; a store outside the heap ends in the
   * catch branch; otherwise the decoded frames are posted.
   */
  function AnalyzePitch(heap: seq<real>, audioData: seq<real>, testFrequency: real,
                        alloc: Allocation, model: PitchModel, m: Math): (msg: Message)
    ensures msg == Error(AllocationFailed) <==> alloc.inputPtr == 0
    ensures 0 < alloc.inputPtr && alloc.inputPtr + |audioData| <= |heap| ==>
              (msg == Error(NullResult) <==> alloc.resultPtr == 0)
  {
    var input := alloc.inputPtr;
    if input == 0 then Error(AllocationFailed)
    else
      match CopyToHeap(heap, audioData, input)
      case Err(e) => Error(AnalysisFailed + e)
      case Ok(heap1) =>
        var flat := AnalyseAudio(heap1[input .. input + |audioData|], model, m);
        var result := alloc.resultPtr;
        if result == 0 then Error(NullResult)
        else
          match CopyToHeap(heap1, flat, result)
          case Err(_) => Error(AnalysisFailed + MemoryOutOfBounds)
          case Ok(heap2) =>
            WrittenLayoutFits(heap2, result, flat, NumFrames(|audioData|));
            match DecodeResultArray(heap2, result)
            case Err(e) => Error(e)
            case Ok(frames) => AnalysisComplete(frames, testFrequency)
  }

  /** A result array written into the heap can be decoded in place. */
  lemma WrittenLayoutFits(heap: seq<real>, base: nat, flat: seq<real>, n: nat)
    requires |flat| == 1 + 3 * n && flat[0] == n as real
    requires base + |flat| <= |heap| && heap[base .. base + |flat|] == flat
    ensures LayoutFits(heap, base)
  {
    assert heap[base] == flat[0];
    assert LoopCount(n as real) == n;
  }

  /**
   * With both buffers at non-null addresses inside the heap, the worker posts exactly
   * the frames of the batch pipeline run at 16 kHz, or the empty-result
   * error when the buffer is shorter than one window.
   */
  lemma AnalyzePitchEndToEnd(heap: seq<real>, audioData: seq<real>, testFrequency: real,
                             input: nat, result: nat, model: PitchModel, m: Math)
    requires 0 < input && input + |audioData| <= |heap|
    requires 0 < result && result + 1 + 3 * NumFrames(|audioData|) <= |heap|
    ensures var msg := AnalyzePitch(heap, audioData, testFrequency, Allocation(input, result), model, m);
            var r := RunInference(audioData, SampleRate, model, m);
            && (r.numFrames > 0 ==> msg == AnalysisComplete(FrameResults(r), testFrequency))
            && (r.numFrames == 0 ==> msg == Error(NoFrames))
  {
    var heap1 := CopyToHeap(heap, audioData, input).value;
    assert heap1[input .. input + |audioData|] == audioData;
    var r := RunInference(audioData, SampleRate, model, m);
    var flat := Serialize(r);
    assert AnalyseAudio(audioData, model, m) == flat;
    var heap2 := CopyToHeap(heap1, flat, result).value;
    DecodeSerialized(r, heap2, result);
  }

  /** The worker's own state: whether the module finished loading, and whether it exports a cleanup hook. */
  datatype WorkerState = WorkerState(initialized: bool, hasCleanup: bool)

  /** Calls the handler makes into the module. */
  datatype ModuleCall = AnalyseAudioCall | CleanupCall

  /** The effect of one message: the new state, what was posted and which module entry points ran. */
  datatype Step = Step(state: WorkerState, posted: seq<Message>, calls: seq<ModuleCall>)

  /**
   * `onmessage`.  INIT settles with the load outcome; ANALYZE before the
   * module is ready posts an error and returns; CLEANUP calls the hook only
   * when the module is ready and has one; anything else is ignored.
   */
  function OnMessage(w: WorkerState, cmd: Command, heap: seq<real>, alloc: Allocation,
                     model: PitchModel, m: Math, exportsCleanup: bool): (s: Step)
    ensures cmd.Analyze? && !w.initialized ==>
              s == Step(w, [Error(NotInitialized)], [])
    ensures cmd.Analyze? && w.initialized ==>
              s.state == w && |s.posted| == 1 && s.posted[0] != InitComplete
    ensures cmd.Cleanup? ==> s.state == w && s.posted == []
                             && (s.calls == [CleanupCall] <==> w.initialized && w.hasCleanup)
    ensures cmd.Unknown? ==> s == Step(w, [], [])
    ensures cmd.Init? ==> (s.state.initialized <==> cmd.loadFailure.None? || w.initialized)
  {
    match cmd
    case Init(failure) =>
      (match failure
       case None => Step(WorkerState(true, exportsCleanup), [InitComplete], [])
       case Some(e) => Step(w, [Error(LoadFailed + e)], []))
    case Analyze(audio, testFrequency) =>
      if !w.initialized then Step(w, [Error(NotInitialized)], [])
      else
        var calls := if 0 < alloc.inputPtr && alloc.inputPtr + |audio| <= |heap| then [AnalyseAudioCall] else [];
        Step(w, [AnalyzePitch(heap, audio, testFrequency, alloc, model, m)], calls)
    case Cleanup =>
      Step(w, [], if w.initialized && w.hasCleanup then [CleanupCall] else [])
    case Unknown => Step(w, [], [])
  }

  /** Before initialisation no message ever reaches the analysis entry point. */
  lemma NoAnalysisBeforeInit(w: WorkerState, cmd: Command, heap: seq<real>, alloc: Allocation,
                             model: PitchModel, m: Math, exportsCleanup: bool)
    requires !w.initialized
    ensures AnalyseAudioCall !in OnMessage(w, cmd, heap, alloc, model, m, exportsCleanup).calls
    ensures forall msg :: msg in OnMessage(w, cmd, heap, alloc, model, m, exportsCleanup).posted ==> !msg.AnalysisComplete?
  {
  }
}
