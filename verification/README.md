# crepe.cpp pitch pipeline, modelled in Dafny

crepe.cpp runs the CREPE pitch-estimation network over audio. The audio is
cut into overlapping windows of 1024 samples, 160 samples (10 ms at 16 kHz)
apart. Each window is normalised and passed to the network, which returns
360 activations. The arg-max bin is decoded into a frequency, and its
activation is the confidence. A batch of frames can be summarised into
minimum and maximum pitch, mean confidence and the time/pitch correlation.

The same pipeline reaches users in three ways:

- a command-line tool fed by a streaming sample queue;
- a WebAssembly entry point that flattens the results into an array of
  floats, decoded by a Web Worker;
- a browser page that names the note, colours a confidence bar and keeps a
  bounded pitch history.

This project models that core over `real` numbers. Each file is one module.

- `crepe.dfy` (`Crepe`): the scheme constants and the `PredictionResults` / `PredictionAnalytics` records.
- `frames.dfy` (`Frames`): C++ truncating division, the frame count as written and corrected, and the analysis window.
- `normalizer.dfy` (`Normalizer`): DC removal and scaling to unit standard deviation.
- `decoder.dfy` (`Decoder`): arg-max, bin to cents to Hz, and confidence.
- `inference.dfy` (`Inference`): the frame loop of `runInference`, with the network as a parameter.
- `analytics.dfy` (`Analytics`): Pearson correlation, both as the source's accumulation loop and in closed form, and `calculate_analytics`.
- `sums.dfy` (`Sums`): the Eigen reductions (`sum`, `mean`, `squaredNorm`, `minCoeff`, `maxCoeff`) and their algebra.
- `real_math.dfy` (`RealMath`): abstract `pow`, `sqrt` and `log2` passed as a `Math` record of functions, the laws assumed of them, and IEEE division outcomes (finite, NaN, ±infinity).
- `stream.dfy` (`Stream`): the CLI's `AudioProcessor` as a sequential state machine, the `data_callback`, and runs of callbacks feeding it.
- `wasm_bridge.dfy` (`WasmBridge`): the `analyse_audio` flat layout `[n, p0, c0, t0, p1, …]` and `analysePitch`.
- `worker.dfy` (`Worker`): `analyzePitch` in the Web Worker and the `onmessage` dispatcher. The heap is a sequence of float slots.
- `decimal.dfy` (`Decimal`): decimal rendering and reading of integers, used for octave numbers in note names.
- `web_app.dfy` (`WebApp`): `frequencyToNoteName`, the bounded pitch history, the confidence colour and opacity, and the plot scale.
- `wav_loader.dfy` (`WavLoader`): the interleaved-channel downmix of `load_wav_file`, and the dividing variant of `normalize_audio`.
- `wrappers.dfy` (`Wrappers`): `Option` and `Result`.

The network is a parameter `model: seq<real> -> Activation`, where an
activation is a non-empty sequence of reals. `pow(2, x)`, `sqrt` and `log2`
are the fields of a `Math` record. The properties that need them take, as a
precondition, the law they rely on:

- `Pow2Increasing`: 2^x is strictly increasing;
- `SqrtLawful`: the square root of a non-negative number is non-negative and squares back to it;
- `Log2OfOneIsZero`.

## Model

| member | source | states |
|---|---|---|
| Crepe.HopIsTenMilliseconds | src/crepe.hpp:11-12 | One hop of 160 samples at 16000 Hz lasts exactly 10 ms. |
| Frames.TruncDiv | src/inference.cpp:152 | C++ integer division rounds toward zero: the remainder has the dividend's sign and is smaller in magnitude than the divisor. |
| Frames.NumFrames | src/inference.cpp:152-168 | Every counted window `[160·i, 160·i + 1024)` lies inside the buffer, and the next one would not fit; a buffer shorter than 1024 samples has no frame. |
| Frames.NumFramesAsWritten | src/inference.cpp:152 | The source's count: from 1024 samples on, the number of windows that fit; for 865 ≤ L < 1024 it is 1, for 705 ≤ L ≤ 864 it is 0, and for L ≤ 704 it is negative. |
| Frames.NumFramesMatchesSource | src/inference.cpp:152 | For buffers of at least 1024 samples the corrected count equals the source's formula `(L - 1024) / 160 + 1`. |
| Frames.ShortBufferOverrunsAsWritten | src/inference.cpp:152-168 | For 865 ≤ L < 1024 the source's formula yields one frame although window 0 does not fit; the corrected count is 0. |
| Frames.ThousandSamplesAsWritten | src/inference.cpp:152 | A 1000-sample buffer: one frame as written, none corrected. |
| Frames.NegativeCountAsWritten | src/inference.cpp:152-158 | For L ≤ 704 the source's count is negative, and the vectors are resized to it; the corrected count is 0. |
| Frames.EmptyAndShortCountsAsWritten | src/inference.cpp:152 | As written, an empty buffer counts -5 frames, 704 samples count -1, and 705 or 864 samples count 0. |
| Frames.ConsecutiveWindowsOverlap | src/inference.cpp:166-168 | Window i + 1 begins with the last 864 samples of window i: consecutive windows overlap by all but one hop. |
| Decoder.ArgMax | src/inference.cpp:46 | `maxCoeff(&index)` yields a valid index whose activation is at least every activation, and strictly above every earlier one (first maximum wins). |
| Decoder.ArgMaxFirstOnTies | src/inference.cpp:46 | When two bins tie for the maximum, the lower index is reported. |
| Decoder.GetPitchFromCrepe | src/inference.cpp:38-50 | The pitch is the frequency of the first bin whose activation is maximal: no activation exceeds it and every earlier one is strictly smaller. |
| Decoder.Confidence | src/inference.cpp:191-192 | The confidence is one of the activations and is at least every activation. |
| Decoder.BinsTwentyCentsApart | src/inference.cpp:48 | Adjacent bins are exactly 20 cents apart (7180 / 359). |
| Decoder.BinRange | src/inference.cpp:48 | Bin 0 is at 1997.379… cents and bin 359 at 1997.379… + 7180 cents. |
| Decoder.BinPitch | src/inference.cpp:48-49 | Given a strictly increasing 2^x, no bin decodes below the frequency of bin 0, and each bin decodes strictly above the frequency of the bin beneath it. |
| Decoder.BinPitchIncreasing | src/inference.cpp:48-49 | Given a strictly increasing 2^x, a higher bin decodes to a strictly higher frequency. |
| Decoder.OneHotDecodes | src/inference.cpp:38-50 | A one-hot activation decodes to its hot bin's frequency with confidence 1. |
| Normalizer.Variance | src/inference.cpp:86 | The mean square of the centred window is never negative. |
| Normalizer.NormalizeAudio | src/inference.cpp:79-93 | Normalisation keeps the window length. |
| Normalizer.Gain | src/inference.cpp:88-91 | The scale factor is positive. It is the reciprocal of the standard deviation whenever that exceeds 1e-10, and exactly 1 otherwise. |
| Normalizer.SilentWindowOnlyCentred | src/inference.cpp:82-92 | A window whose standard deviation is at most 1e-10 is only centred: its mean is removed and nothing is scaled. |
| Normalizer.NormalizeAudioIsAffine | src/inference.cpp:79-93 | Every output sample is `gain · (x[i] - mean)` for one common positive gain. |
| Normalizer.NormalizedSumsToZero | src/inference.cpp:82-83 | A normalised window sums to zero. |
| Normalizer.ConstantNormalizesToZeros | src/inference.cpp:82-92 | A window whose samples are all equal normalises to all zeros. |
| Normalizer.NormalizedHasUnitVariance | src/inference.cpp:86-91 | Given a lawful sqrt and a standard deviation above 1e-10, the normalised window has mean square exactly 1. |
| Normalizer.CenteredOfZeroMean | src/inference.cpp:82-83 | Removing the mean of a zero-mean window changes nothing. |
| Sums.CenteredSumsToZero | src/inference.cpp:82-83 | A centred vector sums to zero. |
| Sums.CenteredZeroIffConstant | src/inference.cpp:82-83 | Centring yields all zeros exactly when the vector is constant. |
| Sums.MinCoeff | src/inference.cpp:223 | The minimum is an element and is at most every element. |
| Sums.MaxCoeff | src/inference.cpp:224 | The maximum is an element and is at least every element. |
| Sums.MeanBetweenMinAndMax | src/inference.cpp:222-224 | The mean of a non-empty vector lies between its minimum and maximum. |
| Sums.SumSq | src/inference.cpp:86 | `squaredNorm` is non-negative. |
| Sums.SumSqScale | src/inference.cpp:86-91 | Scaling a vector by k scales its squared norm by k². |
| Sums.DotSymmetric | src/inference.cpp:30 | The accumulated cross product does not depend on argument order. |
| Sums.DotSelf | src/inference.cpp:30-32 | The cross product of a vector with itself is its squared norm. |
| RealMath.FloatDiv | src/inference.cpp:35 | IEEE division: the result is finite exactly when the divisor is non-zero; 0/0 is NaN; x/0 is an infinity with the sign of x. |
| RealMath.SqrtZeroIff | src/inference.cpp:35 | Given a lawful sqrt, the root is zero exactly when its argument is. |
| RealMath.SqrtUnique | src/inference.cpp:88 | Given a lawful sqrt, it returns the non-negative root. |
| Inference.PredictFrame | src/inference.cpp:168-192 | The pitch and the confidence, although read out separately, come from the same bin: the first one with the greatest activation of the normalised window. |
| Inference.FrameTime | src/inference.cpp:199 | The time of frame i multiplied by the sample rate is `160·i`. |
| Inference.RunInference | src/inference.cpp:140-204 | All three vectors have length `num_frames`, which is the corrected frame count, and slot i's time is `160·i / sample_rate`. |
| Inference.TimesStrictlyIncreasing | src/inference.cpp:199 | At a positive sample rate, frame times strictly increase with the frame index. |
| Inference.TimesAtModelRate | src/inference.cpp:199 | At 16 kHz the time of frame i is i/100 s. |
| Inference.SlotDependsOnlyOnItsWindow | src/inference.cpp:164-199 | Two inputs that agree on window i give the same pitch, confidence and time in slot i. |
| Inference.AppendingKeepsEarlierFrames | src/inference.cpp:152-199 | Appending samples keeps every earlier frame and its results. |
| Inference.RateOnlyAffectsTimes | src/inference.cpp:144-148 | Any non-zero sample rate, including one other than 16000, changes only the times, never the pitches, confidences or frame count. |
| Inference.SlotDecodesWindow | src/inference.cpp:168-198 | Slot i holds the arg-max activation of the normalised window i as its confidence, and that bin's frequency as its pitch. |
| Inference.ConfidencesInUnitRange | src/inference.cpp:191-198 | If the network's activations lie in [0, 1], so does every stored confidence. |
| Inference.ShortBuffers | src/inference.cpp:152 | Fewer than 1024 samples give no frame; exactly 1024 give one. |
| Analytics.CalculateCorrelation | src/inference.cpp:17-36 | The result is defined exactly when the product of the centred norms is non-zero, and then times that product it gives the cross sum of the deviations. |
| Analytics.CorrelationNeverInfinite | src/inference.cpp:30-35 | Given a lawful sqrt, the correlation is never an infinity: a zero denominator always comes with a zero numerator. |
| Analytics.ZeroNormMeansNoDeviation | src/inference.cpp:30-35 | Given a lawful sqrt, a zero centred norm means every deviation from the mean is zero. |
| Analytics.ZeroNormZeroCross | src/inference.cpp:30-35 | Given a lawful sqrt, a zero product of centred norms forces a zero cross sum, so a zero denominator means 0/0. |
| Analytics.CorrelationLoop | src/inference.cpp:17-36 | The accumulation loop computes the closed-form Pearson quotient: the cross product of the centred vectors over the product of their norms. |
| Analytics.CorrelationSymmetric | src/inference.cpp:17-36 | The correlation of x with y equals that of y with x. |
| Analytics.CorrelationUndefinedIffConstant | src/inference.cpp:35 | Given a lawful sqrt, the correlation is NaN exactly when one input is constant, and finite exactly when neither is. |
| Analytics.PerfectCorrelation | src/inference.cpp:17-36 | When y is a positive affine image of a non-constant x, the correlation is exactly 1. |
| Analytics.CalculateAnalytics | src/inference.cpp:216-230 | Starting from a default record, the minimum and maximum frequency become pitches of the batch that bound every pitch, and the record points back to the results. |
| Analytics.MeanConfidenceBounded | src/inference.cpp:222-224 | The minimum frequency is at most the maximum, and the mean confidence lies between the least and greatest confidence. |
| Analytics.SteadyPitchCorrelationUndefined | src/inference.cpp:227 | A batch with constant pitch has a NaN time/pitch correlation. |
| Stream.GetFrame | src-cli/crepe.cpp:32-59 | It succeeds exactly when a full frame is queued, whatever the flag. It refuses exactly when finished and short. A success removes the oldest `frame_size` samples and changes nothing else; the other outcomes leave the state unchanged. |
| Stream.SetFinishedIdempotent | src-cli/crepe.cpp:61-64 | Finishing twice is the same as finishing once. |
| Stream.FinishedIsPermanent | src-cli/crepe.cpp:24-64 | Neither a push nor a frame request clears the finished flag. |
| Stream.WaitResolves | src-cli/crepe.cpp:40-48 | A request that is waiting becomes a refusal once input finishes, and a success once enough samples are pushed. |
| Stream.ChunksTileThePrefix | src-cli/crepe.cpp:50-58 | k consecutive frame-size chunks, joined, are exactly the first k frames' worth of samples. |
| Stream.PulledFramesAreChunks | src-cli/crepe.cpp:50-58 | With k frames' worth queued, k requests return the first k chunks in order. |
| Stream.PulledRemainder | src-cli/crepe.cpp:50-58 | After k successful requests the queue holds exactly what followed the k chunks, and the flag is unchanged. |
| Stream.FramesAreConsecutiveChunks | src-cli/crepe.cpp:50-58 | Successive frames are consecutive, non-overlapping chunks of the queue, and exactly the remainder stays queued. |
| Stream.PulledFramesReassembleStream | src-cli/crepe.cpp:24-58 | The frames pulled from a stream pushed into a new processor join up into that stream's prefix. |
| Stream.PlaybackDoesNotAffectCapture | src-cli/crepe.cpp:68-81 | Whatever the playback buffer, the callback enqueues the same samples. |
| Stream.CallbacksQueueCapturedInput | src-cli/crepe.cpp:68-75 | A run of callbacks appends every captured sample in arrival order and leaves the end-of-input flag and the frame size alone. |
| Stream.CapturedStreamIsFramed | src-cli/crepe.cpp:24-81 | After a run of callbacks into a new processor, k frame requests return the first k consecutive chunks of the captured stream, however the callbacks split it. |
| Stream.StreamedFrameIsOneWindow | src-cli/crepe.cpp:117-122 | A frame delivered to the analysis thread yields exactly one batch frame. |
| WasmBridge.Triples | src-wasm/crepe.cpp:24-29 | Frame i's pitch, confidence and time occupy positions 3i, 3i+1 and 3i+2. |
| WasmBridge.Serialize | src-wasm/crepe.cpp:18-29 | The array has length `1 + 3·n`; slot 0 holds n; slots 1+3i, 2+3i and 3+3i hold frame i's pitch, confidence and time. |
| WasmBridge.AnalyseAudio | src-wasm/crepe.cpp:11-32 | The layout is sized by the frame count; the analysis always runs at 16 kHz, so time slot i holds i/100. |
| WasmBridge.AnalysePitch | src-wasm/crepe.cpp:36-65 | Copying the input element by element and building one object per frame returns exactly the frame records of the batch analysis at 16 kHz. |
| Worker.LoopCount | web/thread.js:99 | `for (i = 0; i < x; i++)` runs the least natural number of times that is not below x. |
| Worker.CopyToHeap | web/thread.js:73 | `HEAPF32.set` succeeds exactly when the data fits. It then writes the data at the offset and leaves every other slot unchanged. Otherwise it throws a range error. |
| Worker.DecodeSerialized | web/thread.js:87-106 | Decoding the array `analyse_audio` writes returns the original frame records in order, or the "no frames" error when there were none. |
| Worker.WrittenLayoutFits | web/thread.js:87-99 | A serialised result written into the heap can be decoded in place. |
| Worker.AnalyzePitch | web/thread.js:56-125 | The allocation error is posted exactly when the input address is 0. With a non-null input inside the heap, the null-result error is posted exactly when the result address is 0. |
| Worker.AnalyzePitchEndToEnd | web/thread.js:56-125 | With both buffers at non-null addresses inside the heap, the worker posts exactly the batch analysis's frames at 16 kHz with the test frequency, or the "no frames" error when there are none. |
| Worker.OnMessage | web/thread.js:5-30 | ANALYZE before initialisation posts only "not initialized" and calls nothing. ANALYZE after initialisation posts exactly one message. CLEANUP calls the hook exactly when the module is loaded and exports it. INIT makes the worker initialised exactly when loading succeeds (or it already was). Other commands do nothing. |
| Worker.NoAnalysisBeforeInit | web/thread.js:13-20 | Before initialisation no command reaches `_analyse_audio` or posts analysis results. |
| Decimal.NatToString | web/app.js:77 | A natural number renders as a non-empty string of digits with no leading zero. |
| Decimal.ParseNatToString | web/app.js:77 | Reading back the digits of n gives n. |
| Decimal.ParseIntToString | web/app.js:77 | Reading back the rendering of any integer, negative ones included, gives it back. |
| WebApp.JsRound | web/app.js:76 | `Math.round(x)` is within one half of x, with halves rounded up. |
| WebApp.JsRem12 | web/app.js:77 | JavaScript `%` by 12 agrees with the dividend mod 12 and takes the dividend's sign. |
| WebApp.FrequencyToNoteName | web/app.js:74-78 | The name is "--" exactly when the frequency is below 20 Hz. |
| WebApp.ConcertA | web/app.js:76-77 | Given log2(1) = 0, 440 Hz is named "A4". |
| WebApp.PitchClassOfName | web/app.js:5 | Each entry of the name table reads back as its own position. |
| WebApp.NoteNumber | web/app.js:76 | The note number is 69 plus the nearest whole number of semitones from 440 Hz, halves rounding up. |
| WebApp.NoteName | web/app.js:77 | A non-negative note number's name reads back as that number. A negative one off the octave boundary reads the table at a negative index, and `undefined` plus the octave number is NaN. |
| WebApp.ComposedNameParses | web/app.js:77 | A pitch-class name followed by the octave `floor(n / 12) - 1` reads back as n. |
| WebApp.NoteNamesDistinct | web/app.js:77 | Distinct non-negative note numbers get distinct names. |
| WebApp.NegativeNoteName | web/app.js:77 | Note -1 shows as "NaN", while note -12, on the octave boundary, is named "C-2". |
| WebApp.PushHistory | web/app.js:147-150 | One push grows the history by one up to 100 entries, and keeps the newest entries of history-plus-entry. |
| WebApp.PushAll | web/app.js:147-150 | The history never exceeds 100 entries. |
| WebApp.PushIsLastN | web/app.js:147-150 | One push keeps the last 100 entries of the history extended by the new entry. |
| WebApp.HistoryKeepsMostRecent | web/app.js:147-150 | After any run of pushes the history is exactly the most recent (at most 100) entries, in arrival order. |
| WebApp.ColourBand | web/app.js:134-140 | Green exactly above 0.5, yellow exactly in (0.2, 0.5], red exactly at or below 0.2. |
| WebApp.ColourBandMonotone | web/app.js:134-140 | More confidence never gives a worse colour. |
| WebApp.Opacity | web/app.js:142 | The opacity is at least 0.3 and at least the confidence, and equals one of them. |
| WebApp.HandleAnalysisResults | web/app.js:119-153 | An empty batch changes nothing. Otherwise the last result alone sets the bar width (confidence · 100), the colour, the opacity `max(0.3, confidence)` and the note name, and is appended to the bounded history. |
| WebApp.OnlyLastResultMatters | web/app.js:122-123 | Handling a batch is the same as handling its last result alone. |
| WebApp.ScaleYSpansCanvas | web/app.js:223-224 | 50 Hz maps to the canvas height and 800 Hz to 0, and higher pitches are drawn strictly higher. |
| WavLoader.SumChannels | src/wavloader.cpp:37-40 | The channel loop's running sum is the sum of the frame. |
| WavLoader.Downmix | src/wavloader.cpp:29-42 | The output has `frame_count` samples: sample i is the average of the ch interleaved values `i·ch + c` for every frame read, and 0 beyond. |
| WavLoader.MonoReadIsOneChannelDownmix | src/wavloader.cpp:27-45 | The mono copy agrees with the downmix: each sample read is the average of its one-channel frame. |
| WavLoader.LoadWavFile | src/wavloader.cpp:6-49 | A decoder that fails to open yields no samples and, when asked, the error message naming the file. Otherwise the output has `frame_count` samples, each frame read is the average of its channels (the mono copy included), the frames not delivered are 0, and the rate is reported when asked. |
| WavLoader.DuplicatedChannelsDownmixToSource | src/wavloader.cpp:36-42 | A signal copied to every channel downmixes to itself. |
| WavLoader.DownmixWithinChannels | src/wavloader.cpp:36-42 | A downmixed sample lies between the least and greatest channel value of its frame. |
| WavLoader.NormalizeAudioDividing | src/wavloader.cpp:54-65 | The dividing normalisation keeps the window length. |
| WavLoader.DividingAgreesWithMultiplying | src/wavloader.cpp:54-65 | Over the reals, dividing by the standard deviation equals multiplying by its reciprocal, so the result also sums to zero. |

## Left out

- The ONNX Runtime session and the `CrepeModel` singleton are foreign calls. The network is the function parameter `model`; when it fails, nothing is modelled.
- The OpenMP `parallel for` / `critical` frame loop is modelled sequentially. Each iteration writes only its own slot.
- Threading in `AudioProcessor` (atomics, the lock-free queue, the 1 ms `sleep_for` polling) is left out. A request that would poll becomes the `WouldBlock` outcome. The `try_dequeue` failure branch cannot happen in a single-threaded run once the size check has passed, so it is not modelled.
- miniaudio devices and decoders, file access, console output and the `main` functions (`src/main.cpp`, the CLI's `main`) are I/O. The decoder is a parameter (`DecodedFile`: rate, channels, reported length, samples delivered).
- `analyze_frequency_bins` is a debug print and is not used by decoding.
- Single-precision float rounding everywhere is left out. All arithmetic is over `real`. `pow`, `sqrt` and `log2` are abstract, as described above. `Math.round` is modelled exactly as `floor(x + 0.5)`.
- The unused constants `FREQ_MIN`, `FREQ_MAX`, `CENTER_OFFSET`, `BINS_PER_OCTAVE`, `CONFIDENCE_THRESHOLD`, `MIN_FRAMES`, `ONNX_THREADS` and `ONNX_LOG_LEVEL` are not modelled.
- DOM updates, canvas drawing other than the `scaleY` mapping, `performance.now` and the processing time, `setTimeout` scheduling and `new Float32Array` conversion are left out.
- `malloc`/`free` and byte offsets are left out. Allocation outcomes are an `Allocation` parameter of two addresses, where 0 stands for the null pointer, and the heap is indexed by float slot (`address / 4`).
- Inference.RunInference: requires a non-zero sample rate. The source divides by it, and a rate of 0 would make frame 0's time NaN and every later time an infinity. Negative rates are modelled and give negative times.
- Worker.DecodeResultArray: requires that the heap hold as many triples as the count slot announces. Reading beyond the heap yields `undefined` in JavaScript, and that is not modelled.
- Decoder.GetPitchFromCrepe: requires a non-empty activation; the source does not check the activation's size. Analytics.CalculateAnalytics likewise requires at least one frame, because Eigen's mean, min and max of an empty vector are undefined.
- Worker.AnalyzePitch: the exception texts of the catch branch are fixed strings standing for the engine's messages, because the model cannot know the engine's wording.
- Worker.OnMessage: the outcome of loading the module is an input (`loadFailure`), because the asynchronous `importScripts` and promise chain are not modelled.
- Worker.AnalyzePitchEndToEnd: its "no frames" outcome is for the corrected frame count. For buffers of 704 samples or fewer the source's count is negative: resizing the Eigen vectors to a negative size is not defined, and `malloc((1 + 3·n)·4)` with a negative n requests a wrapped, huge size. The page would then see a null result address or an abort, not the "no frames" error. That path is not modelled.
- Stream.DataCallback: does not model 32-bit wrap-around of `frame_count · channels`, which cannot occur for realistic buffer sizes.
- Analytics.CalculateCorrelation: the NaN of a constant input is propagated as the code does, with no substituted fallback value.

## Findings

| source | as written | input that shows it | evidently intended | confidence | as-written member | corrected member |
|---|---|---|---|---|---|---|
| src/inference.cpp:152-168 | `num_frames = (length - 1024) / 160 + 1` with C++ division truncating toward zero. For 865 ≤ length < 1024 it counts one frame, and `segment(0, 1024)` then reads past the end of the buffer. | a buffer of 1000 samples: `(1000 - 1024) / 160 + 1 == 1` | no frame for a buffer shorter than one window, so every counted window fits | not executed | Frames.ShortBufferOverrunsAsWritten | Frames.NumFrames |
| src/inference.cpp:152-158 | The same formula is negative for length ≤ 704, because truncation toward zero rounds the negative quotient up; the result vectors are then resized to a negative size. | an empty buffer: `(0 - 1024) / 160 + 1 == -5`; 704 samples: `-320 / 160 + 1 == -1` | a count of 0 for every buffer shorter than one window | not executed | Frames.NegativeCountAsWritten | Frames.NumFrames |
