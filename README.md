# frameforge audio capture: voice-activity detection and capture state

This project models the core of the frameforge audio capture object
(`AudioCapture` in `tools/frameforge/frameforge-audio.cpp` and
`tools/frameforge/frameforge-audio.h`): the energy-based voice-activity
detector (VAD) that decides when an utterance has been spoken and followed by
enough silence, the accumulation buffer that every delivered chunk is appended
to, and the stream lifecycle flags around them. It proves properties of that
model.

- `Vad` (vad.dfy) is the VAD state machine as pure functions. It covers the
  four fields `ready_to_process_`, `has_speech_`, `speech_sample_count_` and
  `silence_sample_count_`, the one-chunk update `Step` with its three
  branches, the invariant `Inv` the branches keep, `Run` over a sequence of
  chunks, and lemmas on sustained speech, trailing silence, leading silence
  and a pause in mid-utterance, and two lemmas for every chunk sequence:
  no speech is detected without a long enough run of speech chunks, and
  nothing becomes ready without a long enough run of silence chunks.
- `Capture` (audio_capture.dfy) is the class `AudioCapture<Sample>`. Its
  fields are those of the C++ object, and the sample buffer is a
  `seq<Sample>`. `Valid()` is the VAD invariant plus "capturing implies an
  opened stream". `HandleAudioData` is proved against `Vad.Step`, and
  `Initialize`, `Start`, `Stop` and `Destroy` against the `Lifecycle`
  functions. `GetAudioBuffer`, `ClearBuffer` and `ResetVadState` state the
  new buffer or VAD fields directly. Every method except `Destroy` keeps
  `Valid()`. The speech/silence classification of
  a chunk is a function `classify` fixed at construction. The backend's
  answers to open, start and stop are boolean parameters.
- `Lifecycle` (lifecycle.dfy) holds the stream-open and capturing flags as a
  pure state machine: `initialize`, `start`, `stop` and the destructor, with
  idempotence lemmas and an invariant over any sequence of calls.
- `Energy` (energy.dfy) is the RMS classifier over exact reals. The
  accumulation loop is a method, and "RMS strictly above the threshold" is
  decided on squares, with a lemma that this is the same comparison.
- `AudioConfig` (audio_config.dfy) holds the configuration defaults and the
  derivation of the two sample-count thresholds.
- `Stub` (audio_stub.dfy) is the capture class of the build without an audio
  backend. Its `stop`, `set_callback`, `clear_buffer` and `reset_vad_state`
  have no `modifies` clause, so they provably change nothing.
- `Scenarios` (scenarios.dfy) holds concrete runs with the default
  configuration.

Points of the code that the model follows and that are easy to get wrong:

- The thresholds are truncated, not rounded: the code converts duration ×
  rate with a `static_cast` (`frameforge-audio.cpp:30-35`).
  `AudioConfig.SamplesIn` truncates, and `AudioConfig.ThresholdTruncates`
  shows an input where rounding would give 2 and the code gives 1.
- The classifier compares `rms > vad_threshold`
  (`frameforge-audio.cpp:173-176`). With a negative `vad_threshold` every
  chunk, even an empty one, is speech. `Energy.IsSpeech` follows this.
- A failed `Pa_StopStream` returns early and leaves `capturing_` set
  (`frameforge-audio.cpp:124-129`), so `stop` is not a no-op then.
  `Lifecycle.Stop` keeps capturing in that case.
- Draining the buffer never resets the VAD state. `ready_to_process_` stays
  set until `reset_vad_state` is called.

## Model

| member | source | states |
|---|---|---|
| `AudioConfig.Default` | tools/frameforge/frameforge-audio.h:12-19 | the defaults: 16000 Hz, 1 channel, 512 frames per buffer, threshold 0.01, 500 ms of speech, 250 ms of silence |
| `AudioConfig.SamplesIn` | tools/frameforge/frameforge-audio.cpp:30-35 | the threshold is the largest whole sample count not above duration/1000 × rate (truncation toward zero) |
| `AudioConfig.ThresholdsOf` | tools/frameforge/frameforge-audio.cpp:29-35 | the minimum-speech and silence thresholds are each derived from their own duration at the configured rate |
| `AudioConfig.DefaultThresholds` | tools/frameforge/frameforge-audio.cpp:30-35 | with the defaults, an utterance needs 8000 speech samples and 4000 silence samples |
| `AudioConfig.ThresholdTruncates` | tools/frameforge/frameforge-audio.cpp:30-32 | a duration worth 1.5 samples gives threshold 1, not 2 |
| `Vad.Step` | tools/frameforge/frameforge-audio.cpp:215-240 | per branch: speech adds n to the speech count and zeroes silence; silence after speech adds n to silence and keeps the speech count; silence before speech zeroes both. `has_speech` becomes true exactly when it was true or the new speech count reaches the minimum. `ready_to_process` becomes true exactly when it was true or silence after speech reaches its threshold |
| `Vad.InitialInv` | tools/frameforge/frameforge-audio.cpp:25-28 | the freshly constructed VAD state satisfies the invariant (ready ⇒ speech, etc.) |
| `Vad.StepPreservesInv` | tools/frameforge/frameforge-audio.cpp:215-240 | every chunk keeps ready ⇒ has_speech, "silence counted only after speech", and "detected speech reached the minimum" |
| `Vad.StepAdvancesOneCounter` | tools/frameforge/frameforge-audio.cpp:215-240 | no chunk increases both the speech and the silence count |
| `Vad.HasSpeechIffMinimumReached` | tools/frameforge/frameforge-audio.cpp:221-223 | with a positive minimum, under the invariant, has_speech holds exactly when the speech count is at least the minimum |
| `Vad.Run` | tools/frameforge/frameforge-audio.cpp:211-241 | over any sequence of chunks both flags are monotone (only a reset clears them) and the invariant is kept |
| `Vad.SpeechRun` | tools/frameforge/frameforge-audio.cpp:215-223 | sustained speech adds its total to the speech count, zeroes silence, leaves ready alone, and sets has_speech exactly when the count reaches the minimum |
| `Vad.SilenceRunAfterSpeech` | tools/frameforge/frameforge-audio.cpp:226-234 | silence after detected speech adds its total to the silence count, keeps the speech count and has_speech, and sets ready exactly when silence reaches its threshold |
| `Vad.SilenceRunBeforeSpeech` | tools/frameforge/frameforge-audio.cpp:236-239 | leading silence zeroes both counters and raises no flag |
| `Vad.NoSpeechWithoutLongSpeechRun` | tools/frameforge/frameforge-audio.cpp:215-239 | from the initial state, if no contiguous run of speech chunks reaches the minimum, speech is never detected, nothing is ready, silence is 0 and the speech count is exactly the trailing speech run (a silence chunk resets it) |
| `Vad.NotReadyWithoutLongSilenceRun` | tools/frameforge/frameforge-audio.cpp:215-234 | once speech is detected with no silence pending, if no contiguous run of silence chunks reaches the silence threshold, the utterance stays detected and not ready, and the silence count is exactly the trailing silence run (a speech chunk resets it) |
| `Vad.MidUtterancePause` | tools/frameforge/frameforge-audio.cpp:215-234 | a pause shorter than the silence threshold followed by speech leaves the utterance not ready, resets silence and keeps has_speech |
| `Lifecycle.Initialize` | tools/frameforge/frameforge-audio.cpp:48-96 | succeeds exactly when the backend opened a stream, which the object then holds; capturing is untouched |
| `Lifecycle.Start` | tools/frameforge/frameforge-audio.cpp:98-117 | false and no change without a stream; with a stream, capturing afterwards is "was capturing or the backend started", and the result is true exactly when capturing |
| `Lifecycle.Stop` | tools/frameforge/frameforge-audio.cpp:119-134 | no change when not capturing; afterwards capturing holds exactly when it did, a stream is open and the backend stop failed |
| `Lifecycle.Teardown` | tools/frameforge/frameforge-audio.cpp:38-46 | after destruction no stream is held; capturing remains only after a failed backend stop |
| `Lifecycle.StartIdempotent` | tools/frameforge/frameforge-audio.cpp:104-106 | after a successful start, another start succeeds and changes nothing, whatever the backend would say |
| `Lifecycle.StopIdempotent` | tools/frameforge/frameforge-audio.cpp:120-122 | after a stop that ended capturing, another stop changes nothing |
| `Lifecycle.CallsKeepInv` | tools/frameforge/frameforge-audio.cpp:98-134 | across any sequence of initialize/start/stop calls and backend answers, capturing implies an open stream, and an open stream stays open |
| `Lifecycle.StartOkIffCapturing` | tools/frameforge/frameforge-audio.cpp:108-116 | under the invariant, start returns true exactly when capture is running afterwards |
| `Energy.SumSquares` | tools/frameforge/frameforge-audio.cpp:165-168 | the accumulated sum of squares is never negative |
| `Energy.MeanSquare` | tools/frameforge/frameforge-audio.cpp:160-171 | the squared RMS is never negative and is 0 for an empty chunk |
| `Energy.RmsComparison` | tools/frameforge/frameforge-audio.cpp:173-176 | for r the RMS of a chunk, r > threshold holds exactly when the squares-based classification says speech |
| `Energy.CalculateMeanSquare` | tools/frameforge/frameforge-audio.cpp:160-171 | the accumulation loop computes the mean of the squared samples, 0 for an empty chunk |
| `Energy.ClassifyChunk` | tools/frameforge/frameforge-audio.cpp:173-176 | the result is speech exactly when the RMS of the chunk is strictly above the threshold |
| `Energy.SilentChunkIsSilence` | tools/frameforge/frameforge-audio.cpp:160-176 | an all-zero chunk is silence for every non-negative threshold |
| `Energy.ConstantChunk` | tools/frameforge/frameforge-audio.cpp:160-176 | a non-empty chunk of constant amplitude A is speech exactly when abs(A) > threshold; at the threshold it is silence |
| `Capture.AudioCapture.constructor` | tools/frameforge/frameforge-audio.cpp:20-36 | nothing buffered, no callback, no stream, not capturing, all four VAD fields false/0 |
| `Capture.AudioCapture.Initialize` | tools/frameforge/frameforge-audio.cpp:48-96 | the flags and result follow `Lifecycle.Initialize`; only the stream flag may change |
| `Capture.AudioCapture.Start` | tools/frameforge/frameforge-audio.cpp:98-117 | flags and result follow `Lifecycle.Start`; only `capturing` may change |
| `Capture.AudioCapture.Stop` | tools/frameforge/frameforge-audio.cpp:119-134 | flags follow `Lifecycle.Stop`; only `capturing` may change |
| `Capture.AudioCapture.Destroy` | tools/frameforge/frameforge-audio.cpp:38-46 | stop, then drop the stream, as `Lifecycle.Teardown` |
| `Capture.AudioCapture.IsCapturing` | tools/frameforge/frameforge-audio.h:44 | returns exactly the capturing flag, changes nothing; true only with an opened stream |
| `Capture.AudioCapture.SetCallback` | tools/frameforge/frameforge-audio.cpp:136-138 | records whether a callback is set; nothing else changes and the invariant is kept |
| `Capture.AudioCapture.GetAudioBuffer` | tools/frameforge/frameforge-audio.cpp:140-145 | returns the whole buffer and leaves it empty; no VAD or lifecycle field changes |
| `Capture.AudioCapture.ClearBuffer` | tools/frameforge/frameforge-audio.cpp:147-150 | empties the buffer; no VAD or lifecycle field changes |
| `Capture.AudioCapture.ResetVadState` | tools/frameforge/frameforge-audio.cpp:152-158 | all four VAD fields back to false/0; buffer and lifecycle untouched |
| `Capture.AudioCapture.IsReadyToProcess` | tools/frameforge/frameforge-audio.h:56-59 | returns exactly the ready flag, changes nothing; a ready utterance always has detected speech |
| `Capture.AudioCapture.HandleAudioData` | tools/frameforge/frameforge-audio.cpp:194-248 | null data or zero frames change nothing and call no callback; otherwise the buffer is the old buffer followed by exactly the frame_count × channels samples in order, the VAD fields take one `Vad.Step` on that chunk's classification and length, lifecycle is untouched, the callback (if set) receives the same samples, and the invariant is kept |
| `Capture.DrainTwice` | tools/frameforge/frameforge-audio.cpp:140-145 | two drains in a row: the first returns the buffer, the second an empty sequence; VAD state unchanged |
| `Capture.ClearThenDrain` | tests/test-frameforge-audio.cpp:52-54 | a clear followed by a drain returns an empty sequence |
| `Stub.StubAudioCapture.Initialize` | tools/frameforge/frameforge-audio.h:105 | returns false |
| `Stub.StubAudioCapture.Start` | tools/frameforge/frameforge-audio.h:106 | returns false |
| `Stub.StubAudioCapture.IsCapturing` | tools/frameforge/frameforge-audio.h:108 | returns false |
| `Stub.StubAudioCapture.GetAudioBuffer` | tools/frameforge/frameforge-audio.h:110 | returns an empty sequence |
| `Stub.StubAudioCapture.IsReadyToProcess` | tools/frameforge/frameforge-audio.h:112 | returns false |
| `Stub.StubIsNeverOpenedCapture` | tools/frameforge/frameforge-audio.h:105-108 | the stub behaves as the real object whose stream never opens: after any such calls it holds no stream, is not capturing, start fails and stop changes nothing |
| `Scenarios.DefaultChunkedUtterance` | tools/frameforge/frameforge-audio.cpp:215-234 | default config, 512-sample chunks: 15 speech chunks do not detect speech, 16 do; after that 7 silence chunks are not ready, 8 are |
| `Scenarios.DefaultSingleChunkUtterance` | tools/frameforge/frameforge-audio.cpp:160-234 | default config: 8000 samples of amplitude 0.5 are classified as speech and detect it (7999 do not), then 4000 zero samples are classified as silence and make the utterance ready (3999 do not) |

## Left out

- PortAudio itself is not modelled: `Pa_Initialize`, the default-device
  lookup, device info, stream parameters, `Pa_OpenStream`, `Pa_StartStream`,
  `Pa_StopStream` and `Pa_CloseStream`. Each backend answer is a boolean
  parameter.
- The process-wide `g_portaudio_initialized` flag and `g_portaudio_ref_count`
  are not modelled. They are global state shared across objects: the counter
  is incremented even when no device is found and is never decremented.
- `pa_callback` is not modelled. It only checks its pointers and forwards to
  `handle_audio_data`.
- The mutexes, the atomic `capturing_` flag and the split between the
  real-time delivery thread and the consumer thread are not modelled. Every
  operation is sequential.
- Console and error logging is not modelled.
- Capture.AudioCapture.constructor: takes the channel count and the two
  derived thresholds instead of an `AudioConfig`. The derivation is
  `AudioConfig.ThresholdsOf`.
- Capture.AudioCapture.HandleAudioData: the classification is the abstract
  function `classify` rather than the RMS test. `Energy.IsSpeech` is that
  test on real-valued samples.
- Capture.AudioCapture.HandleAudioData: counters and `frame_count * channels`
  are unbounded naturals. 64-bit `size_t` wrap-around is not modelled.
- Capture.AudioCapture.SetCallback: only whether a callback is set is
  modelled. What the callback does with the samples is outside the object.
  `HandleAudioData` returns the sequence the callback receives.
- Capture.AudioCapture.Destroy: does not promise `Valid()` afterwards. After a
  failed backend stop the object still has `capturing` set but no stream, and
  it is not used again.
- Lifecycle.Initialize: assumes a failed open leaves the stream handle as it
  was. Re-initializing while a stream is held replaces the handle, and the
  old stream's leak is not modelled.
- Energy.CalculateMeanSquare: computes with exact reals. It does not model
  32-bit float rounding in the accumulation, and the final `std::sqrt` is not
  computed (`Energy.RmsComparison` relates any RMS value to the comparison
  on squares).
- AudioConfig.Default: the threshold is the exact real 0.01. The code's
  `0.01f` is the nearest 32-bit float, about 0.0099999998, so a chunk whose
  RMS lies between the two is speech in the code and silence in the model.
- AudioConfig.SamplesIn: computes with exact reals. It does not model the
  float rounding of `duration / 1000.0f * rate` before truncation. For the
  default values the float computation is exact.
- The remaining stub methods (`stop`, `set_callback`, `clear_buffer`,
  `reset_vad_state`) have no row: they state nothing beyond "no effect",
  which their missing `modifies` clause already guarantees.
- `tests/test-frameforge-audio.cpp` is not modelled as a target. It needs
  audio hardware and timing loops; `Capture.ClearThenDrain` mirrors its
  buffer check.
