/**
  The frameforge audio capture object (the build with an audio backend).

  It accumulates every delivered chunk in a buffer, feeds the chunk to the
  voice-activity detector, and hands a copy of it to the user callback when
  one is set.  Samples are opaque; the speech/silence classification of a
  chunk is the function `classify` fixed at construction.  The audio
  backend's answers to open/start/stop are method parameters.
 */
module Capture {
  import Vad
  import Lifecycle

  /** A pointer that may be null. */
  datatype Option<T> = None | Some(value: T)

  class AudioCapture<Sample> {
    const channels: nat
    const thresholds: Vad.Thresholds
    const classify: seq<Sample> -> bool

    var callbackSet: bool
    var streamOpen: bool
    var capturing: bool
    var buffer: seq<Sample>

    var readyToProcess: bool
    var hasSpeech: bool
    var speechSampleCount: nat
    var silenceSampleCount: nat

    /** The four VAD fields as one value. */
    ghost function VadFields(): Vad.VadState
      reads this
    {
      Vad.VadState(readyToProcess, hasSpeech, speechSampleCount, silenceSampleCount)
    }

    /** The lifecycle flags as one value. */
    ghost function Session(): Lifecycle.Session
      reads this
    {
      Lifecycle.Session(streamOpen, capturing)
    }

    ghost predicate Valid()
      reads this
    {
      Vad.Inv(thresholds, VadFields()) && Lifecycle.Inv(Session())
    }

    /**
      A new capture object: nothing buffered, no callback, no stream, not
      capturing, and all four VAD fields false or 0.
     */
    constructor (channels: nat, thresholds: Vad.Thresholds, classify: seq<Sample> -> bool)
      ensures Valid()
      ensures this.channels == channels && this.thresholds == thresholds && this.classify == classify
      ensures VadFields() == Vad.Initial && Session() == Lifecycle.Created
      ensures buffer == [] && !callbackSet
    {
      this.channels := channels;
      this.thresholds := thresholds;
      this.classify := classify;
      callbackSet := false;
      streamOpen := false;
      capturing := false;
      buffer := [];
      readyToProcess := false;
      hasSpeech := false;
      speechSampleCount := 0;
      silenceSampleCount := 0;
    }

    /**
      `initialize`: the backend either opened an input stream (the result is
      true and the object now holds a stream) or it did not (false, no change).
     */
    method Initialize(streamOpened: bool) returns (ok: bool)
      requires Valid()
      modifies this`streamOpen
      ensures Valid()
      ensures Lifecycle.Initialize(old(Session()), streamOpened) == Lifecycle.Outcome(Session(), ok)
    {
      if !streamOpened {
        return false;
      }
      streamOpen := true;
      ok := true;
    }

    /** `start`, with `backendOk` the backend's answer to starting the stream. */
    method Start(backendOk: bool) returns (ok: bool)
      requires Valid()
      modifies this`capturing
      ensures Valid()
      ensures Lifecycle.Start(old(Session()), backendOk) == Lifecycle.Outcome(Session(), ok)
    {
      if !streamOpen {
        return false;
      }
      if capturing {
        return true;
      }
      if !backendOk {
        return false;
      }
      capturing := true;
      ok := true;
    }

    /** `stop`, with `backendOk` the backend's answer to stopping the stream. */
    method Stop(backendOk: bool)
      requires Valid()
      modifies this`capturing
      ensures Valid()
      ensures Session() == Lifecycle.Stop(old(Session()), backendOk)
    {
      if !capturing {
        return;
      }
      if streamOpen {
        if !backendOk {
          return;
        }
      }
      capturing := false;
    }

    /**
      The destructor: `stop`, then close the stream.  The object is not used
      afterwards, so it need not stay valid.
     */
    method Destroy(stopOk: bool)
      requires Valid()
      modifies this`capturing, this`streamOpen
      ensures Session() == Lifecycle.Teardown(old(Session()), stopOk)
    {
      Stop(stopOk);
      if streamOpen {
        streamOpen := false;
      }
    }

    /** `is_capturing`; capturing always runs on an opened stream. */
    method IsCapturing() returns (r: bool)
      requires Valid()
      ensures r == capturing
      ensures r ==> streamOpen
    {
      r := capturing;
    }

    /** `set_callback`; only whether a callback is set matters to the model. */
    method SetCallback(present: bool)
      requires Valid()
      modifies this`callbackSet
      ensures Valid()
      ensures callbackSet == present
    {
      callbackSet := present;
    }

    /**
      `get_audio_buffer`: hands out everything accumulated since the last
      drain and leaves the buffer empty; the VAD state is untouched.
     */
    method GetAudioBuffer() returns (samples: seq<Sample>)
      requires Valid()
      modifies this`buffer
      ensures Valid()
      ensures samples == old(buffer) && buffer == []
    {
      samples := buffer;
      buffer := [];
    }

    /** `clear_buffer`: drops the accumulated samples; the VAD state is untouched. */
    method ClearBuffer()
      requires Valid()
      modifies this`buffer
      ensures Valid()
      ensures buffer == []
    {
      buffer := [];
    }

    /** `reset_vad_state`: all four VAD fields back to false or 0. */
    method ResetVadState()
      requires Valid()
      modifies this`readyToProcess, this`hasSpeech, this`speechSampleCount, this`silenceSampleCount
      ensures Valid()
      ensures VadFields() == Vad.Initial
    {
      readyToProcess := false;
      hasSpeech := false;
      speechSampleCount := 0;
      silenceSampleCount := 0;
    }

    /** `is_ready_to_process`; a ready utterance always contains detected speech. */
    method IsReadyToProcess() returns (ready: bool)
      requires Valid()
      ensures ready == readyToProcess
      ensures ready ==> hasSpeech
    {
      ready := readyToProcess;
    }

    /**
      `handle_audio_data`: a null pointer or an empty delivery changes
      nothing.  Otherwise the `frameCount * channels` delivered samples are
      appended to the buffer in order, the VAD takes one step on them, and
      the same samples are what the callback receives (`delivered`).
     */
    method HandleAudioData(data: Option<seq<Sample>>, frameCount: nat) returns (delivered: Option<seq<Sample>>)
      requires Valid()
      requires data.Some? ==> frameCount * channels <= |data.value|
      modifies this
      ensures Valid()
      ensures data.None? || frameCount == 0 ==> unchanged(this) && delivered == None
      ensures data.Some? && frameCount > 0 ==>
                var chunk := data.value[..frameCount * channels];
                && buffer == old(buffer) + chunk
                && VadFields() == Vad.Step(thresholds, old(VadFields()), classify(chunk), |chunk|)
                && Session() == old(Session()) && callbackSet == old(callbackSet)
                && delivered == (if callbackSet then Some(chunk) else None)
    {
      if data.None? || frameCount == 0 {
        return None;
      }
      var totalSamples := frameCount * channels;
      var chunk := data.value[..totalSamples];

      buffer := buffer + chunk;

      var currentIsSpeech := classify(chunk);
      if currentIsSpeech {
        speechSampleCount := speechSampleCount + totalSamples;
        silenceSampleCount := 0;
        if speechSampleCount >= thresholds.minSpeechSamples {
          hasSpeech := true;
        }
      } else {
        if hasSpeech {
          silenceSampleCount := silenceSampleCount + totalSamples;
          if silenceSampleCount >= thresholds.silenceSamplesThreshold {
            readyToProcess := true;
          }
        } else {
          speechSampleCount := 0;
          silenceSampleCount := 0;
        }
      }

      delivered := if callbackSet then Some(chunk) else None;
    }
  }

  /**
    Two drains in a row: the second one finds nothing, and a clear followed
    by a drain finds nothing either.
   */
  method DrainTwice<Sample>(capture: AudioCapture<Sample>) returns (first: seq<Sample>, second: seq<Sample>)
    requires capture.Valid()
    modifies capture
    ensures capture.Valid()
    ensures first == old(capture.buffer) && second == [] && capture.buffer == []
    ensures capture.VadFields() == old(capture.VadFields())
  {
    first := capture.GetAudioBuffer();
    second := capture.GetAudioBuffer();
  }

  /** A clear followed by a drain yields an empty buffer. */
  method ClearThenDrain<Sample>(capture: AudioCapture<Sample>) returns (drained: seq<Sample>)
    requires capture.Valid()
    modifies capture
    ensures capture.Valid()
    ensures drained == [] && capture.buffer == []
    ensures capture.VadFields() == old(capture.VadFields())
  {
    capture.ClearBuffer();
    drained := capture.GetAudioBuffer();
  }
}
