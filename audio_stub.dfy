/**
  The capture object of the build without an audio backend: every query
  answers "no", the drain yields nothing, and the remaining operations have
  nothing to act on.  The class has no state, so a method without a
  `modifies` clause is exactly one that "has no effect".
 */
module Stub {
  import AudioConfig
  import Lifecycle

  /** No call opens a stream: what a build without an audio backend amounts to. */
  predicate NeverOpens(calls: seq<Lifecycle.Call>)
  {
    forall i :: 0 <= i < |calls| ==> calls[i] != Lifecycle.InitializeCall(true)
  }

  /**
    The lifecycle of the real capture object when no call opens a stream,
    which is what the stub class below hard-codes: whatever the calls, the
    session stays without a stream and not capturing (the stub's
    `IsCapturing` ensures false), `start` fails (the stub's `Start` ensures
    false) and `stop` leaves the session as it was (the stub's `Stop` has no
    `modifies` clause).  The lemma is about `Lifecycle`; the stub class
    carries its own contracts and is not derived from it.
   */
  lemma {:induction false} StubIsNeverOpenedCapture(calls: seq<Lifecycle.Call>, startOk: bool, stopOk: bool)
    requires NeverOpens(calls)
    ensures var s := Lifecycle.ApplyAll(Lifecycle.Created, calls);
            && s == Lifecycle.Created
            && !Lifecycle.Start(s, startOk).ok
            && Lifecycle.Stop(s, stopOk) == s
    decreases |calls|
  {
    if calls != [] {
      assert calls[0] != Lifecycle.InitializeCall(true);
      assert Lifecycle.Apply(Lifecycle.Created, calls[0]) == Lifecycle.Created;
      assert NeverOpens(calls[1..]) by {
        forall i | 0 <= i < |calls[1..]| ensures calls[1..][i] != Lifecycle.InitializeCall(true) {
          assert calls[1..][i] == calls[i + 1];
        }
      }
      StubIsNeverOpenedCapture(calls[1..], startOk, stopOk);
    }
  }

  class StubAudioCapture<Sample> {

    /** The configuration is accepted and ignored. */
    constructor (config: AudioConfig.Config)
    {
    }

    method Initialize() returns (ok: bool)
      ensures !ok
    {
      ok := false;
    }

    method Start() returns (ok: bool)
      ensures !ok
    {
      ok := false;
    }

    method Stop()
    {
    }

    method IsCapturing() returns (r: bool)
      ensures !r
    {
      r := false;
    }

    method SetCallback(present: bool)
    {
    }

    method GetAudioBuffer() returns (samples: seq<Sample>)
      ensures samples == []
    {
      samples := [];
    }

    method ClearBuffer()
    {
    }

    method IsReadyToProcess() returns (ready: bool)
      ensures !ready
    {
      ready := false;
    }

    method ResetVadState()
    {
    }
  }
}
