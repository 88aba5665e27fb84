/**
  The lifecycle flags of the frameforge audio capture object: whether an input
  stream has been opened (the presence of the stream handle) and whether it is
  capturing.  The audio backend's answers to "open", "start" and "stop" are
  inputs (`true` when the backend reports no error).
 */
module Lifecycle {

  datatype Session = Session(streamOpen: bool, capturing: bool)

  /** A freshly constructed capture object: no stream, not capturing. */
  const Created: Session := Session(false, false)

  /** The new flags together with the boolean the operation returns. */
  datatype Outcome = Outcome(session: Session, ok: bool)

  /** Capturing is only ever switched on for an opened stream. */
  predicate Inv(s: Session)
  {
    s.capturing ==> s.streamOpen
  }

  /**
    `initialize`: succeeds exactly when the backend opened a stream, which
    then becomes the object's stream; on failure the flags are kept.
   */
  function Initialize(s: Session, streamOpened: bool): (r: Outcome)
    ensures r.ok == streamOpened
    ensures r.session.capturing == s.capturing
    ensures r.session.streamOpen == (s.streamOpen || streamOpened)
  {
    if streamOpened then Outcome(s.(streamOpen := true), true) else Outcome(s, false)
  }

  /**
    `start`: fails without a stream, succeeds without effect when already
    capturing, and otherwise captures exactly when the backend started the stream.
   */
  function Start(s: Session, backendOk: bool): (r: Outcome)
    ensures r.session.streamOpen == s.streamOpen
    ensures !s.streamOpen ==> r == Outcome(s, false)
    ensures s.streamOpen ==> r.session.capturing == (s.capturing || backendOk)
    ensures s.streamOpen ==> (r.ok <==> r.session.capturing)
  {
    if !s.streamOpen then Outcome(s, false)
    else if s.capturing then Outcome(s, true)
    else if !backendOk then Outcome(s, false)
    else Outcome(s.(capturing := true), true)
  }

  /**
    `stop`: without effect when not capturing; otherwise capturing ends
    unless the backend failed to stop the opened stream.
   */
  function Stop(s: Session, backendOk: bool): (t: Session)
    ensures t.streamOpen == s.streamOpen
    ensures t.capturing <==> s.capturing && s.streamOpen && !backendOk
    ensures !s.capturing ==> t == s
  {
    if !s.capturing then s
    else if s.streamOpen && !backendOk then s
    else s.(capturing := false)
  }

  /**
    The destructor: `stop`, then close and drop the stream whatever `stop`
    reported.
   */
  function Teardown(s: Session, stopOk: bool): (t: Session)
    ensures !t.streamOpen
    ensures t.capturing <==> s.capturing && s.streamOpen && !stopOk
  {
    Stop(s, stopOk).(streamOpen := false)
  }

  /** A second `start` after a successful one succeeds and changes nothing. */
  lemma StartIdempotent(s: Session, first: bool, second: bool)
    requires Start(s, first).ok
    ensures var r := Start(s, first);
            Start(r.session, second) == Outcome(r.session, true)
  {
  }

  /** A second `stop` after one that ended capturing changes nothing. */
  lemma StopIdempotent(s: Session, first: bool, second: bool)
    requires !Stop(s, first).capturing
    ensures Stop(Stop(s, first), second) == Stop(s, first)
  {
  }

  /** The calls the capture object's owner can make, with the backend's answer. */
  datatype Call = InitializeCall(streamOpened: bool) | StartCall(startOk: bool) | StopCall(stopOk: bool)

  function Apply(s: Session, c: Call): Session
  {
    match c
    case InitializeCall(streamOpened) => Initialize(s, streamOpened).session
    case StartCall(ok) => Start(s, ok).session
    case StopCall(ok) => Stop(s, ok)
  }

  function ApplyAll(s: Session, calls: seq<Call>): Session
    decreases |calls|
  {
    if calls == [] then s else ApplyAll(Apply(s, calls[0]), calls[1..])
  }

  /**
    Whatever the sequence of calls and backend answers, a capture object
    built as `Created` never captures without an opened stream, and once
    opened, the stream stays (only the destructor drops it).
   */
  lemma {:induction false} CallsKeepInv(s: Session, calls: seq<Call>)
    requires Inv(s)
    ensures Inv(ApplyAll(s, calls))
    ensures s.streamOpen ==> ApplyAll(s, calls).streamOpen
    decreases |calls|
  {
    if calls != [] {
      CallsKeepInv(Apply(s, calls[0]), calls[1..]);
    }
  }

  /** Under the invariant, `start` reports success exactly when capture is on afterwards. */
  lemma StartOkIffCapturing(s: Session, backendOk: bool)
    requires Inv(s)
    ensures Start(s, backendOk).ok <==> Start(s, backendOk).session.capturing
  {
  }
}
