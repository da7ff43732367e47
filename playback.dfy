/** The play / pause / stop controls of the metrics viewer as a three-flag state
    machine (the `started` and `stopped` state variables and the `paused` ref). */
module Playback {

  datatype Flags = Flags(started: bool, stopped: bool, paused: bool)

  /** What moves the flags: the three buttons and the socket closing from the server. */
  datatype Control = Play | Pause | Stop | SocketClosed

  const Initial := Flags(false, true, false)

  /** The flags after one control. Play while not paused starts a new stream (which
      also empties the sample buffer); Play while paused only resumes. */
  function Step(f: Flags, c: Control): (r: Flags)
    ensures c == Play && !f.paused ==> r == Flags(true, false, false)
    ensures c == Play && f.paused ==> r.started && !r.paused && r.stopped == f.stopped
    ensures c == Pause ==> !r.started && r.paused && r.stopped == f.stopped
    ensures c == Stop || c == SocketClosed ==> r == Initial
  {
    match c
    case Play => if !f.paused then Flags(true, false, false) else f.(paused := false, started := true)
    case Pause => f.(started := false, paused := true)
    case Stop => Flags(false, true, false)
    case SocketClosed => Flags(false, true, false)
  }

  /** Whether Play begins a fresh stream (empties the buffer and opens a socket). */
  predicate PlayStartsFresh(f: Flags) {
    !f.paused
  }

  function Run(f: Flags, cs: seq<Control>): Flags
    decreases |cs|
  {
    if cs == [] then f else Run(Step(f, cs[0]), cs[1..])
  }

  /** The viewer is never running and paused at once, whatever the controls pressed. */
  lemma {:induction false} NeverStartedAndPaused(f: Flags, cs: seq<Control>)
    requires !(f.started && f.paused)
    ensures !(Run(f, cs).started && Run(f, cs).paused)
    decreases |cs|
  {
    if cs != [] {
      NeverStartedAndPaused(Step(f, cs[0]), cs[1..]);
    }
  }

  /** Pause followed by Play resumes the same stream: it does not start a fresh one,
      and it gives back the flags a running stream had. */
  lemma PauseThenPlayResumes(f: Flags)
    requires f.started && !f.paused
    ensures !PlayStartsFresh(Step(f, Pause))
    ensures Run(f, [Pause, Play]) == f
  {
    assert Run(f, [Pause, Play]) == Run(Step(f, Pause), [Play]);
  }

  /** After Stop, or after the socket closes, Play starts a fresh stream until
      Pause is pressed again. */
  lemma StopForgetsPause(f: Flags, c: Control, cs: seq<Control>)
    requires c == Stop || c == SocketClosed
    requires forall i :: 0 <= i < |cs| ==> cs[i] != Pause
    ensures PlayStartsFresh(Run(Step(f, c), cs))
  {
    PlayKeepsUnpaused(Step(f, c), cs);
  }

  /** Without Pause, an unpaused viewer stays unpaused. */
  lemma {:induction false} PlayKeepsUnpaused(f: Flags, cs: seq<Control>)
    requires !f.paused
    requires forall i :: 0 <= i < |cs| ==> cs[i] != Pause
    ensures !Run(f, cs).paused
    decreases |cs|
  {
    if cs != [] {
      assert cs[0] != Pause;
      PlayKeepsUnpaused(Step(f, cs[0]), cs[1..]);
    }
  }
}
