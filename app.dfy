/** The top-level session (src/app/App.tsx): the play flag, the drum grid it
    hands to the sequencer, and the transport commands its buttons issue. */
module App {
  import DrumSequencer

  /** The state of the shared transport. */
  datatype TransportState = Started | Paused | Stopped

  /** A command sent to the transport. */
  datatype TransportCommand = StartCmd | PauseCmd | StopCmd

  /** The state a command leaves the transport in. */
  function After(cmd: TransportCommand): TransportState {
    match cmd
    case StartCmd => Started
    case PauseCmd => Paused
    case StopCmd => Stopped
  }

  /** The initial and the reset grid: ten rows of sixteen cells, all off. */
  function EmptyGrid(): (g: DrumSequencer.Grid)
    ensures DrumSequencer.WellFormed(g)
    ensures forall d, s :: 0 <= d < |g| && 0 <= s < |g[d]| ==> !g[d][s]
  {
    seq(|DrumSequencer.DrumNames|, _ => seq(DrumSequencer.Steps, _ => false))
  }

  /** The command play/pause sends: pause while playing, start otherwise.
      Either way the transport ends in the state the flipped flag names. */
  function PlayPauseCommand(isPlaying: bool): (cmd: TransportCommand)
    ensures (After(cmd) == Started) == !isPlaying
    ensures cmd != StopCmd
  {
    if isPlaying then PauseCmd else StartCmd
  }

  class Session {
    var isPlaying: bool
    var pattern: DrumSequencer.Grid
    var transport: TransportState

    /** The play flag says whether the transport runs, and the grid has the
        sequencer's shape. */
    ghost predicate Valid()
      reads this
    {
      (isPlaying <==> transport == Started) && DrumSequencer.WellFormed(pattern)
    }

    constructor ()
      ensures Valid()
      ensures !isPlaying && pattern == EmptyGrid() && transport == Stopped
    {
      isPlaying := false;
      pattern := EmptyGrid();
      transport := Stopped;
    }

    /** handlePlayPause: pauses a playing transport, starts a paused or
        stopped one, and flips the flag. */
    method PlayPause() returns (cmd: TransportCommand)
      requires Valid()
      modifies this
      ensures Valid()
      ensures cmd == PlayPauseCommand(old(isPlaying))
      ensures isPlaying == !old(isPlaying) && transport == After(cmd) && pattern == old(pattern)
    {
      cmd := PlayPauseCommand(isPlaying);
      transport := After(cmd);
      isPlaying := !isPlaying;
    }

    /** handleStop: stops the transport and clears the flag, whatever the
        state; a second stop changes nothing. */
    method Stop() returns (cmd: TransportCommand)
      requires Valid()
      modifies this
      ensures Valid()
      ensures cmd == StopCmd && !isPlaying && transport == Stopped && pattern == old(pattern)
    {
      cmd := StopCmd;
      transport := After(cmd);
      isPlaying := false;
    }

    /** handleReset: the grid goes back to all off; playback is untouched. */
    method Reset()
      requires Valid()
      modifies this
      ensures Valid()
      ensures pattern == EmptyGrid() && isPlaying == old(isPlaying) && transport == old(transport)
    {
      pattern := EmptyGrid();
    }

    /** The grid the sequencer hands back after a cell click (onPatternChange
        with the toggled copy). */
    method ToggleCell(d: nat, s: nat)
      requires Valid() && d < |DrumSequencer.DrumNames| && s < DrumSequencer.Steps
      modifies this
      ensures Valid()
      ensures pattern == DrumSequencer.ToggleStep(old(pattern), d, s)
      ensures isPlaying == old(isPlaying) && transport == old(transport)
    {
      DrumSequencer.ToggleKeepsShape(pattern, d, s);
      pattern := DrumSequencer.ToggleStep(pattern, d, s);
    }
  }
}
